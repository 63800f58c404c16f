/** The token classifier of `src/processor.py`: `identify_object_type`, a
    ladder of four regular-expression tests on a token, and the loop of
    `process_file` that splits the content on commas, classifies every
    non-empty segment and tallies the labels. */
module Processor {
  import opened Chars
  import opened Strings

  /** The five labels, in the order of the ladder. */
  datatype Category = Integer | RealNumber | AlphabeticalString | Alphanumeric | Unknown

  /** The label text printed after "Type: " and used as a key of `object_counts`. */
  function Label(c: Category): string {
    match c
    case Integer => "Integer"
    case RealNumber => "Real Number"
    case AlphabeticalString => "Alphabetical String"
    case Alphanumeric => "Alphanumeric"
    case Unknown => "Unknown"
  }

  /** The pair `identify_object_type` returns: the value shown and its label. */
  datatype Classification = Classification(value: string, category: Category)

  // ---------------------------------------------------------------------
  // The four patterns. Each is matched by a left-to-right greedy scan; since
  // the character classes next to each other in a pattern are disjoint, the
  // scan never needs to backtrack, and the lemmas below show that it accepts
  // exactly the language of the regular expression.

  /** The number of digits at the start of `s`. */
  function DigitRun(s: string): (n: nat)
    ensures n <= |s| && AllDigits(s[..n])
    ensures n < |s| ==> !IsDigit(s[n])
  {
    if s == [] || !IsDigit(s[0]) then 0 else 1 + DigitRun(s[1..])
  }

  /** The number of letters and digits at the start of `s`. */
  function AlnumRun(s: string): (n: nat)
    ensures n <= |s| && AllAlnum(s[..n])
    ensures n < |s| ==> !IsAlnum(s[n])
  {
    if s == [] || !IsAlnum(s[0]) then 0 else 1 + AlnumRun(s[1..])
  }

  /** `^-?\d+$` */
  predicate IsIntegerText(s: string) {
    var u := Unsigned(s);
    |u| > 0 && AllDigits(u)
  }

  /** `^-?\d+\.\d+$`: digits, a point, digits. */
  predicate IsRealText(s: string) {
    var u := Unsigned(s);
    var k := DigitRun(u);
    0 < k && k + 1 < |u| && u[k] == '.' && AllDigits(u[k + 1..])
  }

  /** `^[a-zA-Z]+$` */
  predicate IsLettersText(s: string) {
    |s| > 0 && AllLetters(s)
  }

  /** `^\s*[a-zA-Z0-9]+\s*$` on the token as given. Python's `$` also matches
      just before a final line feed; the trailing `\s*` absorbs that line feed
      anyway, so the language is the same. */
  predicate IsPaddedAlnumText(s: string) {
    var i := LeadingSpaces(s);
    var n := AlnumRun(s[i..]);
    n > 0 && AllSpaces(s[i + n..])
  }

  /** The language of `-?\d+\.\d+`, split at its point. */
  ghost predicate RealLanguage(s: string) {
    var u := Unsigned(s);
    exists k | 0 < k < |u| - 1 :: u[k] == '.' && AllDigits(u[..k]) && AllDigits(u[k + 1..])
  }

  /** The language of `\s*[a-zA-Z0-9]+\s*`, split into its three parts. */
  ghost predicate PaddedAlnumLanguage(s: string) {
    exists i, j | 0 <= i < j <= |s| :: AllSpaces(s[..i]) && AllAlnum(s[i..j]) && AllSpaces(s[j..])
  }

  lemma {:induction false} AlnumRunExact(a: string, rest: string)
    requires AllAlnum(a)
    requires rest == [] || !IsAlnum(rest[0])
    ensures AlnumRun(a + rest) == |a|
  {
    if a == [] {
      assert a + rest == rest;
    } else {
      assert (a + rest)[1..] == a[1..] + rest;
      AlnumRunExact(a[1..], rest);
    }
  }

  /** The scan for Real Number accepts exactly the language of its pattern. */
  lemma {:induction false} RealScanMatchesPattern(s: string)
    ensures IsRealText(s) <==> RealLanguage(s)
  {
  }

  /** Letters and digits never include whitespace. */
  lemma {:induction false} AlnumIsNotSpace(c: char)
    requires IsAlnum(c)
    ensures !IsSpace(c)
  {
  }

  /** The scan for Alphanumeric accepts exactly the language of its pattern. */
  lemma {:induction false} PaddedAlnumScanMatchesPattern(s: string)
    ensures IsPaddedAlnumText(s) <==> PaddedAlnumLanguage(s)
  {
    if PaddedAlnumLanguage(s) {
      var i, j :| 0 <= i < j <= |s| && AllSpaces(s[..i]) && AllAlnum(s[i..j]) && AllSpaces(s[j..]);
      PaddedAlnumScanComplete(s, i, j);
    }
    if IsPaddedAlnumText(s) {
      var i := LeadingSpaces(s);
      var j := i + AlnumRun(s[i..]);
      assert s[i..j] == s[i..][..j - i];
      assert AllSpaces(s[..i]) && AllAlnum(s[i..j]) && AllSpaces(s[j..]);
    }
  }

  lemma {:induction false} PaddedAlnumScanComplete(s: string, i: nat, j: nat)
    requires i < j <= |s|
    requires AllSpaces(s[..i]) && AllAlnum(s[i..j]) && AllSpaces(s[j..])
    ensures IsPaddedAlnumText(s)
  {
    var pre, rest := s[..i], s[i..];
    assert s == pre + rest;
    AlnumIsNotSpace(s[i]);
    LeadingCount(pre, rest);
    var core, post := s[i..j], s[j..];
    assert rest == core + post;
    if post != [] {
      assert IsSpace(post[0]);
    }
    AlnumRunExact(core, post);
  }

  /** `identify_object_type(obj)`: the tests for Integer, Real Number and
      Alphabetical String look at the stripped token, the test for
      Alphanumeric at the token as given; the value is the stripped token
      whatever the label. */
  function IdentifyObjectType(obj: string): (r: Classification)
    ensures r.value == Strip(obj)
  {
    var stripped := Strip(obj);
    if IsIntegerText(stripped) then Classification(stripped, Integer)
    else if IsRealText(stripped) then Classification(stripped, RealNumber)
    else if IsLettersText(stripped) then Classification(stripped, AlphabeticalString)
    else if IsPaddedAlnumText(obj) then Classification(stripped, Alphanumeric)
    else Classification(stripped, Unknown)
  }

  function CategoryOf(obj: string): Category {
    IdentifyObjectType(obj).category
  }

  predicate HasLetter(s: string) {
    exists i :: 0 <= i < |s| && IsLetter(s[i])
  }

  predicate HasDigit(s: string) {
    exists i :: 0 <= i < |s| && IsDigit(s[i])
  }

  // ---------------------------------------------------------------------
  // What each label means, stated on the stripped value

  /** A stripped value of an optional minus and digits is an Integer, whatever
      whitespace surrounds it in the token: "  12  " is ("12", Integer). */
  lemma {:induction false} IntegerDespitePadding(before: string, t: string, after: string)
    requires AllSpaces(before) && AllSpaces(after)
    requires IsIntegerText(t)
    ensures IdentifyObjectType(before + t + after) == Classification(t, Integer)
  {
    assert !IsSpace(t[0]) && !IsSpace(t[|t| - 1]) by {
      var u := Unsigned(t);
      assert t[|t| - 1] == u[|u| - 1];
    }
    StripUnique(before, t, after);
  }

  /** Integer is returned exactly for stripped values matching `-?\d+`. */
  lemma {:induction false} IntegerExactly(obj: string)
    ensures CategoryOf(obj) == Integer <==> IsIntegerText(Strip(obj))
  {
  }

  /** A real-number text has a point, which an integer text cannot have. */
  lemma {:induction false} RealIsNotInteger(s: string)
    requires IsRealText(s)
    ensures !IsIntegerText(s)
  {
  }

  /** Real Number is returned exactly for stripped values in the language of
      `-?\d+\.\d+`; so "12.", ".5" and "1.2.3" are not real numbers. */
  lemma {:induction false} RealNumberExactly(obj: string)
    ensures CategoryOf(obj) == RealNumber <==> RealLanguage(Strip(obj))
  {
    RealScanMatchesPattern(Strip(obj));
    if IsRealText(Strip(obj)) {
      RealIsNotInteger(Strip(obj));
    }
  }

  /** The Alphanumeric test on the raw token holds exactly when the stripped
      token is a non-empty run of letters and digits. */
  lemma {:induction false} PaddedAlnumIffStrippedAlnum(obj: string)
    ensures IsPaddedAlnumText(obj) <==> Strip(obj) != [] && AllAlnum(Strip(obj))
  {
  }

  lemma {:induction false} PaddedCoreIsStripped(obj: string, i: nat, j: nat)
    requires i < j <= |obj|
    requires AllSpaces(obj[..i]) && AllAlnum(obj[i..j]) && AllSpaces(obj[j..])
    ensures Strip(obj) == obj[i..j]
  {
    var core := obj[i..j];
    AlnumIsNotSpace(core[0]);
    AlnumIsNotSpace(core[|core| - 1]);
    assert obj == obj[..i] + core + obj[j..];
    StripUnique(obj[..i], core, obj[j..]);
  }

  /** Alphabetical String is returned exactly for stripped values of letters
      only; a token of letters padded with spaces is therefore never
      Alphanumeric. */
  lemma {:induction false} AlphabeticalExactly(obj: string)
    ensures CategoryOf(obj) == AlphabeticalString <==> IsLettersText(Strip(obj))
  {
  }

  /** Alphanumeric is returned exactly for stripped values made of letters and
      digits that hold at least one letter and at least one digit. */
  lemma {:induction false} AlphanumericExactly(obj: string)
    ensures CategoryOf(obj) == Alphanumeric <==>
      Strip(obj) != [] && AllAlnum(Strip(obj)) && HasLetter(Strip(obj)) && HasDigit(Strip(obj))
  {
    var v := Strip(obj);
    PaddedAlnumIffStrippedAlnum(obj);
    if v != [] && AllAlnum(v) {
      assert Unsigned(v) == v by { assert !(v[0] == '-'); }
      if !IsIntegerText(v) {
        var i :| 0 <= i < |v| && !IsDigit(v[i]);
        assert IsLetter(v[i]);
      }
      if !IsLettersText(v) {
        var i :| 0 <= i < |v| && !IsLetter(v[i]);
        assert IsDigit(v[i]);
      }
      if HasLetter(v) {
        var i :| 0 <= i < |v| && IsLetter(v[i]);
        assert !IsIntegerText(v) by { assert !IsDigit(v[i]); }
      }
      if HasDigit(v) {
        var i :| 0 <= i < |v| && IsDigit(v[i]);
        assert !IsLettersText(v) by { assert !IsLetter(v[i]); }
      }
    }
  }

  /** How the tests sort a stripped run of letters and digits. */
  function AlnumLabel(v: string): Category {
    if AllDigits(v) then Integer
    else if AllLetters(v) then AlphabeticalString
    else Alphanumeric
  }

  /** A token whose stripped value is a run of letters and digits is an
      Integer when the run is all digits, an Alphabetical String when it is
      all letters, and Alphanumeric only when it mixes the two. */
  lemma {:induction false} AlnumTokenCategory(obj: string)
    requires Strip(obj) != [] && AllAlnum(Strip(obj))
    ensures CategoryOf(obj) == AlnumLabel(Strip(obj))
  {
  }

  /** Unknown is returned exactly when none of the four tests holds: the
      stripped value is neither a number nor a run of letters and digits. */
  lemma {:induction false} UnknownExactly(obj: string)
    ensures CategoryOf(obj) == Unknown <==>
      !IsIntegerText(Strip(obj)) && !RealLanguage(Strip(obj)) && !(Strip(obj) != [] && AllAlnum(Strip(obj)))
  {
    var v := Strip(obj);
    RealScanMatchesPattern(v);
    PaddedAlnumIffStrippedAlnum(obj);
    if IsLettersText(v) {
      assert AllAlnum(v);
    }
  }

  /** A segment of whitespace only is Unknown, with the empty value. */
  lemma {:induction false} WhitespaceIsUnknown(obj: string)
    requires AllSpaces(obj)
    ensures IdentifyObjectType(obj) == Classification("", Unknown)
  {
  }

  // ---------------------------------------------------------------------
  // Examples

  /** "  12  " is shown as "12" and labelled Integer. */
  lemma PaddedIntegerExample()
    ensures IdentifyObjectType("  12  ") == Classification("12", Integer)
  {
    var t := "12";
    assert Unsigned(t) == t;
    assert "  12  " == "  " + t + "  ";
    IntegerDespitePadding("  ", t, "  ");
  }

  /** Digits followed by letters, such as "12a", are Alphanumeric. */
  lemma {:induction false} DigitsThenLettersAlphanumeric(d: string, a: string)
    requires d != [] && AllDigits(d)
    requires a != [] && AllLetters(a)
    ensures IdentifyObjectType(d + a) == Classification(d + a, Alphanumeric)
  {
    var t := d + a;
    assert t[0] == d[0] && t[|t| - 1] == a[|a| - 1];
    Unpadded(t);
    DigitsThenLettersShape(d, a);
    AlnumTokenCategory(t);
  }

  /** Digits followed by letters are a run of letters and digits that is
      neither all digits (the first letter is not one) nor all letters (the
      first digit is not one). */
  lemma {:induction false} DigitsThenLettersShape(d: string, a: string)
    requires d != [] && AllDigits(d)
    requires a != [] && AllLetters(a)
    ensures AllAlnum(d + a) && !AllDigits(d + a) && !AllLetters(d + a)
  {
    var t := d + a;
    forall i | 0 <= i < |t| ensures IsAlnum(t[i]) {
      if i < |d| { assert t[i] == d[i]; } else { assert t[i] == a[i - |d|]; }
    }
    assert t[|d|] == a[0] && t[0] == d[0];
  }

  /** A text that neither starts nor ends with whitespace is its own strip. */
  lemma {:induction false} Unpadded(t: string)
    requires t != [] && !IsSpace(t[0]) && !IsSpace(t[|t| - 1])
    ensures Strip(t) == t
  {
    StripUnique([], t, []);
    assert [] + t + [] == t;
  }

  /** A point needs digits on both sides, and only one point is allowed. */
  lemma MalformedRealExamples(t: string)
    requires t == "1.2.3" || t == "12." || t == ".5"
    ensures !RealLanguage(t)
  {
    assert Unsigned(t) == t;
    forall k | 0 < k < |t| - 1 && t[k] == '.' ensures !(AllDigits(t[..k]) && AllDigits(t[k + 1..])) {
      if k == 1 {
        assert t[k + 1..][1] == '.';
      } else {
        assert t[..k][1] == '.';
      }
    }
  }

  /** `f"Object: {processed_obj}, Type: {obj_type}"` */
  function ResultLine(c: Classification): string {
    "Object: " + c.value + ", Type: " + Label(c.category)
  }

  /** The segments the loop keeps, in order: the non-empty ones. */
  function Retained(objects: seq<string>): (r: seq<string>)
    ensures |r| <= |objects|
  {
    if objects == [] then []
    else
      var last := objects[|objects| - 1];
      Retained(objects[..|objects| - 1]) + (if last == [] then [] else [last])
  }

  /** The `results` list the loop should build: the line of every kept
      segment, in order. */
  function Results(objects: seq<string>): seq<string> {
    var kept := Retained(objects);
    seq(|kept|, i requires 0 <= i < |kept| => ResultLine(IdentifyObjectType(kept[i])))
  }

  /** The label of every kept segment, in order. */
  function Labels(objects: seq<string>): seq<Category> {
    var kept := Retained(objects);
    seq(|kept|, i requires 0 <= i < |kept| => CategoryOf(kept[i]))
  }

  /** A count table holds an entry for each of the five labels. */
  predicate Complete(m: map<Category, nat>) {
    forall c: Category :: c in m
  }

  /** `object_counts` as initialised: every label at zero. */
  const NoCounts: map<Category, nat> :=
    map[Integer := 0, RealNumber := 0, AlphabeticalString := 0, Alphanumeric := 0, Unknown := 0]

  lemma NoCountsComplete()
    ensures Complete(NoCounts)
  {
    forall c: Category ensures c in NoCounts {
      match c
      case Integer =>
      case RealNumber =>
      case AlphabeticalString =>
      case Alphanumeric =>
      case Unknown =>
    }
  }

  /** The count table after `object_counts[obj_type] += 1` for each label of
      `labels` in turn. */
  function Tally(labels: seq<Category>): (m: map<Category, nat>)
    ensures Complete(m)
  {
    if labels == [] then NoCountsComplete(); NoCounts
    else
      var m := Tally(labels[..|labels| - 1]);
      var c := labels[|labels| - 1];
      m[c := m[c] + 1]
  }

  /** The `object_counts` table the loop should build. */
  function Counts(objects: seq<string>): map<Category, nat> {
    Tally(Labels(objects))
  }

  /** The sum of the five entries of a count table. */
  function Total(m: map<Category, nat>): nat
    requires Complete(m)
  {
    m[Integer] + m[RealNumber] + m[AlphabeticalString] + m[Alphanumeric] + m[Unknown]
  }

  /** Only non-empty segments are kept, and every non-empty one is. */
  lemma {:induction false} RetainedExactly(objects: seq<string>)
    ensures forall t :: t in Retained(objects) <==> t in objects && t != []
  {
    if objects != [] {
      RetainedExactly(objects[..|objects| - 1]);
      assert objects == objects[..|objects| - 1] + [objects[|objects| - 1]];
    }
  }

  /** The entry of a label in the table is how often the label occurs. */
  lemma {:induction false} TallyPerLabel(labels: seq<Category>, c: Category)
    ensures Tally(labels)[c] == multiset(labels)[c]
  {
    if labels != [] {
      var init := labels[..|labels| - 1];
      TallyPerLabel(init, c);
      assert labels == init + [labels[|labels| - 1]];
    }
  }

  /** Each label adds exactly one to exactly one entry. */
  lemma {:induction false} TallyTotal(labels: seq<Category>)
    ensures Total(Tally(labels)) == |labels|
  {
    if labels != [] {
      var m := Tally(labels[..|labels| - 1]);
      TallyTotal(labels[..|labels| - 1]);
      match labels[|labels| - 1]
      case Integer => assert Total(Tally(labels)) == Total(m) + 1;
      case RealNumber => assert Total(Tally(labels)) == Total(m) + 1;
      case AlphabeticalString => assert Total(Tally(labels)) == Total(m) + 1;
      case Alphanumeric => assert Total(Tally(labels)) == Total(m) + 1;
      case Unknown => assert Total(Tally(labels)) == Total(m) + 1;
    } else {
      assert Tally(labels) == NoCounts;
    }
  }

  /** Every entry of the table counts the kept segments with that label. */
  lemma {:induction false} CountsPerLabel(objects: seq<string>, c: Category)
    ensures Counts(objects)[c] == multiset(Labels(objects))[c]
    ensures |Labels(objects)| == |Retained(objects)|
  {
    TallyPerLabel(Labels(objects), c);
  }

  /** The counts add up to the number of non-empty segments. */
  lemma {:induction false} CountsTotal(objects: seq<string>)
    ensures Total(Counts(objects)) == |Retained(objects)|
  {
    TallyTotal(Labels(objects));
  }

  /** One more segment: the line and the label of a non-empty one are
      appended, an empty one changes nothing. */
  lemma {:induction false} ProcessOne(objects: seq<string>, obj: string)
    ensures obj == [] ==> Results(objects + [obj]) == Results(objects) && Counts(objects + [obj]) == Counts(objects)
    ensures obj != [] ==> Results(objects + [obj]) == Results(objects) + [ResultLine(IdentifyObjectType(obj))]
    ensures obj != [] ==> Labels(objects + [obj]) == Labels(objects) + [CategoryOf(obj)]
  {
    var kept := Retained(objects);
    assert (objects + [obj])[..|objects|] == objects;
    if obj == [] {
      assert Retained(objects + [obj]) == kept;
    } else {
      assert Retained(objects + [obj]) == kept + [obj];
    }
  }

  /** The loop of `process_file` over the segments: one result line per
      non-empty segment, in input order, and the count of every label. */
  method ProcessObjects(objects: seq<string>) returns (results: seq<string>, counts: map<Category, nat>)
    ensures results == Results(objects)
    ensures counts == Counts(objects)
  {
    results := [];
    counts := NoCounts;
    for i := 0 to |objects|
      invariant results == Results(objects[..i])
      invariant counts == Counts(objects[..i])
    {
      var obj := objects[i];
      assert objects[..i + 1] == objects[..i] + [obj];
      ProcessOne(objects[..i], obj);
      if obj == [] {
        continue;
      }
      var c := IdentifyObjectType(obj);
      results := results + [ResultLine(c)];
      counts := counts[c.category := counts[c.category] + 1];
    }
    assert objects[..|objects|] == objects;
  }

  /** `process_file` without its I/O: split the content at commas and run
      the loop over the pieces. */
  method ProcessContent(content: string) returns (results: seq<string>, counts: map<Category, nat>)
    ensures results == Results(Split(content))
    ensures counts == Counts(Split(content))
  {
    results, counts := ProcessObjects(Split(content));
  }
}
