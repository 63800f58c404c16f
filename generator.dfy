/** The random-object generator of `src/generator.py`: three token builders
    and the buffered loop of `generate_file` that joins tokens with commas
    until the target size is reached. Every random draw is an argument: a
    builder receives the numbers `random.randint` and `random.choice` would
    have returned, and the loop receives the whole stream of draws. */
module Generator {
  import opened Chars
  import opened Strings

  // ---------------------------------------------------------------------
  // Alphabetical strings

  /** The position of a letter in `string.ascii_letters`. */
  function LetterIndex(c: char): (k: nat)
    requires IsLetter(c)
    ensures k < 52 && AsciiLetters()[k] == c
  {
    if 'a' <= c <= 'z' then c as int - 'a' as int else 26 + (c as int - 'A' as int)
  }

  /** `generate_alphabetical_string(min_length, max_length)`: `length` is the
      value of `randint(min_length, max_length)`, `picks` the positions in
      `string.ascii_letters` chosen by `random.choice`, one per character. */
  function GenerateAlphabeticalString(minLength: int, maxLength: int, length: int, picks: seq<nat>): (r: string)
    requires minLength <= length <= maxLength
    requires |picks| == length
    requires forall i :: 0 <= i < |picks| ==> picks[i] < 52
    ensures minLength <= |r| <= maxLength
    ensures AllLetters(r)
  {
    var r := seq(length, i requires 0 <= i < length => AsciiLetters()[picks[i]]);
    forall i | 0 <= i < length ensures IsLetter(r[i]) {
      assert r[i] == AsciiLetters()[picks[i]] == NthLetter(picks[i]);
    }
    r
  }

  /** The choices that spell `s`. */
  function LetterPicks(s: string): (picks: seq<nat>)
    requires AllLetters(s)
    ensures |picks| == |s|
    ensures forall i :: 0 <= i < |picks| ==> picks[i] < 52
  {
    seq(|s|, i requires 0 <= i < |s| => LetterIndex(s[i]))
  }

  /** Every string of letters whose length lies in the range can be
      generated, so together with the contract above the builder produces
      exactly the letter strings of an allowed length. */
  lemma {:induction false} AlphabeticalStringsReachable(minLength: int, maxLength: int, s: string)
    requires AllLetters(s) && minLength <= |s| <= maxLength
    ensures GenerateAlphabeticalString(minLength, maxLength, |s|, LetterPicks(s)) == s
  {
  }

  // ---------------------------------------------------------------------
  // Integers

  function DigitChar(d: nat): (c: char)
    requires d < 10
    ensures IsDigit(c)
  {
    ('0' as int + d) as char
  }

  function DigitValue(c: char): (d: nat)
    requires IsDigit(c)
    ensures d < 10 && DigitChar(d) == c
  {
    c as int - '0' as int
  }

  /** `str(n)` for a non-negative `n`: its decimal digits, without leading
      zeros. */
  function NatToDecimal(n: nat): (s: string)
    ensures |s| >= 1 && AllDigits(s)
    ensures |s| > 1 ==> s[0] != '0'
  {
    if n < 10 then [DigitChar(n)] else NatToDecimal(n / 10) + [DigitChar(n % 10)]
  }

  /** `str(n)`: a minus sign for a negative `n`, then the digits of `|n|`. */
  function IntToDecimal(n: int): string {
    if n < 0 then "-" + NatToDecimal(-n) else NatToDecimal(n)
  }

  /** `int(s)` on a run of decimal digits. */
  function DecimalValue(s: string): nat
    requires AllDigits(s)
  {
    if s == [] then 0 else DecimalValue(s[..|s| - 1]) * 10 + DigitValue(s[|s| - 1])
  }

  /** Reading back the digits of `n` gives `n`. */
  lemma {:induction false} DecimalRoundTrip(n: nat)
    ensures DecimalValue(NatToDecimal(n)) == n
  {
    if n >= 10 {
      var s := NatToDecimal(n);
      DecimalRoundTrip(n / 10);
      assert s[..|s| - 1] == NatToDecimal(n / 10);
    }
  }

  /** A run of digits without a leading zero is exactly how its value is
      written, so `str` and `int` are inverse on such runs. */
  lemma {:induction false} DecimalCanonical(s: string)
    requires |s| >= 1 && AllDigits(s)
    requires |s| > 1 ==> s[0] != '0'
    ensures NatToDecimal(DecimalValue(s)) == s
  {
    if |s| > 1 {
      var init := s[..|s| - 1];
      assert init[0] == s[0];
      DecimalCanonical(init);
      DecimalAtLeastTen(s);
      var n := DecimalValue(s);
      assert n / 10 == DecimalValue(init) && n % 10 == DigitValue(s[|s| - 1]);
    }
  }

  lemma {:induction false} DecimalAtLeastTen(s: string)
    requires |s| > 1 && AllDigits(s) && s[0] != '0'
    ensures DecimalValue(s) >= 10
  {
    var init := s[..|s| - 1];
    if |init| > 1 {
      assert init[0] == s[0];
      DecimalAtLeastTen(init);
    } else {
      assert DecimalValue(init) == DigitValue(s[0]) >= 1;
    }
  }

  /** `10^k`. */
  function Pow10(k: nat): (p: nat)
    ensures p >= 1
  {
    if k == 0 then 1 else 10 * Pow10(k - 1)
  }

  /** A number below `10^k` takes at most `k` digits (and always one). */
  lemma {:induction false} DecimalLength(n: nat, k: nat)
    requires n < Pow10(k)
    ensures |NatToDecimal(n)| <= if k == 0 then 1 else k
  {
    if n >= 10 {
      DecimalLength(n / 10, k - 1);
    }
  }

  /** `generate_integer()`: `value` is the draw of `randint(-10000, 10000)`.
      The text is `str(value)`: an optional minus and at most five digits
      without a leading zero, which `int` reads back as `value`. */
  function GenerateInteger(value: int): (r: string)
    requires -10000 <= value <= 10000
    ensures 1 <= |r| <= 6
    ensures value < 0 <==> r[0] == '-'
    ensures |Unsigned(r)| >= 1 && AllDigits(Unsigned(r))
    ensures |Unsigned(r)| > 1 ==> Unsigned(r)[0] != '0'
    ensures DecimalValue(Unsigned(r)) == if value < 0 then -value else value
  {
    var m := if value < 0 then -value else value;
    DecimalLength(m, 5);
    DecimalRoundTrip(m);
    var r := IntToDecimal(value);
    assert Unsigned(r) == NatToDecimal(m);
    r
  }

  /** Every text `str` can give for a draw: an optional minus and a run of
      digits without a leading zero, worth at most 10000, with no minus before
      zero. It is `generate_integer()` of its own value, so together with the
      contract above the builder produces exactly these texts. */
  lemma {:induction false} IntegerReachable(s: string)
    requires |Unsigned(s)| >= 1 && AllDigits(Unsigned(s))
    requires |Unsigned(s)| > 1 ==> Unsigned(s)[0] != '0'
    requires DecimalValue(Unsigned(s)) <= 10000
    requires s[0] == '-' ==> DecimalValue(Unsigned(s)) > 0
    ensures var m: int := DecimalValue(Unsigned(s));
      GenerateInteger(if s[0] == '-' then -m else m) == s
  {
    var u := Unsigned(s);
    DecimalCanonical(u);
    if s[0] == '-' {
      assert s == "-" + u;
    }
  }

  // ---------------------------------------------------------------------
  // Alphanumeric strings with spaces

  /** The position of a letter or digit in `ascii_letters + digits`. */
  function AlnumIndex(c: char): (k: nat)
    requires IsAlnum(c)
    ensures k < 62 && AsciiLettersAndDigits()[k] == c
  {
    if IsLetter(c) then LetterIndex(c) else 52 + DigitValue(c)
  }

  /** `' ' * n`. */
  function Spaces(n: nat): (s: string)
    ensures |s| == n && forall i :: 0 <= i < n ==> s[i] == ' '
    ensures AllSpaces(s)
  {
    seq(n, _ => ' ')
  }

  /** The part of `generate_alphanumeric_with_spaces` between the spaces. */
  function AlphanumericCore(length: int, picks: seq<nat>): (r: string)
    requires |picks| == length
    requires forall i :: 0 <= i < |picks| ==> picks[i] < 62
    ensures |r| == length && AllAlnum(r)
  {
    var r := seq(length, i requires 0 <= i < length => AsciiLettersAndDigits()[picks[i]]);
    forall i | 0 <= i < length ensures IsAlnum(r[i]) {
      LettersAndDigitsAlphabet(picks[i]);
    }
    r
  }

  /** `generate_alphanumeric_with_spaces(min_length, max_length)`: `length`
      is the draw of `randint(min_length, max_length)`, `picks` the positions
      chosen in `ascii_letters + digits`, and `before` and `after` the two
      draws of `randint(0, 10)`. */
  function GenerateAlphanumericWithSpaces(minLength: int, maxLength: int, length: int, picks: seq<nat>,
                                          before: int, after: int): (r: string)
    requires minLength <= length <= maxLength
    requires |picks| == length
    requires forall i :: 0 <= i < |picks| ==> picks[i] < 62
    requires 0 <= before <= 10 && 0 <= after <= 10
    ensures |r| == before + length + after
    ensures r[..before] == Spaces(before) && r[before + length..] == Spaces(after)
    ensures r[before..before + length] == AlphanumericCore(length, picks)
    ensures AllSpaces(r[..before]) && AllSpaces(r[before + length..])
    ensures AllAlnum(r[before..before + length])
  {
    var r := Spaces(before) + AlphanumericCore(length, picks) + Spaces(after);
    assert r[..before] == Spaces(before);
    assert r[before..before + length] == AlphanumericCore(length, picks);
    assert r[before + length..] == Spaces(after);
    r
  }

  /** The choices that spell `s`. */
  function AlnumPicks(s: string): (picks: seq<nat>)
    requires AllAlnum(s)
    ensures |picks| == |s|
    ensures forall i :: 0 <= i < |picks| ==> picks[i] < 62
  {
    seq(|s|, i requires 0 <= i < |s| => AlnumIndex(s[i]))
  }

  /** Every run of letters and digits of an allowed length, with up to ten
      spaces on either side, can be generated. */
  lemma {:induction false} AlphanumericReachable(minLength: int, maxLength: int, s: string, before: nat, after: nat)
    requires AllAlnum(s) && minLength <= |s| <= maxLength
    requires before <= 10 && after <= 10
    ensures GenerateAlphanumericWithSpaces(minLength, maxLength, |s|, AlnumPicks(s), before, after)
      == Spaces(before) + s + Spaces(after)
  {
  }

  // ---------------------------------------------------------------------
  // One object

  /** The draws behind one object: the branch `randint(1, 4)` chose and the
      draws of its builder. A real number arrives already formatted, since
      `generate_real_number` is not part of this model. */
  datatype Draw =
    | AlphabeticalDraw(length: int, picks: seq<nat>)
    | RealDraw(text: string)
    | IntegerDraw(value: int)
    | AlphanumericDraw(length: int, picks: seq<nat>, before: int, after: int)

  /** `f"{x:.6f}"` for an `x` of `uniform(-10000, 10000)`: an optional minus,
      one to five digits, a point and six digits. */
  predicate RealShape(text: string) {
    var u := Unsigned(text);
    8 <= |u| <= 12 && u[|u| - 7] == '.' && AllDigits(u[..|u| - 7]) && AllDigits(u[|u| - 6..])
  }

  /** What the random module can return for each branch, with the builders'
      default bounds `min_length=1, max_length=20`. */
  predicate ValidDraw(d: Draw) {
    match d
    case AlphabeticalDraw(length, picks) =>
      1 <= length <= 20 && |picks| == length && forall i :: 0 <= i < |picks| ==> picks[i] < 52
    case RealDraw(text) => RealShape(text)
    case IntegerDraw(value) => -10000 <= value <= 10000
    case AlphanumericDraw(length, picks, before, after) =>
      && 1 <= length <= 20 && |picks| == length
      && (forall i :: 0 <= i < |picks| ==> picks[i] < 62)
      && 0 <= before <= 10 && 0 <= after <= 10
  }

  /** The longest object any branch can build: ten spaces, twenty letters or
      digits and ten spaces. */
  const MaxObjectLength := 40

  /** The `obj` one iteration of `generate_file` builds. */
  function Token(d: Draw): (obj: string)
    requires ValidDraw(d)
  {
    match d
    case AlphabeticalDraw(length, picks) => GenerateAlphabeticalString(1, 20, length, picks)
    case RealDraw(text) => text
    case IntegerDraw(value) => GenerateInteger(value)
    case AlphanumericDraw(length, picks, before, after) =>
      GenerateAlphanumericWithSpaces(1, 20, length, picks, before, after)
  }

  /** What every branch of the loop returns: a non-empty text without the
      separator, in ASCII, and at most `MaxObjectLength` long. */
  predicate IsObject(obj: string) {
    1 <= |obj| <= MaxObjectLength && ',' !in obj && AllAscii(obj)
  }

  /** Every draw the random module can return builds an object. */
  lemma {:induction false} TokenShape(d: Draw)
    requires ValidDraw(d)
    ensures IsObject(Token(d))
  {
    var obj := Token(d);
    match d
    case AlphabeticalDraw(length, picks) =>
      assert forall i :: 0 <= i < |obj| ==> IsLetter(obj[i]);
    case RealDraw(text) =>
      RealChars(text);
    case IntegerDraw(value) =>
      IntegerChars(value);
    case AlphanumericDraw(length, picks, before, after) =>
      AlphanumericChars(length, picks, before, after);
    ObjectOfSafeChars(obj);
  }

  /** Letters, digits, whitespace, the minus sign and the point: the
      characters the builders use. None of them is a comma or outside ASCII. */
  predicate IsSafeChar(c: char) {
    IsAlnum(c) || IsSpace(c) || c == '-' || c == '.'
  }

  lemma {:induction false} ObjectOfSafeChars(obj: string)
    requires 1 <= |obj| <= MaxObjectLength
    requires forall i :: 0 <= i < |obj| ==> IsSafeChar(obj[i])
    ensures IsObject(obj)
  {
  }

  lemma {:induction false} RealChars(text: string)
    requires RealShape(text)
    ensures forall i :: 0 <= i < |text| ==> IsSafeChar(text[i])
  {
  }

  lemma {:induction false} IntegerChars(value: int)
    requires -10000 <= value <= 10000
    ensures forall i :: 0 <= i < |GenerateInteger(value)| ==> IsSafeChar(GenerateInteger(value)[i])
  {
  }

  lemma {:induction false} AlphanumericChars(length: int, picks: seq<nat>, before: int, after: int)
    requires 1 <= length <= 20 && |picks| == length
    requires forall i :: 0 <= i < |picks| ==> picks[i] < 62
    requires 0 <= before <= 10 && 0 <= after <= 10
    ensures var obj := GenerateAlphanumericWithSpaces(1, 20, length, picks, before, after);
      forall i :: 0 <= i < |obj| ==> IsSafeChar(obj[i])
  {
  }

  // ---------------------------------------------------------------------
  // The file

  /** `buffer_size`: 1 MB. */
  const BufferSize := 1024 * 1024

  /** The first `n` objects of the stream. */
  function Prefix(objects: nat -> string, n: nat): (objs: seq<string>)
    requires forall i :: IsObject(objects(i))
    ensures |objs| == n
  {
    seq(n, i requires 0 <= i < n => objects(i))
  }

  /** The text of the file after `n` objects: the objects joined with commas. */
  function Content(objects: nat -> string, n: nat): string
    requires forall i :: IsObject(objects(i))
  {
    Join(Prefix(objects, n))
  }

  /** The chunks passed to `f.write`, one after the other. */
  function Concat(chunks: seq<string>): string {
    if chunks == [] then "" else Concat(chunks[..|chunks| - 1]) + chunks[|chunks| - 1]
  }

  lemma {:induction false} ConcatSnoc(chunks: seq<string>, c: string)
    ensures Concat(chunks + [c]) == Concat(chunks) + c
  {
  }

  /** One more object: a comma (unless it is the first) and the object are
      appended to the text. */
  lemma {:induction false} ContentStep(objects: nat -> string, n: nat)
    requires forall i :: IsObject(objects(i))
    ensures Content(objects, n + 1) == (if n == 0 then "" else Content(objects, n) + ",") + objects(n)
  {
    var xs := Prefix(objects, n);
    assert Prefix(objects, n + 1) == xs + [objects(n)];
    if n == 0 {
      assert Content(objects, 1) == objects(0);
    } else {
      JoinSnoc(xs, objects(n));
    }
  }

  /** The text is ASCII, so its UTF-8 size is its length. */
  lemma {:induction false} ContentAscii(objects: nat -> string, n: nat)
    requires forall i :: IsObject(objects(i))
    ensures AllAscii(Content(objects, n))
  {
    var xs := Prefix(objects, n);
    assert forall i :: 0 <= i < n ==> xs[i] == objects(i);
    JoinAscii(xs);
  }

  lemma {:induction false} JoinAscii(xs: seq<string>)
    requires forall i :: 0 <= i < |xs| ==> AllAscii(xs[i])
    ensures AllAscii(Join(xs))
  {
    if |xs| > 1 {
      JoinAscii(xs[1..]);
      var head, rest := xs[0] + ",", Join(xs[1..]);
      assert AllAscii(head) by {
        forall i | 0 <= i < |head| ensures IsAscii(head[i]) {
          if i < |xs[0]| { assert head[i] == xs[0][i]; }
        }
      }
      forall i | 0 <= i < |head + rest| ensures IsAscii((head + rest)[i]) {
        if i < |head| { assert (head + rest)[i] == head[i]; } else { assert (head + rest)[i] == rest[i - |head|]; }
      }
    }
  }

  /** Python's `while current_size < target_size_bytes` loop, stated as a
      property of a count of objects: every shorter prefix of the stream was
      still below the target. */
  predicate BelowTargetBefore(objects: nat -> string, n: nat, target: int)
    requires forall i :: IsObject(objects(i))
  {
    forall m :: 0 <= m < n ==> |Content(objects, m)| < target
  }

  /** Every object makes the text longer. */
  lemma {:induction false} ContentGrows(objects: nat -> string, m: nat, n: nat)
    requires forall i :: IsObject(objects(i))
    requires m < n
    ensures |Content(objects, m)| < |Content(objects, n)|
  {
    ContentStep(objects, n - 1);
    if m < n - 1 {
      ContentGrows(objects, m, n - 1);
    }
  }

  /** Since the text only grows, the count before the last was below the
      target exactly when every smaller count was. */
  lemma {:induction false} FirstToReach(objects: nat -> string, n: nat, target: int)
    requires forall i :: IsObject(objects(i))
    requires n > 0 ==> |Content(objects, n - 1)| < target
    ensures BelowTargetBefore(objects, n, target)
  {
    forall m | 0 <= m < n ensures |Content(objects, m)| < target {
      if m < n - 1 {
        ContentGrows(objects, m, n - 1);
      }
    }
  }

  /** What the loop's exit establishes about the text of the file: its
      UTF-8 size is its length, it is the first text to reach the target, it
      overshoots the target by less than one comma and one object, and a
      target of zero bytes or less produces no object at all. */
  lemma {:induction false} LoopExit(objects: nat -> string, n: nat, target: int)
    requires forall i :: IsObject(objects(i))
    requires |Content(objects, n)| >= target
    requires n > 0 ==> |Content(objects, n - 1)| < target
    ensures Utf8Length(Content(objects, n)) == |Content(objects, n)|
    ensures BelowTargetBefore(objects, n, target)
    ensures n > 0 ==> |Content(objects, n)| < target + 1 + |objects(n - 1)|
    ensures target <= 0 ==> n == 0
  {
    ContentAscii(objects, n);
    Utf8LengthAscii(Content(objects, n));
    FirstToReach(objects, n, target);
    if n > 0 {
      ContentStep(objects, n - 1);
    }
  }

  /** One iteration's append: after a comma (unless it is the first object)
      and the object are added to the buffer, what was written plus the
      buffer is the text of one more object. */
  lemma {:induction false} AppendObject(objects: nat -> string, n: nat, written: string, buffer: string)
    requires forall i :: IsObject(objects(i))
    requires written + buffer == Content(objects, n)
    requires n == 0 ==> written == [] && buffer == []
    ensures n > 0 ==> written + (buffer + "," + objects(n)) == Content(objects, n + 1)
    ensures n == 0 ==> written + (buffer + objects(n)) == Content(objects, n + 1)
  {
    ContentStep(objects, n);
    if n > 0 {
      assert written + (buffer + "," + objects(n)) == (written + buffer) + "," + objects(n);
    } else {
      assert written + (buffer + objects(n)) == objects(n);
    }
  }

  /** A flush moves the whole buffer into the chunks: the text written so far
      plus the buffer is unchanged, and the new chunk is the size of a full
      buffer. */
  lemma {:induction false} Flush(chunks: seq<string>, buffer: string, text: string)
    requires Concat(chunks) + buffer == text
    requires forall k :: 0 <= k < |chunks| ==> BufferSize <= |chunks[k]| < BufferSize + 1 + MaxObjectLength
    requires BufferSize <= |buffer| < BufferSize + 1 + MaxObjectLength
    ensures Concat(chunks + [buffer]) + "" == text
    ensures forall k :: 0 <= k < |chunks + [buffer]| ==>
      BufferSize <= |(chunks + [buffer])[k]| < BufferSize + 1 + MaxObjectLength
  {
    ConcatSnoc(chunks, buffer);
    assert Concat(chunks + [buffer]) + "" == Concat(chunks + [buffer]);
    forall k | 0 <= k < |chunks + [buffer]|
      ensures BufferSize <= |(chunks + [buffer])[k]| < BufferSize + 1 + MaxObjectLength
    {
      if k < |chunks| {
        assert (chunks + [buffer])[k] == chunks[k];
      }
    }
  }

  /** `generate_file` without its timing and printing. `objects(n)` is the
      object the loop builds on its `n`-th iteration (`Token` of that
      iteration's draws); `chunks` are the strings passed to `f.write`, in
      order.
      The loop stops at the first object count whose text reaches the
      target; its size counter is the UTF-8 size of what was written; every
      flush but the last happens because the buffer reached 1 MB, and the
      buffer never grows past 1 MB by more than a comma and one object. */
  method GenerateFile(targetSizeMb: int, objects: nat -> string)
    returns (chunks: seq<string>, objectsGenerated: nat, currentSize: int)
    requires forall i :: IsObject(objects(i))
    ensures Concat(chunks) == Content(objects, objectsGenerated)
    ensures currentSize == Utf8Length(Concat(chunks)) == |Concat(chunks)|
    ensures currentSize >= targetSizeMb * 1024 * 1024
    ensures BelowTargetBefore(objects, objectsGenerated, targetSizeMb * 1024 * 1024)
    ensures objectsGenerated > 0 ==>
      currentSize < targetSizeMb * 1024 * 1024 + 1 + |objects(objectsGenerated - 1)|
    ensures targetSizeMb <= 0 ==> objectsGenerated == 0 && chunks == []
    ensures forall k :: 0 <= k < |chunks| ==> chunks[k] != []
    ensures forall k :: 0 <= k < |chunks| - 1 ==> BufferSize <= |chunks[k]| < BufferSize + 1 + MaxObjectLength
  {
    var targetSizeBytes := targetSizeMb * 1024 * 1024;
    var bufferSize := BufferSize;
    currentSize := 0;
    objectsGenerated := 0;
    var buffer := "";
    chunks := [];
    while currentSize < targetSizeBytes
      invariant Concat(chunks) + buffer == Content(objects, objectsGenerated)
      invariant currentSize == |Concat(chunks)| + |buffer|
      invariant objectsGenerated > 0 ==> |Content(objects, objectsGenerated - 1)| < targetSizeBytes
      invariant |buffer| < bufferSize
      invariant objectsGenerated == 0 ==> chunks == [] && buffer == []
      invariant forall k :: 0 <= k < |chunks| ==> BufferSize <= |chunks[k]| < BufferSize + 1 + MaxObjectLength
      decreases targetSizeBytes - currentSize
    {
      var obj := objects(objectsGenerated);
      AppendObject(objects, objectsGenerated, Concat(chunks), buffer);
      if objectsGenerated > 0 {
        buffer := buffer + ",";
        currentSize := currentSize + 1;
      }
      buffer := buffer + obj;
      Utf8LengthAscii(obj);
      currentSize := currentSize + Utf8Length(obj);
      objectsGenerated := objectsGenerated + 1;
      if |buffer| >= bufferSize {
        Flush(chunks, buffer, Content(objects, objectsGenerated));
        chunks := chunks + [buffer];
        buffer := "";
      }
    }
    if buffer != [] {
      ConcatSnoc(chunks, buffer);
      chunks := chunks + [buffer];
    } else {
      assert Concat(chunks) + buffer == Concat(chunks);
    }
    LoopExit(objects, objectsGenerated, targetSizeBytes);
  }
}
