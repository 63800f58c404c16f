/** The two programs together: what `process_file` reports for a file that
    `generate_file` wrote. */
module Pipeline {
  import opened Chars
  import opened Strings
  import opened Processor
  import opened Generator

  /** Every draw the random module can return builds an object. */
  lemma {:induction false} TokensAreObjects(draws: nat -> Draw)
    requires forall i :: ValidDraw(draws(i))
    ensures forall i :: IsObject(Token(draws(i)))
  {
    forall i ensures IsObject(Token(draws(i))) {
      TokenShape(draws(i));
    }
  }

  /** The objects the generator's loop builds from a stream of draws. */
  function ObjectStream(draws: nat -> Draw): (objects: nat -> string)
    requires forall i :: ValidDraw(draws(i))
    ensures forall i :: objects(i) == Token(draws(i)) && IsObject(objects(i))
  {
    TokensAreObjects(draws);
    (i: nat) => Token(draws(i))
  }

  /** What the classifier reports for the object built from `d`: letters are
      an Alphabetical String, a formatted real a Real Number, `str` of an
      integer an Integer; an alphanumeric object is reported without its
      spaces, and under the label its core earns — Alphanumeric only when it
      mixes letters and digits. */
  function ExpectedClassification(d: Draw): Classification
    requires ValidDraw(d)
  {
    match d
    case AlphabeticalDraw(_, _) => Classification(Token(d), AlphabeticalString)
    case RealDraw(text) => Classification(text, RealNumber)
    case IntegerDraw(_) => Classification(Token(d), Integer)
    case AlphanumericDraw(length, picks, _, _) =>
      var core := AlphanumericCore(length, picks);
      Classification(core, AlnumLabel(core))
  }

  /** Every generated object is classified as `ExpectedClassification` says. */
  lemma {:induction false} GeneratedObjectClassified(d: Draw)
    requires ValidDraw(d)
    ensures IdentifyObjectType(Token(d)) == ExpectedClassification(d)
  {
    match d
    case AlphabeticalDraw(length, picks) =>
      LettersClassified(Token(d));
    case RealDraw(text) =>
      RealClassified(text);
    case IntegerDraw(value) =>
      IntegerClassified(value);
    case AlphanumericDraw(length, picks, before, after) =>
      AlphanumericClassified(length, picks, before, after);
  }

  lemma {:induction false} LettersClassified(s: string)
    requires s != [] && AllLetters(s)
    ensures IdentifyObjectType(s) == Classification(s, AlphabeticalString)
  {
  }

  lemma {:induction false} IntegerClassified(value: int)
    requires -10000 <= value <= 10000
    ensures IdentifyObjectType(GenerateInteger(value)) == Classification(GenerateInteger(value), Integer)
  {
    var s := GenerateInteger(value);
    IntegerDespitePadding([], s, []);
    assert [] + s + [] == s;
  }

  /** A formatted real starts with a minus or a digit, ends with a digit, and
      is in the language of `-?\d+\.\d+`. */
  lemma {:induction false} RealShapeIsRealText(text: string)
    requires RealShape(text)
    ensures text != [] && !IsSpace(text[0]) && !IsSpace(text[|text| - 1])
    ensures RealLanguage(text)
  {
  }

  lemma {:induction false} RealClassified(text: string)
    requires RealShape(text)
    ensures IdentifyObjectType(text) == Classification(text, RealNumber)
  {
    RealShapeIsRealText(text);
    Unpadded(text);
    RealNumberExactly(text);
  }

  lemma {:induction false} AlphanumericClassified(length: int, picks: seq<nat>, before: int, after: int)
    requires ValidDraw(AlphanumericDraw(length, picks, before, after))
    ensures IdentifyObjectType(Token(AlphanumericDraw(length, picks, before, after)))
      == ExpectedClassification(AlphanumericDraw(length, picks, before, after))
  {
    var obj := GenerateAlphanumericWithSpaces(1, 20, length, picks, before, after);
    var core := AlphanumericCore(length, picks);
    assert obj[before..before + length] == core;
    CoreIsStripped(obj, core, before, length);
    AlnumTokenCategory(obj);
  }

  /** The spaces `generate_alphanumeric_with_spaces` adds are exactly what
      `strip` removes. */
  lemma {:induction false} CoreIsStripped(obj: string, core: string, before: int, length: int)
    requires 0 <= before && 1 <= length && before + length <= |obj|
    requires core == obj[before..before + length]
    requires AllSpaces(obj[..before]) && AllSpaces(obj[before + length..]) && AllAlnum(core)
    ensures Strip(obj) == core
  {
    var pre, post := obj[..before], obj[before + length..];
    assert obj == pre + (core + post);
    ConcatAssoc(pre, core, post);
    AlnumIsNotSpace(core[0]);
    AlnumIsNotSpace(core[|core| - 1]);
    StripUnique(pre, core, post);
  }

  /** `generate_alphanumeric_with_spaces` can pick letters only, and the
      object is then reported as an Alphabetical String, not Alphanumeric. */
  lemma {:induction false} AlphanumericDrawOfLetters(length: int, picks: seq<nat>, before: int, after: int)
    requires ValidDraw(AlphanumericDraw(length, picks, before, after))
    requires forall i :: 0 <= i < |picks| ==> picks[i] < 52
    ensures CategoryOf(Token(AlphanumericDraw(length, picks, before, after))) == AlphabeticalString
  {
    var core := AlphanumericCore(length, picks);
    forall i | 0 <= i < length ensures IsLetter(core[i]) {
      assert core[i] == AsciiLettersAndDigits()[picks[i]];
    }
    assert !IsDigit(core[0]);
    assert AlnumLabel(core) == AlphabeticalString;
    AlphanumericClassified(length, picks, before, after);
  }

  /** It can pick digits only, and the object is then an Integer. */
  lemma {:induction false} AlphanumericDrawOfDigits(length: int, picks: seq<nat>, before: int, after: int)
    requires ValidDraw(AlphanumericDraw(length, picks, before, after))
    requires forall i :: 0 <= i < |picks| ==> 52 <= picks[i]
    ensures CategoryOf(Token(AlphanumericDraw(length, picks, before, after))) == Integer
  {
    var core := AlphanumericCore(length, picks);
    forall i | 0 <= i < length ensures IsDigit(core[i]) {
      assert core[i] == AsciiLettersAndDigits()[picks[i]];
    }
    assert AlnumLabel(core) == Integer;
    AlphanumericClassified(length, picks, before, after);
  }

  /** Every object is non-empty, so the classifier keeps all of them. */
  lemma {:induction false} RetainedAll(xs: seq<string>)
    requires forall i :: 0 <= i < |xs| ==> xs[i] != []
    ensures Retained(xs) == xs
  {
    if xs != [] {
      RetainedAll(xs[..|xs| - 1]);
      assert xs == xs[..|xs| - 1] + [xs[|xs| - 1]];
    }
  }

  /** Splitting a generated file at its commas gives back its objects. */
  lemma {:induction false} SplitRecoversObjects(objects: nat -> string, n: nat)
    requires forall i :: IsObject(objects(i))
    requires n >= 1
    ensures Split(Content(objects, n)) == Prefix(objects, n)
  {
    var xs := Prefix(objects, n);
    assert forall i :: 0 <= i < |xs| ==> xs[i] == objects(i);
    SplitJoin(xs);
  }

  /** For segments that are all non-empty, the result lines and labels are
      those of the segments themselves, one each, in order. */
  lemma {:induction false} ResultsOfObjects(xs: seq<string>)
    requires forall i :: 0 <= i < |xs| ==> xs[i] != []
    ensures Results(xs) == seq(|xs|, i requires 0 <= i < |xs| => ResultLine(IdentifyObjectType(xs[i])))
    ensures Labels(xs) == seq(|xs|, i requires 0 <= i < |xs| => CategoryOf(xs[i]))
    ensures Total(Counts(xs)) == |xs|
  {
    RetainedAll(xs);
    CountsTotal(xs);
  }

  /** The first `n` objects of the stream, each classified as its draw says. */
  lemma {:induction false} StreamClassified(draws: nat -> Draw, n: nat)
    requires forall i :: ValidDraw(draws(i))
    ensures var xs := Prefix(ObjectStream(draws), n);
      forall i :: 0 <= i < n ==> xs[i] != [] && IdentifyObjectType(xs[i]) == ExpectedClassification(draws(i))
  {
    var xs := Prefix(ObjectStream(draws), n);
    forall i | 0 <= i < n ensures xs[i] != [] && IdentifyObjectType(xs[i]) == ExpectedClassification(draws(i)) {
      assert xs[i] == Token(draws(i));
      GeneratedObjectClassified(draws(i));
    }
  }

  /** The loop of `process_file` over the generated objects themselves. */
  lemma {:induction false} ProcessingGeneratedObjects(draws: nat -> Draw, n: nat)
    requires forall i :: ValidDraw(draws(i))
    ensures var xs := Prefix(ObjectStream(draws), n);
      && |Results(xs)| == |Labels(xs)| == n
      && (forall i :: 0 <= i < n ==> Results(xs)[i] == ResultLine(ExpectedClassification(draws(i))))
      && (forall i :: 0 <= i < n ==> Labels(xs)[i] == ExpectedClassification(draws(i)).category)
      && Total(Counts(xs)) == n
  {
    var xs := Prefix(ObjectStream(draws), n);
    StreamClassified(draws, n);
    ResultsOfObjects(xs);
  }

  /** An empty file splits into one empty segment, which the loop skips:
      no line and no count. */
  lemma EmptyFileProcessed(objects: nat -> string)
    requires forall i :: IsObject(objects(i))
    ensures Split(Content(objects, 0)) == [""]
    ensures Results([""]) == [] && Labels([""]) == [] && Total(Counts([""])) == 0
  {
    assert Prefix(objects, 0) == [];
    assert Retained([""]) == [];
    CountsTotal([""]);
  }

  /** Processing a generated file of `n` objects reports one line per object,
      in order, each with the classification `ExpectedClassification` gives for
      its draw, and counts `n` objects in all; the empty file of a target of
      zero bytes or less reports nothing. */
  lemma {:induction false} ProcessingGeneratedFile(draws: nat -> Draw, n: nat)
    requires forall i :: ValidDraw(draws(i))
    ensures var objects := Split(Content(ObjectStream(draws), n));
      && |Results(objects)| == |Labels(objects)| == n
      && (forall i :: 0 <= i < n ==> Results(objects)[i] == ResultLine(ExpectedClassification(draws(i))))
      && (forall i :: 0 <= i < n ==> Labels(objects)[i] == ExpectedClassification(draws(i)).category)
      && Total(Counts(objects)) == n
  {
    if n == 0 {
      EmptyFileProcessed(ObjectStream(draws));
    } else {
      SplitRecoversObjects(ObjectStream(draws), n);
      ProcessingGeneratedObjects(draws, n);
    }
  }
}
