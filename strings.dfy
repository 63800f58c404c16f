/** The Python string built-ins the two programs rely on: `str.strip()`,
    `str.split(',')` and `','.join(...)`. */
module Strings {
  import opened Chars

  /** The number of whitespace characters at the start of `s`. */
  function LeadingSpaces(s: string): (n: nat)
    ensures n <= |s| && AllSpaces(s[..n])
    ensures n < |s| ==> !IsSpace(s[n])
  {
    if s == [] || !IsSpace(s[0]) then 0 else 1 + LeadingSpaces(s[1..])
  }

  /** The number of whitespace characters at the end of `s`. */
  function TrailingSpaces(s: string): (n: nat)
    ensures n <= |s| && AllSpaces(s[|s| - n..])
    ensures n < |s| ==> !IsSpace(s[|s| - 1 - n])
  {
    if s == [] || !IsSpace(s[|s| - 1]) then 0 else 1 + TrailingSpaces(s[..|s| - 1])
  }

  /** `s.strip()`: `s` without its leading and trailing whitespace. */
  function Strip(s: string): (r: string)
    ensures |r| <= |s|
    ensures r == [] || (!IsSpace(r[0]) && !IsSpace(r[|r| - 1]))
  {
    var rest := s[LeadingSpaces(s)..];
    rest[..|rest| - TrailingSpaces(rest)]
  }

  /** What `Strip` removed is whitespace on both sides. */
  lemma {:induction false} StripDecompose(s: string) returns (before: string, after: string)
    ensures s == before + Strip(s) + after
    ensures AllSpaces(before) && AllSpaces(after)
  {
    var a := LeadingSpaces(s);
    var rest := s[a..];
    var b := TrailingSpaces(rest);
    var mid := rest[..|rest| - b];
    before, after := s[..a], rest[|rest| - b..];
    assert Strip(s) == mid;
    assert rest == mid + after;
    assert s == before + rest;
    ConcatAssoc(before, mid, after);
  }

  lemma ConcatAssoc(x: string, y: string, z: string)
    ensures x + y + z == x + (y + z)
  {
  }

  /** Stripping is determined by its two properties: whatever whitespace
      surrounds a text that neither starts nor ends with whitespace, the strip
      gives back exactly that text. */
  lemma {:induction false} StripUnique(before: string, t: string, after: string)
    requires AllSpaces(before) && AllSpaces(after)
    requires t == [] || (!IsSpace(t[0]) && !IsSpace(t[|t| - 1]))
    ensures Strip(before + t + after) == t
  {
    var s := before + t + after;
    if t == [] {
      assert AllSpaces(s);
      LeadingAll(s);
    } else {
      assert s == before + (t + after);
      LeadingCount(before, t + after);
      var rest := s[|before|..];
      assert rest == t + after;
      TrailingCount(t, after);
    }
  }

  lemma {:induction false} LeadingAll(s: string)
    requires AllSpaces(s)
    ensures LeadingSpaces(s) == |s|
  {
  }

  lemma {:induction false} LeadingCount(before: string, rest: string)
    requires AllSpaces(before)
    requires rest != [] && !IsSpace(rest[0])
    ensures LeadingSpaces(before + rest) == |before|
  {
    if before == [] {
      assert before + rest == rest;
    } else {
      assert (before + rest)[1..] == before[1..] + rest;
      LeadingCount(before[1..], rest);
    }
  }

  lemma {:induction false} TrailingCount(t: string, after: string)
    requires AllSpaces(after)
    requires t == [] || !IsSpace(t[|t| - 1])
    ensures TrailingSpaces(t + after) == |after|
  {
    if after == [] {
      assert t + after == t;
    } else {
      var init := after[..|after| - 1];
      assert (t + after)[..|t + after| - 1] == t + init;
      TrailingCount(t, init);
    }
  }

  /** A second strip changes nothing. */
  lemma {:induction false} StripIdempotent(s: string)
    ensures Strip(Strip(s)) == Strip(s)
  {
  }

  /** `s` without one leading minus sign, if it has one: what `-?` at the
      start of a pattern may consume, and what follows the sign `str` puts
      before a negative number. */
  function Unsigned(s: string): (u: string)
    ensures |u| <= |s|
  {
    if |s| > 0 && s[0] == '-' then s[1..] else s
  }

  /** `','.join(xs)`. */
  function Join(xs: seq<string>): string {
    if |xs| == 0 then ""
    else if |xs| == 1 then xs[0]
    else xs[0] + "," + Join(xs[1..])
  }

  /** `s.split(',')`: the pieces between commas, empty ones included. */
  function Split(s: string): (r: seq<string>)
    ensures |r| >= 1
    ensures forall i :: 0 <= i < |r| ==> ',' !in r[i]
    ensures Join(r) == s
  {
    if s == [] then [""]
    else
      var rest := Split(s[1..]);
      if s[0] == ',' then
        assert Join([""] + rest) == "," + Join(rest);
        [""] + rest
      else
        var r := [[s[0]] + rest[0]] + rest[1..];
        assert r[1..] == rest[1..];
        assert s == [s[0]] + s[1..];
        r
  }

  /** Text without a comma comes back from `split` as one piece. */
  lemma {:induction false} SplitFront(a: string, t: string)
    requires ',' !in a
    ensures Split(a + t) == [a + Split(t)[0]] + Split(t)[1..]
  {
    var st := Split(t);
    if a == [] {
      assert a + t == t;
      assert a + st[0] == st[0];
      assert [st[0]] + st[1..] == st;
    } else {
      var s := a + t;
      assert s[1..] == a[1..] + t;
      SplitFront(a[1..], t);
      var rest := Split(s[1..]);
      assert rest == [a[1..] + st[0]] + st[1..];
      assert s[0] == a[0] != ',';
      assert Split(s) == [[s[0]] + rest[0]] + rest[1..];
      assert [a[0]] + (a[1..] + st[0]) == a + st[0];
    }
  }

  lemma {:induction false} SplitOne(a: string)
    requires ',' !in a
    ensures Split(a) == [a]
  {
  }

  /** Splitting undoes joining, provided no piece holds a comma. */
  lemma {:induction false} SplitJoin(xs: seq<string>)
    requires |xs| >= 1
    requires forall i :: 0 <= i < |xs| ==> ',' !in xs[i]
    ensures Split(Join(xs)) == xs
  {
    if |xs| == 1 {
      SplitOne(xs[0]);
    } else {
      var tail := Join(xs[1..]);
      SplitJoin(xs[1..]);
      var ct := "," + tail;
      assert ct[0] == ',' && ct[1..] == tail;
      var sct := Split(ct);
      assert sct == [""] + xs[1..];
      assert Join(xs) == xs[0] + ct;
      SplitFront(xs[0], ct);
      assert Split(Join(xs)) == [xs[0] + sct[0]] + sct[1..];
      assert sct[0] == "" && sct[1..] == xs[1..];
      assert xs[0] + "" == xs[0];
      assert xs == [xs[0]] + xs[1..];
    }
  }

  /** Joining one more piece adds a comma and the piece at the end. */
  lemma {:induction false} JoinSnoc(xs: seq<string>, x: string)
    requires |xs| >= 1
    ensures Join(xs + [x]) == Join(xs) + "," + x
  {
    if |xs| > 1 {
      assert (xs + [x])[1..] == xs[1..] + [x];
      JoinSnoc(xs[1..], x);
    }
  }
}
