/** The string operations the converter uses. */
module Text {
  predicate StartsWith(s: string, p: string) { p <= s }

  predicate EndsWith(s: string, p: string) { |p| <= |s| && s[|s| - |p|..] == p }

  /** str.split on one character. */
  function Split(s: string, c: char): (parts: seq<string>)
    ensures |parts| >= 1
  {
    if s == "" then [""]
    else
      Fronted(s[0], c, Split(s[1..], c))
  }

  function Join(parts: seq<string>, c: char): string
    requires parts != []
  {
    if |parts| == 1 then parts[0] else parts[0] + [c] + Join(parts[1..], c)
  }

  /** str.replace of one character by another. */
  function Replace(s: string, c: char, d: char): string {
    seq(|s|, i requires 0 <= i < |s| => if s[i] == c then d else s[i])
  }

  /** The first position of a character of cs, or the length. */
  function Find(s: string, cs: set<char>): (i: nat)
    ensures i <= |s| && (i < |s| ==> s[i] in cs) && forall j | 0 <= j < i :: s[j] !in cs
  {
    if s == "" || s[0] in cs then 0 else 1 + Find(s[1..], cs)
  }

  function Without(s: string, cs: set<char>): (r: string)
    ensures forall c <- r :: c in s && c !in cs
    ensures (forall c <- cs :: c !in s) ==> r == s
  {
    if s == "" then "" else if s[0] in cs then Without(s[1..], cs) else [s[0]] + Without(s[1..], cs)
  }

  /** The parts after one more character in front. */
  function Fronted(first: char, c: char, rest: seq<string>): seq<string>
    requires rest != []
  {
    if first == c then [""] + rest else [[first] + rest[0]] + rest[1..]
  }

  lemma FrontedConcat(first: char, c: char, a: seq<string>, b: seq<string>)
    requires a != []
    ensures Fronted(first, c, a + b) == Fronted(first, c, a) + b
  {
    assert (a + b)[1..] == a[1..] + b;
  }

  lemma {:induction false} SplitConcat(x: string, y: string, c: char)
    ensures Split(x + [c] + y, c) == Split(x, c) + Split(y, c)
  {
    var s := x + [c] + y;
    if x == "" {
      assert s[1..] == y;
    } else {
      SplitConcat(x[1..], y, c);
      assert s[0] == x[0] && s[1..] == x[1..] + [c] + y;
      FrontedConcat(x[0], c, Split(x[1..], c), Split(y, c));
    }
  }

  lemma {:induction false} SplitWhole(x: string, c: char)
    requires c !in x
    ensures Split(x, c) == [x]
  {
    if x != "" {
      SplitWhole(x[1..], c);
      assert [x[0]] + x[1..] == x;
    }
  }

  lemma SplitPart(x: string, y: string, c: char)
    requires c !in x
    ensures Split(x + [c] + y, c) == [x] + Split(y, c)
  {
    SplitConcat(x, y, c);
    SplitWhole(x, c);
  }

  /** Split loses nothing, and its parts are free of the separator. */
  lemma {:induction false} JoinSplit(s: string, c: char)
    ensures Join(Split(s, c), c) == s
    ensures forall p <- Split(s, c) :: c !in p
  {
    if s != "" {
      JoinSplit(s[1..], c);
      var rest := Split(s[1..], c);
      if s[0] == c {
        assert Split(s, c)[1..] == rest;
      } else {
        assert Split(s, c)[1..] == rest[1..];
      }
    }
  }

  /** str.strip of one character. */
  function Strip(s: string, c: char): string {
    RightStrip(LeftStrip(s, c), c)
  }

  function LeftStrip(s: string, c: char): string {
    if s != "" && s[0] == c then LeftStrip(s[1..], c) else s
  }

  function RightStrip(s: string, c: char): string {
    if s != "" && s[|s| - 1] == c then RightStrip(s[..|s| - 1], c) else s
  }

  lemma {:induction false} WithoutShrinks(s: string, cs: set<char>)
    ensures |Without(s, cs)| <= |s|
    ensures (exists c <- cs :: c in s) ==> |Without(s, cs)| < |s|
  {
    if s != "" {
      WithoutShrinks(s[1..], cs);
      assert s == [s[0]] + s[1..];
    }
  }
}
