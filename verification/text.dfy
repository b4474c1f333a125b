/**
  The handful of Python string operations the copilots rely on, stated over
  `seq<char>`: `startswith`, `in`, `split(sep)[0]`, `split(sep)[1]`,
  `split(sep)[-1]`, `strip()`, `rstrip("\n")`, `split("\n")`, `"\n".join`,
  `lower()` and single-character `replace`.
*/
module Text {
  import opened Wrappers

  /** `s.startswith(p)` */
  predicate StartsWith(s: string, p: string) {
    |p| <= |s| && s[..|p|] == p
  }

  /** `s.endswith(e)` */
  predicate EndsWith(s: string, e: string) {
    |e| <= |s| && s[|s| - |e|..] == e
  }

  lemma EndsWithAppend(a: string, b: string, e: string)
    requires EndsWith(b, e)
    ensures EndsWith(a + b, e)
  {
    assert (a + b)[|a + b| - |e|..] == b[|b| - |e|..];
  }

  /** `t in s` */
  predicate Contains(s: string, t: string)
    decreases |s|
  {
    StartsWith(s, t) || (|s| > 0 && Contains(s[1..], t))
  }

  /** `s.split(t)[0]`: the text before the first occurrence of `t`, or all of `s`. */
  function UpTo(s: string, t: string): (r: string)
    requires |t| > 0
    ensures StartsWith(s, r)
    ensures !Contains(s, t) ==> r == s
    ensures !Contains(r, t)
    ensures r == s || StartsWith(s[|r|..], t)
    decreases |s|
  {
    if StartsWith(s, t) then ""
    else if s == "" then ""
    else [s[0]] + UpTo(s[1..], t)
  }

  /** The text after the first occurrence of `t`; `None` when `t` does not occur. */
  function AfterFirst(s: string, t: string): (r: Option<string>)
    requires |t| > 0
    ensures r.Some? <==> Contains(s, t)
    ensures r.Some? ==> |r.value| <= |s| - |t|
    ensures StartsWith(s, t) ==> r == Some(s[|t|..])
    decreases |s|
  {
    if StartsWith(s, t) then Some(s[|t|..])
    else if s == "" then None
    else AfterFirst(s[1..], t)
  }

  /** What `AfterFirst` returns follows the FIRST occurrence of `t`, not a later one. */
  lemma {:induction false} AfterFirstOccurrence(s: string, t: string)
    requires |t| > 0 && Contains(s, t)
    ensures var i := |s| - |AfterFirst(s, t).value| - |t|;
            && StartsWith(s[i..], t) && AfterFirst(s, t).value == s[i + |t|..]
            && forall j :: 0 <= j < i ==> !StartsWith(s[j..], t)
    decreases |s|
  {
    if !StartsWith(s, t) {
      AfterFirstOccurrence(s[1..], t);
      assert forall j :: 1 <= j <= |s| ==> s[j..] == s[1..][j - 1..];
    }
  }

  /** `s.split(t)[1]`; `None` stands for the IndexError Python raises when `t` does not occur. */
  function SplitSecond(s: string, t: string): (r: Option<string>)
    requires |t| > 0
    ensures r.Some? <==> Contains(s, t)
  {
    match AfterFirst(s, t)
    case None => None
    case Some(rest) => Some(UpTo(rest, t))
  }

  /** `s.split(t)[-1]`: the text after the last occurrence of `t`, or all of `s`. */
  function SplitLast(s: string, t: string): (r: string)
    requires |t| > 0
    ensures !Contains(s, t) ==> r == s
    decreases |s|
  {
    match AfterFirst(s, t)
    case None => s
    case Some(rest) => SplitLast(rest, t)
  }

  /**
    The characters `str.isspace()` accepts, which `str.strip()` removes: the
    ASCII controls U+0009 to U+000D and U+001C to U+001F, the space, and the
    Unicode separators and spaces above U+007F.
  */
  predicate IsSpace(c: char) {
    var n := c as int;
    || 9 <= n <= 13 || 28 <= n <= 32
    || n == 0x85 || n == 0xA0 || n == 0x1680 || 0x2000 <= n <= 0x200A
    || n == 0x2028 || n == 0x2029 || n == 0x202F || n == 0x205F || n == 0x3000
  }

  function StripLeft(s: string): (r: string)
    ensures r == "" || !IsSpace(r[0])
    ensures |r| <= |s| && r == s[|s| - |r|..]
    decreases |s|
  {
    if s != "" && IsSpace(s[0]) then StripLeft(s[1..]) else s
  }

  function StripRight(s: string): (r: string)
    ensures r == "" || !IsSpace(r[|r| - 1])
    ensures |r| <= |s| && r == s[..|r|]
    decreases |s|
  {
    if s != "" && IsSpace(s[|s| - 1]) then StripRight(s[..|s| - 1]) else s
  }

  /** `s.strip()`: no leading and no trailing whitespace, and a piece of `s`. */
  function Strip(s: string): (r: string)
    ensures r == "" || (!IsSpace(r[0]) && !IsSpace(r[|r| - 1]))
    ensures |r| <= |s|
  {
    var l := StripLeft(s);
    var r := StripRight(l);
    assert r == "" || r[0] == l[0];
    r
  }

  /** `s.rstrip(c)` */
  function RStripChar(s: string, c: char): (r: string)
    ensures r == "" || r[|r| - 1] != c
    ensures |r| <= |s| && r == s[..|r|]
    ensures forall i :: |r| <= i < |s| ==> s[i] == c
    decreases |s|
  {
    if s != "" && s[|s| - 1] == c then RStripChar(s[..|s| - 1], c) else s
  }

  /** `s.split(c)` for a one-character separator. */
  function Split(s: string, c: char): (r: seq<string>)
    ensures |r| >= 1
    ensures forall i :: 0 <= i < |r| ==> c !in r[i]
    decreases |s|
  {
    if s == "" then [""]
    else if s[0] == c then [""] + Split(s[1..], c)
    else
      var t := Split(s[1..], c);
      [[s[0]] + t[0]] + t[1..]
  }

  /** `c.join(parts)` */
  function Join(parts: seq<string>, c: char): string
    requires |parts| >= 1
    decreases |parts|
  {
    if |parts| == 1 then parts[0] else parts[0] + [c] + Join(parts[1..], c)
  }

  /** Joining the pieces of a split gives back the text: `c.join(s.split(c)) == s`. */
  lemma {:induction false} JoinSplit(s: string, c: char)
    ensures Join(Split(s, c), c) == s
    decreases |s|
  {
    if s == "" {
    } else if s[0] == c {
      JoinSplit(s[1..], c);
      assert Split(s, c) == [""] + Split(s[1..], c);
      assert s == [c] + s[1..];
    } else {
      JoinSplit(s[1..], c);
      var t := Split(s[1..], c);
      assert s == [s[0]] + s[1..];
      if |t| == 1 {
        assert Join(t, c) == t[0];
      } else {
        assert Join(t, c) == t[0] + [c] + Join(t[1..], c);
        assert ([[s[0]] + t[0]] + t[1..])[1..] == t[1..];
      }
    }
  }

  /** The first piece of a split is the text before the first separator. */
  lemma {:induction false} SplitFirstPiece(s: string, c: char)
    ensures Split(s, c)[0] == (if c in s then s[..IndexOf(s, c)] else s)
    decreases |s|
  {
    if s != "" && s[0] != c {
      SplitFirstPiece(s[1..], c);
      assert c in s <==> c in s[1..];
    }
  }

  /** Index of the first `c` in `s`. */
  function IndexOf(s: string, c: char): (i: nat)
    requires c in s
    ensures i < |s| && s[i] == c && c !in s[..i]
    decreases |s|
  {
    if s[0] == c then 0
    else
      assert c in s[1..];
      var j := IndexOf(s[1..], c);
      assert s[..j + 1] == [s[0]] + s[1..][..j];
      j + 1
  }

  /** `str.lower()` on the ASCII letters. */
  function LowerChar(ch: char): char {
    if 'A' <= ch <= 'Z' then (ch as int + 32) as char else ch
  }

  function Lower(s: string): (r: string)
    ensures |r| == |s|
    ensures forall i :: 0 <= i < |s| ==> r[i] == LowerChar(s[i])
  {
    seq(|s|, i requires 0 <= i < |s| => LowerChar(s[i]))
  }

  /** `s.replace(a, b)` for one-character `a` and `b`. */
  function ReplaceChar(s: string, a: char, b: char): (r: string)
    ensures |r| == |s|
    ensures forall i :: 0 <= i < |s| ==> r[i] == (if s[i] == a then b else s[i])
  {
    seq(|s|, i requires 0 <= i < |s| => if s[i] == a then b else s[i])
  }

  /** `"".join(parts)` */
  function Concat(parts: seq<string>): string {
    if parts == [] then "" else parts[0] + Concat(parts[1..])
  }

  lemma {:induction false} ConcatAppend(a: seq<string>, b: seq<string>)
    ensures Concat(a + b) == Concat(a) + Concat(b)
    decreases |a|
  {
    if a == [] {
      assert a + b == b;
    } else {
      ConcatAppend(a[1..], b);
      assert (a + b)[1..] == a[1..] + b;
    }
  }
}
