/** The part of Go's `strings` package that the function uses: `strings.Replace(s, old, new, 1)`
    with a one-character `old` and `new`. */
module Strings {
  import opened Wrappers

  /** The index of the first occurrence of `c` in `s`, if there is one. */
  function IndexOf(s: string, c: char): (r: Option<nat>)
    ensures r.None? <==> c !in s
    ensures r.Some? ==> r.value < |s| && s[r.value] == c && c !in s[..r.value]
  {
    if s == [] then None
    else if s[0] == c then Some(0)
    else match IndexOf(s[1..], c)
      case None => None
      case Some(i) =>
        assert s[..i + 1] == [s[0]] + s[1..][..i];
        Some(i + 1)
  }

  /** `s` with only its first occurrence of `from` replaced by `to`: `strings.Replace(s, from, to, 1)`. */
  function ReplaceFirst(s: string, from: char, to: char): (r: string)
    ensures |r| == |s|
  {
    if s == [] then []
    else if s[0] == from then [to] + s[1..]
    else [s[0]] + ReplaceFirst(s[1..], from, to)
  }

  /** ReplaceFirst against IndexOf: nothing changes when `from` does not occur; otherwise the
      first occurrence, and only it, becomes `to`. */
  lemma {:induction false} ReplaceFirstAtIndex(s: string, from: char, to: char)
    ensures IndexOf(s, from).None? ==> ReplaceFirst(s, from, to) == s
    ensures IndexOf(s, from).Some? ==>
      var i := IndexOf(s, from).value;
      ReplaceFirst(s, from, to) == s[..i] + [to] + s[i + 1..]
  {
    if s != [] && s[0] != from {
      ReplaceFirstAtIndex(s[1..], from, to);
      if IndexOf(s[1..], from).Some? {
        var i := IndexOf(s[1..], from).value;
        assert s[..i + 1] == [s[0]] + s[1..][..i];
        assert s[i + 2..] == s[1..][i + 1..];
      }
    }
  }

  /** Position by position: everything but the first `from` is kept. */
  lemma ReplaceFirstPointwise(s: string, from: char, to: char)
    ensures var r := ReplaceFirst(s, from, to);
      forall k :: 0 <= k < |s| ==>
        r[k] == (if IndexOf(s, from) == Some(k) then to else s[k])
  {
  }

  /** A `to` that did not occur before can be turned back into `from`: the rewrite loses nothing. */
  lemma {:induction false} ReplaceFirstUndo(s: string, from: char, to: char)
    requires to !in s
    ensures ReplaceFirst(ReplaceFirst(s, from, to), to, from) == s
  {
    if s != [] && s[0] != from {
      assert to !in s[1..];
      ReplaceFirstUndo(s[1..], from, to);
    }
  }
}
