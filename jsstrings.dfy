// The String.prototype operations the core relies on, with their
// ECMAScript edge cases: indexOf with a start position, slice with negative
// bounds, split(':') read at index 1, and replace with a string pattern,
// whose replacement text is expanded by GetSubstitution.

module JsStrings {
  import opened JsValues

  predicate StartsWith(s: string, p: string) { p <= s }

  predicate EndsWith(s: string, p: string) { |p| <= |s| && s[|s| - |p|..] == p }

  /** `p` occurs in `s` at index `k`. */
  predicate MatchAt(s: string, p: string, k: int)
  {
    0 <= k && k + |p| <= |s| && s[k..k + |p|] == p
  }

  /** The search of `indexOf` from a start position within the string. */
  function IndexFrom(s: string, p: string, from: nat): (r: int)
    requires from <= |s|
    ensures r == -1 || from <= r
    ensures r >= 0 ==> MatchAt(s, p, r)
    ensures r >= 0 ==> forall k :: from <= k < r ==> !MatchAt(s, p, k)
    ensures r == -1 <==> forall k :: from <= k ==> !MatchAt(s, p, k)
    decreases |s| - from
  {
    if from + |p| > |s| then -1
    else if s[from..from + |p|] == p then assert MatchAt(s, p, from); from
    else IndexFrom(s, p, from + 1)
  }

  function IndexOf(s: string, p: string): (r: int)
    ensures r == -1 <==> forall k :: !MatchAt(s, p, k)
    ensures r >= 0 ==> MatchAt(s, p, r) && forall k :: 0 <= k < r ==> !MatchAt(s, p, k)
  {
    IndexFrom(s, p, 0)
  }

  predicate Includes(s: string, p: string) { IndexOf(s, p) >= 0 }

  /** The position `slice` makes of one of its arguments. */
  function RelativeIndex(len: nat, i: int): (r: nat)
    ensures r <= len
  {
    if i < 0 then (if len + i < 0 then 0 else len + i) else if i > len then len else i
  }

  /** `s.slice(start, end)`: negative bounds count from the end. */
  function Slice(s: string, start: int, end: int): (r: string)
    ensures RelativeIndex(|s|, start) <= RelativeIndex(|s|, end) ==>
              r == s[RelativeIndex(|s|, start)..RelativeIndex(|s|, end)]
    ensures RelativeIndex(|s|, start) > RelativeIndex(|s|, end) ==> r == ""
  {
    var from := RelativeIndex(|s|, start);
    var to := RelativeIndex(|s|, end);
    if from < to then s[from..to] else ""
  }

  /** `s.slice(start)`. */
  function SliceFrom(s: string, start: int): (r: string)
    ensures r == s[RelativeIndex(|s|, start)..]
  {
    s[RelativeIndex(|s|, start)..]
  }

  /** `s.split(sep)[1]` for a one-character separator: the text between the
      first and the second separator (or the end), `undefined` when `s`
      holds no separator. */
  function SplitSecond(s: string, sep: char): (r: Option<string>)
    ensures r.None? <==> sep !in s
    ensures r.Some? ==> sep !in r.value
    ensures r.Some? ==> exists i :: 0 <= i < |s| && s[i] == sep && sep !in s[..i] && r.value <= s[i + 1..]
  {
    var i := Find(s, sep);
    if i == |s| then None
    else
      var rest := s[i + 1..];
      var j := Find(rest, sep);
      assert s[..i] == s[..i] && forall k :: 0 <= k < i ==> s[k] != sep;
      Some(rest[..j])
  }

  /** GetSubstitution (ECMA-262 section 22.1.3.19.1) for a string pattern,
      so with no captures: `$$` is `$`, `$&` the match, `` $` `` the text
      before it, `$'` the text after it; every other `$` stays as it is. */
  function Expand(rep: string, matched: string, before: string, after: string): string
  {
    if rep == [] then []
    else if rep[0] == '$' && |rep| >= 2 && rep[1] == '$' then "$" + Expand(rep[2..], matched, before, after)
    else if rep[0] == '$' && |rep| >= 2 && rep[1] == '&' then matched + Expand(rep[2..], matched, before, after)
    else if rep[0] == '$' && |rep| >= 2 && rep[1] == '`' then before + Expand(rep[2..], matched, before, after)
    else if rep[0] == '$' && |rep| >= 2 && rep[1] == '\'' then after + Expand(rep[2..], matched, before, after)
    else [rep[0]] + Expand(rep[1..], matched, before, after)
  }

  /** `s.replace(p, rep)` with a string pattern: only the first occurrence
      is replaced, and `rep` is expanded. */
  function Replace(s: string, p: string, rep: string): string
  {
    var k := IndexOf(s, p);
    if k < 0 then s
    else s[..k] + Expand(rep, p, s[..k], s[k + |p|..]) + s[k + |p|..]
  }

  /** Replacing the first occurrence of `p` by `ins` literally. */
  function ReplaceLiteral(s: string, p: string, ins: string): string
  {
    var k := IndexOf(s, p);
    if k < 0 then s else s[..k] + ins + s[k + |p|..]
  }

  /** A replacement without `$` is inserted literally. */
  lemma {:induction false} ExpandPlain(rep: string, matched: string, before: string, after: string)
    requires '$' !in rep
    ensures Expand(rep, matched, before, after) == rep
  {
    if rep != [] {
      assert rep[1..] == rep[1..] && '$' !in rep[1..];
      ExpandPlain(rep[1..], matched, before, after);
    }
  }

  lemma ReplacePlain(s: string, p: string, rep: string)
    requires '$' !in rep
    ensures Replace(s, p, rep) == ReplaceLiteral(s, p, rep)
  {
    var k := IndexOf(s, p);
    if k >= 0 {
      ExpandPlain(rep, p, s[..k], s[k + |p|..]);
      assert Replace(s, p, rep) == s[..k] + rep + s[k + |p|..];
    }
  }

  /** `toLowerCase` on the ASCII letters. */
  function LowerChar(c: char): (r: char)
    ensures 'A' <= c <= 'Z' ==> r as int == c as int + 32
    ensures !('A' <= c <= 'Z') ==> r == c
  {
    if 'A' <= c <= 'Z' then (c as int + 32) as char else c
  }

  function Lower(s: string): (r: string)
    ensures |r| == |s| && forall i :: 0 <= i < |s| ==> r[i] == LowerChar(s[i])
  {
    if s == [] then [] else [LowerChar(s[0])] + Lower(s[1..])
  }
}
