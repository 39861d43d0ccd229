/**
 * The string built-ins the relay's date formatter relies on:
 * `String.prototype.padStart`, `indexOf` and `replace` with a string pattern.
 */
module Text {
  import opened Wrappers

  /** `n` copies of `c`. */
  function Repeat(c: char, n: nat): (r: string)
    ensures |r| == n
    ensures forall i :: 0 <= i < n ==> r[i] == c
  {
    if n == 0 then [] else [c] + Repeat(c, n - 1)
  }

  /**
   * `s.padStart(width, fill)` with a one-character fill: `s` itself when it is
   * already `width` long or longer, otherwise `s` behind enough fill characters
   * to reach `width`. It never shortens `s`.
   */
  function PadStart(s: string, width: nat, fill: char): (r: string)
    ensures |r| == if |s| >= width then |s| else width
    ensures r[|r| - |s|..] == s
    ensures forall i :: 0 <= i < |r| - |s| ==> r[i] == fill
  {
    if |s| >= width then s else Repeat(fill, width - |s|) + s
  }

  /** `sub` appears in `s` starting at index `i`. */
  predicate OccursAt(s: string, sub: string, i: nat) {
    i + |sub| <= |s| && s[i..i + |sub|] == sub
  }

  /** The first index at or after `from` where `sub` occurs in `s`, if any. */
  function IndexOfFrom(s: string, sub: string, from: nat): (r: Option<nat>)
    ensures r.Some? ==> from <= r.value && OccursAt(s, sub, r.value)
    ensures r.Some? ==> forall j :: from <= j < r.value ==> !OccursAt(s, sub, j)
    ensures r.None? ==> forall j :: from <= j ==> !OccursAt(s, sub, j)
    decreases |s| - from
  {
    if from + |sub| > |s| then None
    else if s[from..from + |sub|] == sub then Some(from)
    else IndexOfFrom(s, sub, from + 1)
  }

  /** `s.indexOf(sub)`, with `None` for JavaScript's -1. */
  function IndexOf(s: string, sub: string): Option<nat> {
    IndexOfFrom(s, sub, 0)
  }

  /**
   * `s.replace(sub, rep)` with a string pattern: only the first occurrence of
   * `sub` is replaced; `s` is returned unchanged when `sub` does not occur.
   */
  function Replace(s: string, sub: string, rep: string): string {
    match IndexOf(s, sub)
    case None => s
    case Some(i) => s[..i] + rep + s[i + |sub|..]
  }

  /** `sub` does not occur where the character of `s` differs from its first one. */
  lemma NotOccursAt(s: string, sub: string, j: nat)
    requires |sub| > 0 && j < |s| && s[j] != sub[0]
    ensures !OccursAt(s, sub, j)
  {
    if j + |sub| <= |s| {
      assert s[j..j + |sub|][0] == s[j];
    }
  }

  /** When `sub` is at `i` and at no earlier index, the first occurrence `indexOf` finds is the one at `i`. */
  lemma IndexOfIsFirstOccurrence(s: string, sub: string, i: nat)
    requires OccursAt(s, sub, i)
    requires forall j :: 0 <= j < i ==> !OccursAt(s, sub, j)
    ensures IndexOf(s, sub) == Some(i)
  {
    var r := IndexOfFrom(s, sub, 0);
    assert r.Some?;
  }

  /**
   * `replace` rewrites the first occurrence: when `sub` is at `i` and at no
   * earlier index, the text before `i` and after that occurrence is kept and
   * `rep` stands in its place.
   */
  lemma ReplaceFirstOccurrence(s: string, sub: string, rep: string, i: nat)
    requires OccursAt(s, sub, i)
    requires forall j :: 0 <= j < i ==> !OccursAt(s, sub, j)
    ensures Replace(s, sub, rep) == s[..i] + rep + s[i + |sub|..]
  {
    IndexOfIsFirstOccurrence(s, sub, i);
  }

  /** `replace` leaves the string unchanged when `sub` does not occur in it. */
  lemma ReplaceAbsent(s: string, sub: string, rep: string)
    requires forall j :: 0 <= j ==> !OccursAt(s, sub, j)
    ensures Replace(s, sub, rep) == s
  {
    assert IndexOf(s, sub).None?;
  }
}
