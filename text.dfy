/**
 * JavaScript's `s.split(sep)[0]` for a non-empty separator: the part of `s`
 * before the first occurrence of `sep`, or the whole of `s` when `sep` does
 * not occur in it. The navigation bar uses it with `' '` and the parking map
 * with `' - '`.
 */
module Text {

  predicate StartsWith(s: string, p: string) {
    |p| <= |s| && s[..|p|] == p
  }

  /** `sep` occurs in `s` starting at index `i`. */
  predicate OccursAt(s: string, sep: string, i: nat) {
    i <= |s| && StartsWith(s[i..], sep)
  }

  /** Shifting the text by one character shifts every occurrence by one. */
  lemma OccursAtTail(s: string, sep: string, i: nat)
    requires 1 <= i <= |s|
    ensures OccursAt(s, sep, i) == OccursAt(s[1..], sep, i - 1)
  {
    assert s[i..] == s[1..][i - 1..];
  }

  /** A mismatch at offset `k` rules out an occurrence of `sep` at `i`. */
  lemma MismatchAt(s: string, sep: string, i: nat, k: nat)
    requires k < |sep| && i + k < |s| && s[i + k] != sep[k]
    ensures !OccursAt(s, sep, i)
  {
    assert s[i..][k] == s[i + k];
  }

  /** The first piece of `s.split(sep)`. */
  function FirstPart(s: string, sep: string): (r: string)
    requires sep != []
    ensures r <= s
    ensures forall i :: 0 <= i < |r| ==> !OccursAt(s, sep, i)
    ensures |r| == |s| || OccursAt(s, sep, |r|)
    decreases |s|
  {
    if s == [] || StartsWith(s, sep) then []
    else
      var rest := FirstPart(s[1..], sep);
      assert forall i :: 1 <= i <= |s| ==> OccursAt(s, sep, i) == OccursAt(s[1..], sep, i - 1) by {
        forall i | 1 <= i <= |s| ensures OccursAt(s, sep, i) == OccursAt(s[1..], sep, i - 1) {
          OccursAtTail(s, sep, i);
        }
      }
      [s[0]] + rest
  }

  /**
   * The three properties in FirstPart's contract determine the piece: any
   * prefix of `s` that stops exactly at the first occurrence of `sep` (or at
   * the end of `s`) is FirstPart(s, sep).
   */
  lemma {:induction false} FirstPartUnique(s: string, sep: string, r: string)
    requires sep != []
    requires r <= s
    requires forall i :: 0 <= i < |r| ==> !OccursAt(s, sep, i)
    requires |r| == |s| || OccursAt(s, sep, |r|)
    ensures r == FirstPart(s, sep)
  {
    var q := FirstPart(s, sep);
    assert r == s[..|r|] && q == s[..|q|];
  }
}
