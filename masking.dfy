/** Masking of API keys for display (`mask_api_key` in main.py). */
module Masking {

  /** Short keys, of at most this many characters, are starred out completely. */
  const ShortKeyLength: nat := 12
  /** Number of characters kept at each end of a longer key. */
  const Shown: nat := 4

  /** Python's `"*" * n`. */
  function Stars(n: nat): (r: string)
    ensures |r| == n
    ensures forall i :: 0 <= i < n ==> r[i] == '*'
  {
    if n == 0 then "" else "*" + Stars(n - 1)
  }

  /** Whether position `i` of a key of length `n` is shown in clear. */
  predicate Revealed(n: nat, i: nat) {
    n > ShortKeyLength && (i < Shown || i >= n - Shown)
  }

  /** Position-wise description of a masked key: same length, every position
      either revealed and equal to the key, or a star. */
  ghost predicate IsMaskOf(key: string, r: string) {
    && |r| == |key|
    && forall i :: 0 <= i < |key| ==> r[i] == (if Revealed(|key|, i) then key[i] else '*')
  }

  function MaskApiKey(key: string): (r: string)
    ensures IsMaskOf(key, r)
    ensures |r| == |key|
    ensures |key| <= ShortKeyLength ==> r == Stars(|key|)
    ensures |key| > ShortKeyLength ==>
      && r[..Shown] == key[..Shown]
      && r[|key| - Shown..] == key[|key| - Shown..]
      && r[Shown..|key| - Shown] == Stars(|key| - 2 * Shown)
  {
    if |key| <= ShortKeyLength then Stars(|key|)
    else key[..Shown] + Stars(|key| - 2 * Shown) + key[|key| - Shown..]
  }

  /** The position-wise description determines the masked key: `MaskApiKey` is
      the only function meeting it. */
  lemma MaskIsUnique(key: string, r: string)
    requires IsMaskOf(key, r)
    ensures r == MaskApiKey(key)
  { }

  /** A short key reveals nothing: any two short keys of the same length mask
      to the same string. */
  lemma ShortKeyRevealsNothing(a: string, b: string)
    requires |a| == |b| <= ShortKeyLength
    ensures MaskApiKey(a) == MaskApiKey(b)
  { }

  /** Two keys mask alike exactly when they have the same length and, for long
      keys, the same first and last four characters. */
  lemma MaskAlikeIff(a: string, b: string)
    ensures MaskApiKey(a) == MaskApiKey(b) <==>
      && |a| == |b|
      && (|a| > ShortKeyLength ==> a[..Shown] == b[..Shown] && a[|a| - Shown..] == b[|b| - Shown..])
  { }

  /** Masking an already masked key changes nothing. */
  lemma MaskIdempotent(key: string)
    ensures MaskApiKey(MaskApiKey(key)) == MaskApiKey(key)
  { }
}
