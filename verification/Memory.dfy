/** memcpy, and a fact about slices of slices. */
module Memory {

  method CopyInto(src: seq<char>, dst: array<char>, off: nat)
    requires off + |src| <= dst.Length
    modifies dst
    ensures dst[off..off + |src|] == src
    ensures forall i :: 0 <= i < dst.Length && !(off <= i < off + |src|) ==> dst[i] == old(dst[i])
  {
    for i := 0 to |src|
      invariant dst[off..off + i] == src[..i]
      invariant forall j :: 0 <= j < dst.Length && !(off <= j < off + i) ==> dst[j] == old(dst[j])
    {
      dst[off + i] := src[i];
      assert dst[off..off + i + 1] == dst[off..off + i] + [src[i]];
      assert src[..i + 1] == src[..i] + [src[i]];
    }
  }

  lemma SliceOfSlice(s: seq<char>, a: nat, b: nat, i: nat, j: nat)
    requires a <= b <= |s| && i <= j <= b - a
    ensures s[a..b][i..j] == s[a + i..a + j]
  {
    forall k | 0 <= k < j - i ensures s[a..b][i..j][k] == s[a + i..a + j][k] {}
  }

  lemma SliceJoin(s: seq<char>, i: nat, j: nat, k: nat)
    requires i <= j <= k <= |s|
    ensures s[i..k] == s[i..j] + s[j..k]
  {
  }

  lemma SliceOfPrefix(p: seq<char>, s: seq<char>, i: nat, j: nat)
    requires p <= s && i <= j <= |p|
    ensures p[i..j] == s[i..j]
  {
  }
}
