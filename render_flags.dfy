/**
  The render-mode bit flags of `RenderFlags` (renderer.py). A flag set is the
  bitwise OR of the constants below; a flag is set when `flags & flag` is
  nonzero. Only Offscreen, DepthOnly and Rgba change what the renderer does.
 */
module RenderFlags {
  type Flags = bv32

  const Normal: Flags := 0
  const DepthOnly: Flags := 1
  const Offscreen: Flags := 2
  const FlipWireframe: Flags := 4
  const AllWireframe: Flags := 8
  const AllSolid: Flags := 16
  const ShadowsDirectional: Flags := 32
  const ShadowsPoint: Flags := 64
  const ShadowsSpot: Flags := 128
  const ShadowsAll: Flags := 32 | 64 | 128
  const VertexNormals: Flags := 256
  const FaceNormals: Flags := 512
  const SkipCullFaces: Flags := 1024
  const Rgba: Flags := 2048
  const Flat: Flags := 4096
  const Seg: Flags := 8192

  /** Python's truth test `flags & flag`: a flag whose bits are all in the
      set is detected, and Normal (no bits) never is. */
  function HasFlag(flags: Flags, flag: Flags): (isSet: bool)
    ensures flag != 0 && flags & flag == flag ==> isSet
    ensures isSet ==> flags != 0 && flag != 0
  {
    flags & flag != 0
  }

  /** A flag that is exactly one bit. */
  predicate SingleBit(flag: Flags) {
    flag != 0 && flag & (flag - 1) == 0
  }

  /** Each named flag other than Normal and ShadowsAll is a single bit of its own. */
  function Named(): (bits: seq<Flags>)
    ensures forall i :: 0 <= i < |bits| ==> SingleBit(bits[i])
    ensures forall i, j :: 0 <= i < j < |bits| ==> bits[i] & bits[j] == 0
  {
    [DepthOnly, Offscreen, FlipWireframe, AllWireframe, AllSolid, ShadowsDirectional,
     ShadowsPoint, ShadowsSpot, VertexNormals, FaceNormals, SkipCullFaces, Rgba, Flat, Seg]
  }

  /** Flags compose by OR without interfering: a flag is set in `a | b`
      exactly when it is set in `a` or in `b`, no flag is set in Normal, and
      ShadowsAll is the union of the three shadow flags. */
  lemma OrComposes(a: Flags, b: Flags, flag: Flags)
    ensures HasFlag(a | b, flag) <==> HasFlag(a, flag) || HasFlag(b, flag)
    ensures !HasFlag(Normal, flag)
    ensures ShadowsAll == ShadowsDirectional | ShadowsPoint | ShadowsSpot
  {
    assert (a | b) & flag == (a & flag) | (b & flag);
  }
}
