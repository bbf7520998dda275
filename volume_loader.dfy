/**
 * The volume loader of VolumeRendering/main.cpp (initTextures): a raw scan of
 * W x H x D one-byte intensities is expanded into an RGBA buffer of 4 bytes per
 * voxel, R = G = B = the intensity, A = 255 unless the intensity, read as a C
 * `char`, is below the threshold 20, in which case A = 0.
 *
 * Both buffers are C `char` arrays. The model keeps their raw bit patterns as
 * bytes 0..255 (that is what the texture upload reads, as GL_UNSIGNED_BYTE) and
 * makes the one place where the `char` type matters, the comparison with 20,
 * explicit: whether `char` is signed is a parameter (it is on the usual x86
 * targets, it is not on ARM Linux).
 */
module VolumeLoader {
  import opened ScanConfig

  /** The raw bit pattern of one `char`. */
  newtype Byte = x: int | 0 <= x < 256

  /** Intensities below this (as a `char`) become fully transparent. */
  const AlphaThreshold: int := 20
  const Opaque: Byte := 255
  const Transparent: Byte := 0

  /** The value a `char` holding the bit pattern `b` compares as. */
  function CharValue(b: Byte, charIsSigned: bool): (c: int)
    ensures charIsSigned ==> -128 <= c < 128
    ensures !charIsSigned ==> c == b as int
    ensures (c - b as int) % 256 == 0
  {
    if charIsSigned && b >= 128 then b as int - 256 else b as int
  }

  /**
   * The alpha byte of a voxel of intensity `b`: opaque or transparent, and
   * transparent exactly for intensities below the threshold and, when `char` is
   * signed, for every byte with its top bit set.
   */
  function Alpha(b: Byte, charIsSigned: bool): (a: Byte)
    ensures a == Transparent || a == Opaque
    ensures a == Transparent <==> b < 20 || (charIsSigned && b >= 128)
  {
    if CharValue(b, charIsSigned) < AlphaThreshold then Transparent else Opaque
  }

  /** The four RGBA bytes written for one voxel. */
  function VoxelRgba(b: Byte, charIsSigned: bool): seq<Byte>
  {
    [b, b, b, Alpha(b, charIsSigned)]
  }

  /**
   * The RGBA buffer for the raw volume `raw`, voxel by voxel in the order the
   * loop writes them: four bytes per voxel, the first three a copy of the
   * intensity and the fourth its alpha.
   */
  function ExpandRgba(raw: seq<Byte>, charIsSigned: bool): (rgba: seq<Byte>)
    ensures |rgba| == 4 * |raw|
    ensures forall k :: 0 <= k < |raw| ==>
      rgba[4 * k] == raw[k] && rgba[4 * k + 1] == raw[k] && rgba[4 * k + 2] == raw[k] &&
      rgba[4 * k + 3] == Alpha(raw[k], charIsSigned)
  {
    if raw == [] then []
    else
      var init := raw[..|raw| - 1];
      assert forall k :: 0 <= k < |init| ==> init[k] == raw[k];
      ExpandRgba(init, charIsSigned) + VoxelRgba(raw[|raw| - 1], charIsSigned)
  }

  /**
   * One iteration of the conversion loop: the four bytes of voxel `nIndx`, of
   * intensity `b`, at offset 4 * nIndx; alpha is first written as 255 and then
   * overwritten with 0 when `b` compares below the threshold. Nothing else changes.
   */
  method PutVoxel(chRGBABuffer: array<Byte>, nIndx: nat, b: Byte, charIsSigned: bool)
    requires nIndx * 4 + 4 <= chRGBABuffer.Length
    modifies chRGBABuffer
    ensures chRGBABuffer[..nIndx * 4 + 4] == old(chRGBABuffer[..nIndx * 4]) + VoxelRgba(b, charIsSigned)
    ensures forall k :: nIndx * 4 + 4 <= k < chRGBABuffer.Length ==> chRGBABuffer[k] == old(chRGBABuffer[k])
  {
    chRGBABuffer[nIndx * 4] := b;
    chRGBABuffer[nIndx * 4 + 1] := b;
    chRGBABuffer[nIndx * 4 + 2] := b;
    chRGBABuffer[nIndx * 4 + 3] := Opaque;
    if CharValue(b, charIsSigned) < AlphaThreshold {
      chRGBABuffer[nIndx * 4 + 3] := Transparent;
    }
    assert chRGBABuffer[..nIndx * 4 + 4] == old(chRGBABuffer[..nIndx * 4]) + VoxelRgba(b, charIsSigned);
  }

  /**
   * The conversion loop of initTextures: allocates the RGBA buffer and fills it
   * voxel by voxel, first writing alpha 255 and then overwriting it with 0 when
   * the intensity compares below the threshold. `chBuffer` holds the bytes the
   * file read delivered; it is only read.
   */
  method ExpandToRgba(chBuffer: array<Byte>, width: nat, height: nat, count: nat, charIsSigned: bool)
    returns (chRGBABuffer: array<Byte>)
    requires chBuffer.Length == width * height * count
    requires 4 * chBuffer.Length <= IntMax
    ensures chRGBABuffer.Length == 4 * chBuffer.Length
    ensures chRGBABuffer[..] == ExpandRgba(chBuffer[..], charIsSigned)
  {
    var voxels := width * height * count;
    assert voxels == chBuffer.Length;
    chRGBABuffer := new Byte[voxels * 4];
    var nIndx := 0;
    while nIndx < voxels
      invariant 0 <= nIndx <= voxels
      invariant chRGBABuffer[..nIndx * 4] == ExpandRgba(chBuffer[..nIndx], charIsSigned)
    {
      PutVoxel(chRGBABuffer, nIndx, chBuffer[nIndx], charIsSigned);
      assert chBuffer[..nIndx + 1][..nIndx] == chBuffer[..nIndx];
      nIndx := nIndx + 1;
    }
    assert chBuffer[..voxels] == chBuffer[..];
    assert chRGBABuffer[..voxels * 4] == chRGBABuffer[..];
  }

  /**
   * initTextures for the fixed 256 x 256 x 109 scan: `chBuffer` is the scan as
   * read from the file. The RGBA texture it uploads has 4 bytes per voxel, all
   * of which still fit the C `int` index.
   */
  method InitTextures(chBuffer: array<Byte>, charIsSigned: bool) returns (chRGBABuffer: array<Byte>)
    requires chBuffer.Length == ImageWidth * ImageHeight * ImageCount
    ensures chRGBABuffer.Length == 28_573_696
    ensures chRGBABuffer[..] == ExpandRgba(chBuffer[..], charIsSigned)
  {
    chRGBABuffer := ExpandToRgba(chBuffer, ImageWidth, ImageHeight, ImageCount, charIsSigned);
  }

  /** Voxel k of the RGBA buffer is a function of input byte k alone. */
  lemma {:induction false} VoxelIsLocal(raw1: seq<Byte>, raw2: seq<Byte>, charIsSigned: bool, k: int)
    requires 0 <= k < |raw1| && 0 <= k < |raw2| && raw1[k] == raw2[k]
    ensures ExpandRgba(raw1, charIsSigned)[4 * k..4 * k + 4]
         == ExpandRgba(raw2, charIsSigned)[4 * k..4 * k + 4]
         == VoxelRgba(raw1[k], charIsSigned)
  {
    var r1, r2 := ExpandRgba(raw1, charIsSigned), ExpandRgba(raw2, charIsSigned);
    assert r1[4 * k..4 * k + 4] == [r1[4 * k], r1[4 * k + 1], r1[4 * k + 2], r1[4 * k + 3]];
    assert r2[4 * k..4 * k + 4] == [r2[4 * k], r2[4 * k + 1], r2[4 * k + 2], r2[4 * k + 3]];
  }

  /**
   * A volume of all-255 bytes: colour stays 255, but the alpha byte is 255 only
   * when `char` is unsigned; a signed `char` reads 255 as -1, below the threshold.
   */
  lemma {:induction false} MaxIntensityVolume(raw: seq<Byte>, charIsSigned: bool)
    requires forall k :: 0 <= k < |raw| ==> raw[k] == 255
    ensures |ExpandRgba(raw, charIsSigned)| == 4 * |raw|
    ensures forall m :: 0 <= m < 4 * |raw| ==>
      ExpandRgba(raw, charIsSigned)[m] == if m % 4 == 3 && charIsSigned then Transparent else Opaque
  {
    var rgba := ExpandRgba(raw, charIsSigned);
    forall m | 0 <= m < 4 * |raw|
      ensures rgba[m] == if m % 4 == 3 && charIsSigned then Transparent else Opaque
    {
      var k := m / 4;
      assert raw[k] == 255;
      var c := m - 4 * k;
      if c == 0 {
        assert rgba[4 * k] == 255;
      } else if c == 1 {
        assert rgba[4 * k + 1] == 255;
      } else if c == 2 {
        assert rgba[4 * k + 2] == 255;
      } else {
        assert rgba[4 * k + 3] == Alpha(255, charIsSigned);
      }
    }
  }

  /**
   * The four voxels [10, 30, 200, 0] (a 2 x 2 x 1 volume): intensity 10 and 0
   * are transparent, 30 is opaque, and 200 is opaque only under an unsigned `char`.
   */
  lemma SmallVolumeExample()
    ensures ExpandRgba([10, 30, 200, 0], true)
         == [10, 10, 10, 0, 30, 30, 30, 255, 200, 200, 200, 0, 0, 0, 0, 0]
    ensures ExpandRgba([10, 30, 200, 0], false)
         == [10, 10, 10, 0, 30, 30, 30, 255, 200, 200, 200, 255, 0, 0, 0, 0]
  {
    var raw: seq<Byte> := [10, 30, 200, 0];
    assert raw[0] == 10 && raw[1] == 30 && raw[2] == 200 && raw[3] == 0;
  }
}
