/** Per-camera setup of the feature: the ids of the three temporary textures
    and the descriptors they are requested with. */
module CameraSetup {
  import opened DenoiseConfig

  datatype ColorFormat = ARGB32 | OtherFormat(code: int)

  /** The part of a render texture descriptor the feature reads or writes. */
  datatype Descriptor = Descriptor(width: nat, height: nat, colorFormat: ColorFormat)

  datatype FilterMode = Point | Bilinear

  /** One temporary render texture request. */
  datatype TempRT = TempRT(id: int, desc: Descriptor, filter: FilterMode)

  function Abs(x: int): nat {
    if x < 0 then -x else x
  }

  /** `n / 100` rounded to the nearest integer, ties to the even neighbour,
      which is how `Mathf.RoundToInt` rounds; every size the feature computes
      is a whole number of hundredths. */
  function RoundPercent(n: nat): (r: nat)
    ensures 2 * Abs(n - r * 100) <= 100
    ensures 2 * Abs(n - r * 100) == 100 ==> r % 2 == 0
  {
    var q, m := n / 100, n % 100;
    if m < 50 || (m == 50 && q % 2 == 0) then q
    else q + 1
  }

  /** The two conditions above pin the rounded value down: no other integer
      meets them. */
  lemma RoundPercentUnique(n: nat, r': int)
    requires 2 * Abs(n - r' * 100) <= 100
    requires 2 * Abs(n - r' * 100) == 100 ==> r' % 2 == 0
    ensures r' == RoundPercent(n)
  {
    // two candidates within 50 of n are at most one step apart, and if they
    // differ both are ties; but two neighbours cannot both be even
  }

  /** Taking away a percentage never makes a size larger. */
  lemma ReductionShrinks(dim: nat, ds: DownSample)
    ensures dim * (100 - ds.Percent()) <= dim * 100
  {
    match ds
    case DISABLED =>
    case QUARTER =>
    case HALF =>
    case TRHEEQUARTER =>
  }

  /** One side of the working resolution: `dim * (100 - percent) / 100`,
      computed exactly and rounded as above. */
  function Scale(dim: nat, ds: DownSample): (r: nat)
    ensures 2 * Abs(r * 100 - dim * (100 - ds.Percent())) <= 100
    ensures r <= dim
    ensures ds == DISABLED ==> r == dim
  {
    var r := RoundPercent(dim * (100 - ds.Percent()));
    ReductionShrinks(dim, ds);
    assert ds == DISABLED ==> r == dim by {
      if ds == DISABLED {
        RoundPercentUnique(dim * 100, dim);
      }
    }
    r
  }

  /** The descriptor of temps 1 and 2: the camera's, forced to ARGB32 and
      scaled by the downsample setting. */
  function Downsampled(camera: Descriptor, ds: DownSample): (d: Descriptor)
    ensures d.colorFormat == ARGB32
    ensures 2 * Abs(d.width * 100 - camera.width * (100 - ds.Percent())) <= 100
    ensures 2 * Abs(d.height * 100 - camera.height * (100 - ds.Percent())) <= 100
    ensures d.width <= camera.width && d.height <= camera.height
    ensures ds == DISABLED ==> d.width == camera.width && d.height == camera.height
  {
    Descriptor(Scale(camera.width, ds), Scale(camera.height, ds), ARGB32)
  }

  /** The texture ids of one feature instance: slot k of instance `offset`
      is `offset * 3 + k`, in unbounded arithmetic. */
  function TempIds(offset: Int32): (ids: seq<int>)
    ensures |ids| == 3
    ensures forall k :: 0 <= k < 3 ==> ids[k] / 3 == offset && ids[k] % 3 == k
  {
    var n := offset * 3;
    [0 + n, 1 + n, 2 + n]
  }

  /** The three slots of one instance are different textures. */
  lemma TempIdsDistinct(offset: Int32)
    ensures forall i, j :: 0 <= i < j < 3 ==> TempIds(offset)[i] != TempIds(offset)[j]
  {
    var ids := TempIds(offset);
    forall i, j | 0 <= i < j < 3
      ensures ids[i] != ids[j]
    {
      assert ids[i] % 3 == i && ids[j] % 3 == j;
    }
  }

  /** Two instances share a texture id exactly when they have the same offset. */
  lemma TempIdsDisjoint(a: Int32, b: Int32)
    ensures a != b <==> (forall i, j :: 0 <= i < 3 && 0 <= j < 3 ==> TempIds(a)[i] != TempIds(b)[j])
  {
    if a != b {
      forall i, j | 0 <= i < 3 && 0 <= j < 3
        ensures TempIds(a)[i] != TempIds(b)[j]
      {
        assert TempIds(a)[i] / 3 == a && TempIds(b)[j] / 3 == b;
      }
    } else {
      assert TempIds(a)[0] == TempIds(b)[0];
    }
  }

  /** C#'s unchecked 32-bit `int` arithmetic. */
  function Wrap32(x: int): (r: Int32)
    ensures (r - x) % 0x1_0000_0000 == 0
    ensures -0x8000_0000 <= x < 0x8000_0000 ==> r == x
  {
    (x + 0x8000_0000) % 0x1_0000_0000 - 0x8000_0000
  }

  /** The ids as the source computes them: `n = idOffset * 3` and `k + n`
      both wrap around in 32 bits. */
  function TempIdsAsWritten(offset: Int32): (ids: seq<Int32>)
    ensures |ids| == 3
    ensures -715827882 <= offset <= 715827881 ==> ids == TempIds(offset)
  {
    var n := Wrap32(offset * 3);
    [Wrap32(0 + n), Wrap32(1 + n), Wrap32(2 + n)]
  }

  /** With wrap-around, two different offsets can share ids: offset
      1431655765 wraps `n` to -1 and takes ids -1, 0 and 1, and offset 0
      takes 0, 1 and 2. */
  lemma AsWrittenIdsCollide()
    ensures exists a: Int32, b: Int32 :: a != b && TempIdsAsWritten(a)[0] == TempIdsAsWritten(b)[1]
  {
    var a: Int32, b: Int32 := 0, 1431655765;
    assert Wrap32(b * 3) == -1;
    assert TempIdsAsWritten(b)[1] == 0;
    assert TempIdsAsWritten(a)[0] == 0;
  }

  /** The request the feature makes for each temporary texture: temps 1 and 2
      at the working resolution with bilinear filtering, temp 3 with the
      camera's own descriptor and point filtering. */
  function OnCameraSetup(data: DenoiseData, camera: Descriptor): (rts: seq<TempRT>)
    ensures |rts| == 3
    ensures forall k :: 0 <= k < 3 ==> rts[k].id == TempIds(data.idOffset)[k]
    ensures -715827882 <= data.idOffset <= 715827881 ==>
              forall k :: 0 <= k < 3 ==> rts[k].id == TempIdsAsWritten(data.idOffset)[k]
    ensures forall i, j :: 0 <= i < j < 3 ==> rts[i].id != rts[j].id
    ensures rts[0].desc == rts[1].desc
    ensures rts[0].desc.colorFormat == ARGB32
    ensures 2 * Abs(rts[0].desc.width * 100 - camera.width * (100 - data.downsample.Percent())) <= 100
    ensures 2 * Abs(rts[0].desc.height * 100 - camera.height * (100 - data.downsample.Percent())) <= 100
    ensures data.downsample == DISABLED ==>
              rts[0].desc.width == camera.width && rts[0].desc.height == camera.height
    ensures rts[2].desc == camera
    ensures rts[0].filter == Bilinear && rts[1].filter == Bilinear && rts[2].filter == Point
  {
    var ids := TempIds(data.idOffset);
    TempIdsDistinct(data.idOffset);
    var working := Downsampled(camera, data.downsample);
    [TempRT(ids[0], working, Bilinear), TempRT(ids[1], working, Bilinear), TempRT(ids[2], camera, Point)]
  }

  /** Two feature instances whose offsets differ request disjoint textures,
      whatever their other settings and cameras; instances with the same
      offset request the same three ids. */
  lemma SetupsDisjoint(d1: DenoiseData, c1: Descriptor, d2: DenoiseData, c2: Descriptor)
    ensures d1.idOffset != d2.idOffset <==>
              forall i, j :: 0 <= i < 3 && 0 <= j < 3 ==> OnCameraSetup(d1, c1)[i].id != OnCameraSetup(d2, c2)[j].id
  {
    var r1, r2 := OnCameraSetup(d1, c1), OnCameraSetup(d2, c2);
    TempIdsDisjoint(d1.idOffset, d2.idOffset);
    assert forall k :: 0 <= k < 3 ==> r1[k].id == TempIds(d1.idOffset)[k] && r2[k].id == TempIds(d2.idOffset)[k];
  }
}
