/**
  The inspector of the `AtmosphericScattering` component: the reflection
  probe resolution popup, which shows `ResolutionNames` and stores the
  matching entry of `Resolutions`, and the "Update LookUp Tables" button.
*/
module ScatteringEditor {
  import opened Wrappers
  import Decimal
  import Scattering
  import Ktx

  /** The labels of the resolution popup. */
  const ResolutionNames: seq<string> := ["32", "64", "128", "256"]

  /** The probe resolutions the popup offers, in popup order. */
  const Resolutions: seq<int> := [32, 64, 128, 256]

  /** The first position holding `x`, or -1 when `s` has none. */
  function IndexOf(s: seq<int>, x: int): (r: int)
    ensures -1 <= r < |s|
    ensures r == -1 <==> x !in s
    ensures 0 <= r ==> s[r] == x && forall k :: 0 <= k < r ==> s[k] != x
  {
    if s == [] then -1
    else if s[0] == x then 0
    else
      var r := IndexOf(s[1..], x);
      if r == -1 then -1 else r + 1
  }

  /** `GetResolutionIndex`: a linear scan that stops at the first match. */
  method GetResolutionIndex(resolution: int) returns (index: int)
    ensures index == IndexOf(Resolutions, resolution)
    ensures index == -1 <==> resolution !in Resolutions
    ensures 0 <= index ==> index < |Resolutions| && Resolutions[index] == resolution
  {
    var i := 0;
    while i < |Resolutions|
      invariant 0 <= i <= |Resolutions|
      invariant forall k :: 0 <= k < i ==> Resolutions[k] != resolution
    {
      if Resolutions[i] == resolution {
        IndexOfFirst(Resolutions, resolution, i);
        return i;
      }
      i := i + 1;
    }
    return -1;
  }

  /** A match with no earlier match is the position `IndexOf` finds. */
  lemma IndexOfFirst(s: seq<int>, x: int, i: nat)
    requires i < |s| && s[i] == x
    requires forall k :: 0 <= k < i ==> s[k] != x
    ensures IndexOf(s, x) == i
  {
    assert s[i] in s;
  }

  /** No resolution is offered twice. */
  predicate Distinct(s: seq<int>)
  {
    forall k, l :: 0 <= k < l < |s| ==> s[k] != s[l]
  }

  /**
    `GetResolution`: the resolution at a popup position. Indexing outside
    the table throws in the component; that case is `None` here.
  */
  function GetResolution(index: int): (r: Option<int>)
    ensures r.Some? <==> 0 <= index < |Resolutions|
    ensures r.Some? ==> r.value in Resolutions && IndexOf(Resolutions, r.value) == index
  {
    if 0 <= index < |Resolutions| then
      ResolutionsDistinct();
      IndexOfDistinct(Resolutions, index);
      Some(Resolutions[index])
    else None
  }

  lemma ResolutionsDistinct()
    ensures Distinct(Resolutions)
  {
  }

  /** In a sequence without repeats, every entry is found at its own position. */
  lemma IndexOfDistinct(s: seq<int>, i: nat)
    requires Distinct(s) && i < |s|
    ensures IndexOf(s, s[i]) == i
  {
    IndexOfFirst(s, s[i], i);
  }

  /** Looking a resolution up and reading it back returns it. */
  lemma ResolutionRoundTrip(resolution: int)
    requires resolution in Resolutions
    ensures GetResolution(IndexOf(Resolutions, resolution)) == Some(resolution)
  {
  }

  /** Each label is the decimal spelling of the resolution beside it. */
  lemma {:induction false} NamesSpellResolutions()
    ensures |ResolutionNames| == |Resolutions|
    ensures forall i :: 0 <= i < |Resolutions| ==> ResolutionNames[i] == Decimal.Decimal(Resolutions[i])
  {
    assert Decimal.Decimal(3) == "3" && Decimal.Decimal(2) == "2" && Decimal.Decimal(6) == "6";
    assert Decimal.Decimal(1) == "1" && Decimal.Decimal(5) == "5";
    assert Decimal.Decimal(32) == "32";
    assert Decimal.Decimal(64) == "64";
    assert Decimal.Decimal(12) == "12";
    assert Decimal.Decimal(128) == "128";
    assert Decimal.Decimal(25) == "25";
    assert Decimal.Decimal(256) == "256";
  }

  /**
    The "Update LookUp Tables" button: a press reruns the precompute only
    on a component whose material exists.
  */
  method UpdateLookUpTables(a: Scattering.AtmosphericScattering, pressed: bool, dev: Scattering.Device)
    requires a.Valid()
    modifies a`transmittanceLUT, a`gatherSumLUT, a`gatherSumLUT2, a`sunlightLUT, a`skylightLUT
    modifies a`skyboxLUT, a`skyboxLUT2, a`skyboxLUTSingle, a`skyboxData, a.skyboxData
    modifies a`gatherSumCount, a`skyboxCount, a`files
    ensures a.Valid()
    ensures !(pressed && old(a.IsInitialized())) ==> unchanged(a) && a.SkyboxTotal() == old(a.SkyboxTotal())
    ensures pressed && old(a.IsInitialized()) ==> a.Precomputed(dev, old(a.Current()))
    ensures pressed && old(a.IsInitialized()) && old(a.skyboxData) == null ==> fresh(a.skyboxData)
    ensures old(a.skyboxData) != null ==> a.skyboxData == old(a.skyboxData)
  {
    if pressed && a.IsInitialized() {
      a.CalculateAtmosphere(dev);
    }
  }

  /**
    An editor session: the component starts with its shader found, then the
    button is pressed twice. Each run writes fourteen files and advances
    both counters by 3; the second and third runs reuse the skybox
    accumulator the first one allocated.
  */
  method EditorSession(half: int -> Ktx.HalfBytes, dev: Scattering.Device) returns (a: Scattering.AtmosphericScattering)
    ensures a.Valid() && a.IsInitialized() && a.skyboxData != null
    ensures a.skyboxCount == 10 && a.gatherSumCount == 10 && |a.files| == 42
  {
    a := new Scattering.AtmosphericScattering(half);
    var error := a.Start(true, dev);
    UpdateLookUpTables(a, true, dev);
    UpdateLookUpTables(a, true, dev);
  }
}
