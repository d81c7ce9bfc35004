/**
  The precompute state of the `AtmosphericScattering` component: the
  lazily allocated lookup tables, the CPU skybox accumulator, the file-name
  counters and the sequence of scattering passes `CalculateAtmosphere`
  runs. GPU kernels and blits are modelled as the functions of a `Device`
  value: each takes the tables its pass method binds itself and returns a
  table of the declared size.
*/
module Scattering {
  import opened Wrappers
  import opened Tables
  import Ktx
  import Decimal

  // Table sizes (texels), as declared by the component.
  const SkyboxWidth: nat := 32
  const SkyboxHeight: nat := 128
  const SkyboxDepth: nat := 32
  const TransmitWidth: nat := 32
  const TransmitHeight: nat := 128
  const GatherWidth: nat := 32
  const GatherHeight: nat := 32
  const InscatterWidth: nat := 32
  const InscatterHeight: nat := 32
  const InscatterDepth: nat := 16

  /** Channel values of each table: width * height * depth * 4. */
  const SkyboxLength: nat := 32 * 128 * 32 * 4
  const TransmitLength: nat := 32 * 128 * 4
  const GatherLength: nat := 32 * 32 * 4
  const InscatterLength: nat := 32 * 32 * 16 * 4

  type SkyboxTable = t: Table | |t| == SkyboxLength witness Zeros(SkyboxLength)
  type TransmitTable = t: Table | |t| == TransmitLength witness Zeros(TransmitLength)
  type GatherTable = t: Table | |t| == GatherLength witness Zeros(GatherLength)
  type InscatterTable = t: Table | |t| == InscatterLength witness Zeros(InscatterLength)

  /** A GPU texture: its dimensions and channel values. */
  datatype Lut = Lut(width: nat, height: nat, depth: nat, texels: Table)

  datatype Point = Point(x: int, y: int, z: int)

  /** Per-frame inputs of the aerial-perspective kernel. */
  datatype CameraFrame = CameraFrame(
    bottomLeft: Point, topLeft: Point, topRight: Point, bottomRight: Point,
    cameraPosition: Point, lightDirection: Point)

  /**
    The GPU work the component issues, one function per pass, each over
    the tables its pass method binds itself.
  */
  datatype Device = Device(
    /** Material pass 0 into the transmittance table. */
    transmittance: TransmitTable,
    /** Kernel "SkyboxLUT": (_SkyboxLUT2, _SkyboxLUTSingle) from _TransmittanceLUT. */
    singleScatter: TransmitTable -> (SkyboxTable, SkyboxTable),
    /** Material pass 1: the gather-sum table of the bound _SkyboxLUT2. */
    gatherSum: SkyboxTable -> GatherTable,
    /** Kernel "MultipleScatterLUT": _SkyboxLUT2 from _TransmittanceLUT and _GatherSumLUT2. */
    multipleScatter: (TransmitTable, GatherTable) -> SkyboxTable,
    /** Material pass 3: sky irradiance from _SkyboxLUT and _TransmittanceLUT. */
    skylight: (SkyboxTable, TransmitTable) -> TransmitTable,
    /** Material pass 4: sun irradiance from _SkyboxLUT and _TransmittanceLUT. */
    sunlight: (SkyboxTable, TransmitTable) -> TransmitTable,
    /** Kernel "AerialPerspLUT": (inscattering, extinction) from _GatherSumLUT and _TransmittanceLUT. */
    aerialPerspective: (CameraFrame, GatherTable, TransmitTable) -> (InscatterTable, InscatterTable))

  /** The per-order tables one `CalculateAtmosphere` computes. */
  datatype Orders = Orders(
    transmittance: TransmitTable, single: SkyboxTable,
    sky1: SkyboxTable, gather1: GatherTable,
    sky2: SkyboxTable, gather2: GatherTable,
    sky3: SkyboxTable, gather3: GatherTable)

  /**
    The order-of-scattering chain: every multiple-scatter pass reads the
    gather-sum table of the order just computed (not the running total).
  */
  function RunOrders(dev: Device): Orders
  {
    var t := dev.transmittance;
    var (s1, single) := dev.singleScatter(t);
    var g1 := dev.gatherSum(s1);
    var s2 := dev.multipleScatter(t, g1);
    var g2 := dev.gatherSum(s2);
    var s3 := dev.multipleScatter(t, g2);
    Orders(t, single, s1, g1, s2, g2, s3, dev.gatherSum(s3))
  }

  /** The copy-then-add rule of both accumulators: copy when absent, add otherwise. */
  function AddInto(acc: Option<Table>, t: Table): (r: Table)
    requires acc.Some? ==> |acc.value| == |t|
    ensures |r| == |t|
    ensures acc.None? ==> r == t
    ensures acc.Some? ==> forall k :: 0 <= k < |r| ==> r[k] == acc.value[k] + t[k]
  {
    if acc.None? then t else Add(acc.value, t)
  }

  /**
    The read-back addition of `PrecomputeGatherSumAllTogether`: copies the
    running total's pixels into an array and adds the order's pixels to it
    one by one.
  */
  method AddPixels(sum: Table, korder: Table) returns (colors: Table)
    requires |sum| == |korder|
    ensures colors == Add(sum, korder)
  {
    var sumColors := new int[|sum|](k requires 0 <= k < |sum| => sum[k]);
    for i := 0 to sumColors.Length
      modifies sumColors
      invariant forall k :: 0 <= k < i ==> sumColors[k] == sum[k] + korder[k]
      invariant forall k :: i <= k < sumColors.Length ==> sumColors[k] == sum[k]
    {
      sumColors[i] := sumColors[i] + korder[i];
    }
    colors := sumColors[..];
  }

  /** Three orders accumulated one after the other onto `acc`. */
  function AccumulateOnto(acc: Option<Table>, a: Table, b: Table, c: Table): (r: Table)
    requires |a| == |b| == |c|
    requires acc.Some? ==> |acc.value| == |a|
    ensures |r| == |a|
  {
    AddInto(Some(AddInto(Some(AddInto(acc, a)), b)), c)
  }

  /** From an empty accumulator, three orders give exactly their sum. */
  lemma FreshAccumulation(a: Table, b: Table, c: Table)
    requires |a| == |b| == |c|
    ensures AccumulateOnto(None, a, b, c) == Total([a, b, c])
  {
    var ts := [a, b, c];
    assert ts[..2] == [a, b] && [a, b][..1] == [a];
    assert Accumulate([a, b]) == Add(a, b);
    assert Accumulate(ts) == Add(Add(a, b), c);
    AccumulateIsTotal(ts);
  }

  /** The accumulators are never reset: a later run adds its sum onto the earlier total. */
  lemma RepeatedAccumulation(acc: Table, a: Table, b: Table, c: Table)
    requires |acc| == |a| == |b| == |c|
    ensures AccumulateOnto(Some(acc), a, b, c) == Add(acc, Total([a, b, c]))
  {
    FreshAccumulation(a, b, c);
    AddAssociative(acc, a, b);
    AddAssociative(acc, Add(a, b), c);
    AddAssociative(a, b, c);
  }

  /** The names one run persists, given the two counters before it. */
  function RunFileNames(skyCount: nat, gatherCount: nat): (r: seq<string>)
    ensures |r| == 14
  {
    ["transmittance",
     "skyboxlut" + Decimal.Decimal(skyCount), "skyboxlutsingle",
     "gathersum" + Decimal.Decimal(gatherCount), "gathersum",
     "skyboxlut" + Decimal.Decimal(skyCount + 1),
     "gathersum" + Decimal.Decimal(gatherCount + 1), "gathersum",
     "skyboxlut" + Decimal.Decimal(skyCount + 2),
     "gathersum" + Decimal.Decimal(gatherCount + 2), "gathersum",
     "skyboxlut", "skylightlut", "sunlightlut"]
  }

  /** From fresh counters, one run persists exactly these names in this order. */
  lemma FirstRunFileNames()
    ensures RunFileNames(1, 1) ==
      ["transmittance", "skyboxlut1", "skyboxlutsingle", "gathersum1", "gathersum",
       "skyboxlut2", "gathersum2", "gathersum", "skyboxlut3", "gathersum3", "gathersum",
       "skyboxlut", "skylightlut", "sunlightlut"]
  {
    assert Decimal.Decimal(1) == "1" && Decimal.Decimal(2) == "2" && Decimal.Decimal(3) == "3";
    assert "skyboxlut" + "1" == "skyboxlut1" && "skyboxlut" + "2" == "skyboxlut2" && "skyboxlut" + "3" == "skyboxlut3";
    assert "gathersum" + "1" == "gathersum1" && "gathersum" + "2" == "gathersum2" && "gathersum" + "3" == "gathersum3";
  }

  /** Distinct counter values give distinct file names. */
  lemma NumberedNamesDiffer(prefix: string, m: nat, n: nat)
    requires m != n
    ensures prefix + Decimal.Decimal(m) != prefix + Decimal.Decimal(n)
  {
    if prefix + Decimal.Decimal(m) == prefix + Decimal.Decimal(n) {
      assert (prefix + Decimal.Decimal(m))[|prefix|..] == Decimal.Decimal(m);
      assert (prefix + Decimal.Decimal(n))[|prefix|..] == Decimal.Decimal(n);
      Decimal.DecimalInjective(m, n);
    }
  }

  /** Texture contents agree with its dimensions. */
  predicate WellShaped(lut: Lut)
  {
    |lut.texels| == lut.width * lut.height * lut.depth * 4
  }

  /**
    A file name as the component builds it: a fixed name, or a base name
    followed by the decimal spelling of a counter.
  */
  datatype FileName = Plain(base: string) | Numbered(base: string, count: nat)

  /** The name as a string. */
  function Spelling(f: FileName): (s: string)
    ensures f.base <= s
    ensures f.Plain? ==> s == f.base
    ensures f.Numbered? ==> |f.base| < |s| && forall i :: |f.base| <= i < |s| ==> Decimal.IsDigit(s[i])
    ensures f.Numbered? ==> Decimal.DigitsValue(s[|f.base|..]) == f.count
  {
    match f
    case Plain(base) => base
    case Numbered(base, count) =>
      Decimal.DecimalRoundTrip(count);
      assert (base + Decimal.Decimal(count))[|base|..] == Decimal.Decimal(count);
      base + Decimal.Decimal(count)
  }

  /** One call of `SaveTextureAsKTX`: the texture, the file name and the tiling flag. */
  datatype Save = Save(lut: Lut, file: FileName, tile3D: bool)

  /** The saves of the first order: transmittance, the first skybox order and single scattering. */
  function FirstSaves(o: Orders, skyCount: nat): (r: seq<Save>)
    ensures |r| == 3
    ensures forall i :: 0 <= i < |r| ==> WellShaped(r[i].lut) && (r[i].tile3D <==> r[i].lut.depth > 1)
  {
    [Save(TransmittanceLut(o.transmittance), Plain("transmittance"), false)]
    + [Save(SkyboxLut2(o.sky1), Numbered("skyboxlut", skyCount), true),
       Save(SkyboxLutSingle(o.single), Plain("skyboxlutsingle"), true)]
  }

  /** The saves after each order's gather sum: the order's table, then the running total. */
  function GatherSaves(g: GatherTable, total: GatherTable, gatherCount: nat): (r: seq<Save>)
    ensures |r| == 2
    ensures forall i :: 0 <= i < |r| ==> WellShaped(r[i].lut) && (r[i].tile3D <==> r[i].lut.depth > 1)
  {
    [Save(GatherSumLut2(g), Numbered("gathersum", gatherCount), false),
     Save(GatherSumLut(total), Plain("gathersum"), false)]
  }

  /** The saves after the last order: the summed skybox and the two irradiance tables. */
  function FinalSaves(sky: SkyboxTable, skylight: TransmitTable, sunlight: TransmitTable): (r: seq<Save>)
    ensures |r| == 3
    ensures forall i :: 0 <= i < |r| ==> WellShaped(r[i].lut) && (r[i].tile3D <==> r[i].lut.depth > 1)
  {
    [Save(SkyboxLut(sky), Plain("skyboxlut"), true),
     Save(SkylightLut(skylight), Plain("skylightlut"), false),
     Save(SunlightLut(sunlight), Plain("sunlightlut"), false)]
  }

  /**
    The saves one `CalculateAtmosphere` performs, from the device and the
    counters and accumulators before it.
  */
  function RunSaves(dev: Device, skyCount: nat, gatherCount: nat, gatherAcc: Option<Table>, skyAcc: Option<Table>): (r: seq<Save>)
    requires gatherAcc.Some? ==> |gatherAcc.value| == GatherLength
    requires skyAcc.Some? ==> |skyAcc.value| == SkyboxLength
    ensures |r| == 14
  {
    var o := RunOrders(dev);
    var g1 := AddInto(gatherAcc, o.gather1);
    var g2 := AddInto(Some(g1), o.gather2);
    var g3 := AddInto(Some(g2), o.gather3);
    var sky := AccumulateOnto(skyAcc, o.sky1, o.sky2, o.sky3);
    SavesOf(o, g1, g2, g3, sky, dev.skylight(sky, o.transmittance), dev.sunlight(sky, o.transmittance), skyCount, gatherCount)
  }

  /** Appending `a`, `b` and `c`, then `d`, to a log appends `a + b + c + d`. */
  lemma Appended(f0: seq<Save>, f1: seq<Save>, f2: seq<Save>, a: seq<Save>, b: seq<Save>, c: seq<Save>, d: seq<Save>)
    requires f1 == f0 + a + b + c && f2 == f1 + d
    ensures f2 == f0 + (a + b + c + d)
  {
  }

  /** Appending `a`, then `b`, to a log appends `a + b`. */
  lemma Grouped(f0: seq<Save>, f1: seq<Save>, f2: seq<Save>, a: seq<Save>, b: seq<Save>)
    requires f1 == f0 + a && f2 == f1 + b
    ensures f2 == f0 + (a + b)
  {
  }

  /** The saves of one run, given every table it persists. */
  function SavesOf(o: Orders, g1: GatherTable, g2: GatherTable, g3: GatherTable, sky: SkyboxTable,
                   skylight: TransmitTable, sunlight: TransmitTable, skyCount: nat, gatherCount: nat): (r: seq<Save>)
    ensures |r| == 14
  {
    FirstSaves(o, skyCount) + GatherSaves(o.gather1, g1, gatherCount)
    + LaterSaves(o.sky2, o.gather2, g2, o.sky3, o.gather3, g3, skyCount + 1, gatherCount + 1)
    + FinalSaves(sky, skylight, sunlight)
  }

  /** The saves of the second and third orders. */
  function LaterSaves(sky2: SkyboxTable, gather2: GatherTable, total2: GatherTable,
                      sky3: SkyboxTable, gather3: GatherTable, total3: GatherTable,
                      skyCount: nat, gatherCount: nat): (r: seq<Save>)
    ensures |r| == 6
  {
    [Save(SkyboxLut2(sky2), Numbered("skyboxlut", skyCount), true)]
    + GatherSaves(gather2, total2, gatherCount)
    + [Save(SkyboxLut2(sky3), Numbered("skyboxlut", skyCount + 1), true)]
    + GatherSaves(gather3, total3, gatherCount + 1)
  }

  /** The bytes of the file a save writes. */
  function FileContents(s: Save, half: int -> Ktx.HalfBytes): (r: seq<Ktx.Byte>)
    requires WellShaped(s.lut)
    ensures |r| == Ktx.HeaderLength + 2 * |s.lut.texels|
  {
    Ktx.KtxFile(s.lut.width, s.lut.height, s.lut.depth, s.lut.texels, s.tile3D, half)
  }

  /** `RunSaves` as the concatenation of the saves of its phases. */
  lemma RunSavesUnfold(dev: Device, skyCount: nat, gatherCount: nat, gatherAcc: Option<Table>, skyAcc: Option<Table>)
    requires gatherAcc.Some? ==> |gatherAcc.value| == GatherLength
    requires skyAcc.Some? ==> |skyAcc.value| == SkyboxLength
    ensures var o := RunOrders(dev);
      var g1 := AddInto(gatherAcc, o.gather1);
      var g2 := AddInto(Some(g1), o.gather2);
      var sky := AccumulateOnto(skyAcc, o.sky1, o.sky2, o.sky3);
      RunSaves(dev, skyCount, gatherCount, gatherAcc, skyAcc)
      == FirstSaves(o, skyCount) + GatherSaves(o.gather1, g1, gatherCount)
         + LaterSaves(o.sky2, o.gather2, g2, o.sky3, o.gather3, AddInto(Some(g2), o.gather3), skyCount + 1, gatherCount + 1)
         + FinalSaves(sky, dev.skylight(sky, o.transmittance), dev.sunlight(sky, o.transmittance))
  {
  }

  /** The file names of a list of saves. */
  function Names(saves: seq<Save>): (r: seq<string>)
    ensures |r| == |saves|
  {
    seq(|saves|, i requires 0 <= i < |saves| => Spelling(saves[i].file))
  }

  /** One run writes exactly the files `RunFileNames` lists, in that order. */
  lemma SavesOfNames(o: Orders, g1: GatherTable, g2: GatherTable, g3: GatherTable, sky: SkyboxTable,
                     skylight: TransmitTable, sunlight: TransmitTable, skyCount: nat, gatherCount: nat)
    ensures Names(SavesOf(o, g1, g2, g3, sky, skylight, sunlight, skyCount, gatherCount)) == RunFileNames(skyCount, gatherCount)
  {
    var first := FirstSaves(o, skyCount);
    var gather := GatherSaves(o.gather1, g1, gatherCount);
    var later := LaterSaves(o.sky2, o.gather2, g2, o.sky3, o.gather3, g3, skyCount + 1, gatherCount + 1);
    var final := FinalSaves(sky, skylight, sunlight);
    NamesAppend(first + gather + later, final);
    NamesAppend(first + gather, later);
    NamesAppend(first, gather);
    FirstSavesNames(o, skyCount);
    GatherSavesNames(o.gather1, g1, gatherCount);
    LaterSavesNames(o.sky2, o.gather2, g2, o.sky3, o.gather3, g3, skyCount + 1, gatherCount + 1);
    FinalSavesNames(sky, skylight, sunlight);
    RunFileNamesSplit(skyCount, gatherCount);
  }

  /** The run's names, phase by phase. */
  lemma RunFileNamesSplit(skyCount: nat, gatherCount: nat)
    ensures RunFileNames(skyCount, gatherCount)
      == ["transmittance", "skyboxlut" + Decimal.Decimal(skyCount), "skyboxlutsingle"]
         + ["gathersum" + Decimal.Decimal(gatherCount), "gathersum"]
         + ["skyboxlut" + Decimal.Decimal(skyCount + 1), "gathersum" + Decimal.Decimal(gatherCount + 1), "gathersum",
            "skyboxlut" + Decimal.Decimal(skyCount + 1 + 1), "gathersum" + Decimal.Decimal(gatherCount + 1 + 1), "gathersum"]
         + ["skyboxlut", "skylightlut", "sunlightlut"]
  {
  }

  /** The names the first order writes. */
  lemma FirstSavesNames(o: Orders, skyCount: nat)
    ensures Names(FirstSaves(o, skyCount)) == ["transmittance", "skyboxlut" + Decimal.Decimal(skyCount), "skyboxlutsingle"]
  {
  }

  /** The names each gather step writes. */
  lemma GatherSavesNames(g: GatherTable, total: GatherTable, gatherCount: nat)
    ensures Names(GatherSaves(g, total, gatherCount)) == ["gathersum" + Decimal.Decimal(gatherCount), "gathersum"]
  {
  }

  /** The names written after the last order. */
  lemma FinalSavesNames(sky: SkyboxTable, skylight: TransmitTable, sunlight: TransmitTable)
    ensures Names(FinalSaves(sky, skylight, sunlight)) == ["skyboxlut", "skylightlut", "sunlightlut"]
  {
  }

  /** The names the second and third orders write. */
  lemma LaterSavesNames(sky2: SkyboxTable, gather2: GatherTable, total2: GatherTable,
                        sky3: SkyboxTable, gather3: GatherTable, total3: GatherTable,
                        skyCount: nat, gatherCount: nat)
    ensures Names(LaterSaves(sky2, gather2, total2, sky3, gather3, total3, skyCount, gatherCount))
      == ["skyboxlut" + Decimal.Decimal(skyCount), "gathersum" + Decimal.Decimal(gatherCount), "gathersum",
          "skyboxlut" + Decimal.Decimal(skyCount + 1), "gathersum" + Decimal.Decimal(gatherCount + 1), "gathersum"]
  {
    var r := LaterSaves(sky2, gather2, total2, sky3, gather3, total3, skyCount, gatherCount);
    assert r[0].file == Numbered("skyboxlut", skyCount) && r[3].file == Numbered("skyboxlut", skyCount + 1);
    assert r[1].file == Numbered("gathersum", gatherCount) && r[4].file == Numbered("gathersum", gatherCount + 1);
    assert r[2].file == Plain("gathersum") && r[5].file == Plain("gathersum");
  }

  /** Names distribute over concatenation. */
  lemma NamesAppend(a: seq<Save>, b: seq<Save>)
    ensures Names(a + b) == Names(a) + Names(b)
  {
  }

  /** One run writes exactly the files `RunFileNames` lists, in that order. */
  lemma RunSavesNames(dev: Device, skyCount: nat, gatherCount: nat, gatherAcc: Option<Table>, skyAcc: Option<Table>)
    requires gatherAcc.Some? ==> |gatherAcc.value| == GatherLength
    requires skyAcc.Some? ==> |skyAcc.value| == SkyboxLength
    ensures Names(RunSaves(dev, skyCount, gatherCount, gatherAcc, skyAcc)) == RunFileNames(skyCount, gatherCount)
  {
    var o := RunOrders(dev);
    var g1 := AddInto(gatherAcc, o.gather1);
    var g2 := AddInto(Some(g1), o.gather2);
    var g3 := AddInto(Some(g2), o.gather3);
    var sky := AccumulateOnto(skyAcc, o.sky1, o.sky2, o.sky3);
    SavesOfNames(o, g1, g2, g3, sky, dev.skylight(sky, o.transmittance), dev.sunlight(sky, o.transmittance), skyCount, gatherCount);
  }

  /** What `Validate` inspects: the scene's skybox material and the component's inspector fields. */
  datatype Scene = Scene(
    /** `RenderSettings.skybox`: None when null, else the name of its shader. */
    skyboxShader: Option<string>,
    /** `ScatteringComputeShader != null`. */
    hasComputeShader: bool,
    /** `Sun != null`. */
    hasSun: bool)

  /** The exception `Start` throws when the post-process shader is not found. */
  const MissingShaderError := "Critical Error: \"Hidden/FrostbiteAtmosphere\" shader is missing. Make sure it is included in \"Always Included Shaders\" in ProjectSettings/Graphics."

  const SkyboxShaderName := "Skybox/AtmosphericScattering"

  /** The problems `Validate` can report, in the order it checks them. */
  datatype Problem = NoSkybox | WrongSkyboxShader | NoComputeShader | NoSun

  /** The line of text reported for each problem. */
  function Message(p: Problem): string
  {
    match p
    case NoSkybox => "! RenderSettings.skybox is null"
    case WrongSkyboxShader => "! RenderSettings.skybox material is using wrong shader"
    case NoComputeShader => "! Atmospheric Scattering compute shader is missing (General Settings)"
    case NoSun => "! Sun (main directional light) isn't set (General Settings)"
  }

  /** The position of a problem in the order the checks run. */
  function Rank(p: Problem): nat
  {
    match p
    case NoSkybox => 0
    case WrongSkyboxShader => 0
    case NoComputeShader => 1
    case NoSun => 2
  }

  /** The scene is set up the way the component's shaders need it. */
  predicate Configured(scene: Scene)
  {
    scene.skyboxShader == Some(SkyboxShaderName) && scene.hasComputeShader && scene.hasSun
  }

  /** The problems found in a scene, each at most once, in check order. */
  function Problems(scene: Scene): (r: seq<Problem>)
    ensures r == [] <==> Configured(scene)
    ensures NoSkybox in r <==> scene.skyboxShader.None?
    ensures WrongSkyboxShader in r <==> scene.skyboxShader.Some? && scene.skyboxShader.value != SkyboxShaderName
    ensures NoComputeShader in r <==> !scene.hasComputeShader
    ensures NoSun in r <==> !scene.hasSun
    ensures forall i, j :: 0 <= i < j < |r| ==> Rank(r[i]) < Rank(r[j])
  {
    var skybox :=
      if scene.skyboxShader.None? then [NoSkybox]
      else if scene.skyboxShader.value != SkyboxShaderName then [WrongSkyboxShader]
      else [];
    var compute := if !scene.hasComputeShader then [NoComputeShader] else [];
    var sun := if !scene.hasSun then [NoSun] else [];
    skybox + compute + sun
  }

  /** `StringBuilder.AppendLine` for each problem: its message, then a line break. */
  function Report(ps: seq<Problem>): (r: string)
    ensures |ps| <= |r|
    ensures ps != [] ==> Message(ps[0]) + "\n" <= r
  {
    if ps == [] then "" else Message(ps[0]) + "\n" + Report(ps[1..])
  }

  /** The report of one problem is its message on a line of its own. */
  lemma ReportSingle(p: Problem)
    ensures Report([p]) == Message(p) + "\n"
  {
    assert [p][1..] == [];
  }

  /** Reporting two lists of problems one after the other appends their reports. */
  lemma {:induction false} ReportAppend(a: seq<Problem>, b: seq<Problem>)
    ensures Report(a + b) == Report(a) + Report(b)
    decreases |a|
  {
    if a == [] {
      assert a + b == b;
    } else {
      assert (a + b)[1..] == a[1..] + b;
      ReportAppend(a[1..], b);
    }
  }

  /** `Validate`: the report of every problem found, the empty string when there is none. */
  function Validate(scene: Scene): (r: string)
    ensures r == "" <==> Configured(scene)
    ensures !Configured(scene) ==> Message(Problems(scene)[0]) + "\n" <= r
  {
    Report(Problems(scene))
  }
  /** The line one check appends: the problem's message when it is found, nothing otherwise. */
  function Line(found: bool, p: Problem): (r: string)
    ensures found <==> r != ""
    ensures found ==> r == Report([p])
  {
    ReportSingle(p);
    if found then Message(p) + "\n" else ""
  }

  /**
    The whole text `Validate` returns: the skybox line (missing, or else
    wrong shader), then the compute-shader line, then the sun line, each
    present exactly when its check fails.
  */
  lemma ValidateText(scene: Scene)
    ensures Validate(scene)
      == (if scene.skyboxShader.None? then Line(true, NoSkybox)
          else Line(scene.skyboxShader.value != SkyboxShaderName, WrongSkyboxShader))
         + Line(!scene.hasComputeShader, NoComputeShader)
         + Line(!scene.hasSun, NoSun)
  {
    var skybox :=
      if scene.skyboxShader.None? then [NoSkybox]
      else if scene.skyboxShader.value != SkyboxShaderName then [WrongSkyboxShader]
      else [];
    var compute := if !scene.hasComputeShader then [NoComputeShader] else [];
    var sun := if !scene.hasSun then [NoSun] else [];
    assert Problems(scene) == skybox + compute + sun;
    ReportAppend(skybox + compute, sun);
    ReportAppend(skybox, compute);
  }


  /**
    The part of the component's state that the scattering orders change:
    the tables, the CPU skybox total, both counters and the saved files.
  */
  datatype Snapshot = Snapshot(
    transmittance: Option<TransmitTable>,
    skybox2: Option<SkyboxTable>,
    skyboxSingle: Option<SkyboxTable>,
    gatherSum2: Option<GatherTable>,
    gatherSum: Option<GatherTable>,
    skyboxTotal: Option<Table>,
    skyCount: int,
    gatherCount: int,
    files: seq<Save>)

  /** Both counters positive, and the skybox total of skybox size. */
  predicate Counted(s: Snapshot)
  {
    && 1 <= s.skyCount && 1 <= s.gatherCount
    && (s.skyboxTotal.Some? ==> |s.skyboxTotal.value| == SkyboxLength)
  }

  /**
    The state after the first order: transmittance, single scattering into
    `_skyboxLUT2` and the single-scattering table, its gather sum, and both
    accumulators.
  */
  function AfterFirstOrder(s: Snapshot, dev: Device): (r: Snapshot)
    requires Counted(s)
    ensures Counted(r)
  {
    var o := RunOrders(dev);
    var total := AddInto(s.gatherSum, o.gather1);
    Snapshot(Some(o.transmittance), Some(o.sky1), Some(o.single), Some(o.gather1), Some(total),
             Some(AddInto(s.skyboxTotal, o.sky1)), s.skyCount + 1, s.gatherCount + 1,
             s.files + FirstSaves(o, s.skyCount) + GatherSaves(o.gather1, total, s.gatherCount))
  }

  /** The state after the second and third orders, each from the previous order's gather sum. */
  function AfterLaterOrders(s: Snapshot, dev: Device): (r: Snapshot)
    requires Counted(s)
    ensures Counted(r)
  {
    var o := RunOrders(dev);
    var total2 := AddInto(s.gatherSum, o.gather2);
    var total3 := AddInto(Some(total2), o.gather3);
    s.(skybox2 := Some(o.sky3), gatherSum2 := Some(o.gather3), gatherSum := Some(total3),
       skyboxTotal := Some(AddInto(Some(AddInto(s.skyboxTotal, o.sky2)), o.sky3)),
       skyCount := s.skyCount + 2, gatherCount := s.gatherCount + 2,
       files := s.files + LaterSaves(o.sky2, o.gather2, total2, o.sky3, o.gather3, total3, s.skyCount, s.gatherCount))
  }

  /**
    The state after one later order: multiple scattering from the
    transmittance and the previous order's own gather sum, its gather sum,
    and both accumulators.
  */
  function AfterMultipleOrder(s: Snapshot, dev: Device): (r: Snapshot)
    requires Counted(s) && s.transmittance.Some? && s.gatherSum2.Some?
    ensures Counted(r) && r.transmittance == s.transmittance && r.gatherSum2.Some?
  {
    var sky := dev.multipleScatter(s.transmittance.value, s.gatherSum2.value);
    var g := dev.gatherSum(sky);
    var total := AddInto(s.gatherSum, g);
    s.(skybox2 := Some(sky), gatherSum2 := Some(g), gatherSum := Some(total),
       skyboxTotal := Some(AddInto(s.skyboxTotal, sky)),
       skyCount := s.skyCount + 1, gatherCount := s.gatherCount + 1,
       files := s.files + ([Save(SkyboxLut2(sky), Numbered("skyboxlut", s.skyCount), true)] + GatherSaves(g, total, s.gatherCount)))
  }

  /** Two later orders after the first one are the second and third orders of the chain. */
  lemma TwoLaterOrders(s: Snapshot, dev: Device)
    requires Counted(s)
    requires s.transmittance == Some(RunOrders(dev).transmittance) && s.gatherSum2 == Some(RunOrders(dev).gather1)
    ensures AfterMultipleOrder(AfterMultipleOrder(s, dev), dev) == AfterLaterOrders(s, dev)
  {
    var o := RunOrders(dev);
    var s2 := AfterMultipleOrder(s, dev);
    var total2 := AddInto(s.gatherSum, o.gather2);
    var a := [Save(SkyboxLut2(o.sky2), Numbered("skyboxlut", s.skyCount), true)] + GatherSaves(o.gather2, total2, s.gatherCount);
    var b := [Save(SkyboxLut2(o.sky3), Numbered("skyboxlut", s.skyCount + 1), true)]
             + GatherSaves(o.gather3, AddInto(Some(total2), o.gather3), s.gatherCount + 1);
    assert s2.files == s.files + a;
    assert AfterMultipleOrder(s2, dev).files == s.files + a + b;
    assert a + b == LaterSaves(o.sky2, o.gather2, total2, o.sky3, o.gather3, AddInto(Some(total2), o.gather3), s.skyCount, s.gatherCount);
  }

  /**
    After the three orders, the per-order tables hold the third order, both
    accumulators have every order added onto what they held before, each
    counter has advanced by three and eleven files have been saved.
  */
  lemma ThreeOrders(s: Snapshot, dev: Device)
    requires Counted(s)
    ensures var r := AfterLaterOrders(AfterFirstOrder(s, dev), dev);
      var o := RunOrders(dev);
      var g1 := AddInto(s.gatherSum, o.gather1);
      var g2 := AddInto(Some(g1), o.gather2);
      && r.transmittance == Some(o.transmittance) && r.skyboxSingle == Some(o.single)
      && r.skybox2 == Some(o.sky3) && r.gatherSum2 == Some(o.gather3)
      && r.gatherSum == Some(AccumulateOnto(s.gatherSum, o.gather1, o.gather2, o.gather3))
      && r.skyboxTotal == Some(AccumulateOnto(s.skyboxTotal, o.sky1, o.sky2, o.sky3))
      && r.skyCount == s.skyCount + 3 && r.gatherCount == s.gatherCount + 3
      && r.files == s.files + FirstSaves(o, s.skyCount) + GatherSaves(o.gather1, g1, s.gatherCount)
                    + LaterSaves(o.sky2, o.gather2, g2, o.sky3, o.gather3, AddInto(Some(g2), o.gather3),
                                 s.skyCount + 1, s.gatherCount + 1)
  {
  }
  /**
    The log of a whole run: the saves of the three orders followed by the
    saves of the final tables are the run's fourteen saves.
  */
  lemma RunLog(s: Snapshot, dev: Device)
    requires Counted(s)
    ensures var o := RunOrders(dev);
      var sky := AccumulateOnto(s.skyboxTotal, o.sky1, o.sky2, o.sky3);
      AfterLaterOrders(AfterFirstOrder(s, dev), dev).files
        + FinalSaves(sky, dev.skylight(sky, o.transmittance), dev.sunlight(sky, o.transmittance))
      == s.files + RunSaves(dev, s.skyCount, s.gatherCount, s.gatherSum, s.skyboxTotal)
  {
    var o := RunOrders(dev);
    var g1 := AddInto(s.gatherSum, o.gather1);
    var g2 := AddInto(Some(g1), o.gather2);
    var sky := AccumulateOnto(s.skyboxTotal, o.sky1, o.sky2, o.sky3);
    var r := AfterLaterOrders(AfterFirstOrder(s, dev), dev);
    var a, b := FirstSaves(o, s.skyCount), GatherSaves(o.gather1, g1, s.gatherCount);
    var c := LaterSaves(o.sky2, o.gather2, g2, o.sky3, o.gather3, AddInto(Some(g2), o.gather3), s.skyCount + 1, s.gatherCount + 1);
    var d := FinalSaves(sky, dev.skylight(sky, o.transmittance), dev.sunlight(sky, o.transmittance));
    ThreeOrders(s, dev);
    assert r.files == s.files + a + b + c;
    RunSavesUnfold(dev, s.skyCount, s.gatherCount, s.gatherSum, s.skyboxTotal);
    assert RunSaves(dev, s.skyCount, s.gatherCount, s.gatherSum, s.skyboxTotal) == a + b + c + d;
    Appended(s.files, r.files, r.files + d, a, b, c, d);
  }


  // Textures as the component creates them (name, dimensions).
  function TransmittanceLut(t: Table): Lut { Lut(TransmitWidth, TransmitHeight, 1, t) }
  function GatherSumLut(t: Table): Lut { Lut(GatherWidth, GatherHeight, 1, t) }
  function GatherSumLut2(t: Table): Lut { Lut(GatherWidth, GatherHeight, 1, t) }
  function SkylightLut(t: Table): Lut { Lut(TransmitWidth, TransmitHeight, 1, t) }
  function SunlightLut(t: Table): Lut { Lut(TransmitWidth, TransmitHeight, 1, t) }
  function SkyboxLut(t: Table): Lut { Lut(SkyboxWidth, SkyboxHeight, SkyboxDepth, t) }
  function SkyboxLut2(t: Table): Lut { Lut(SkyboxWidth, SkyboxHeight, SkyboxDepth, t) }
  function SkyboxLutSingle(t: Table): Lut { Lut(SkyboxWidth, SkyboxHeight, SkyboxDepth, t) }
  function InscatteringLut(t: Table): Lut { Lut(InscatterWidth, InscatterHeight, InscatterDepth, t) }
  function ExtinctionLut(t: Table): Lut { Lut(InscatterWidth, InscatterHeight, InscatterDepth, t) }

  class AtmosphericScattering {
    /** `Half.GetBytes((Half)x)`: the two bytes stored for one value. */
    const half: int -> Ktx.HalfBytes

    /** `_frostbiteMat != null`. */
    var frostbiteMat: bool

    // The render textures, None while null; their sizes are fixed by their types.
    var transmittanceLUT: Option<TransmitTable>
    var gatherSumLUT: Option<GatherTable>
    var gatherSumLUT2: Option<GatherTable>
    var sunlightLUT: Option<TransmitTable>
    var skylightLUT: Option<TransmitTable>
    var inscatteringLUT: Option<InscatterTable>
    var extinctionLUT: Option<InscatterTable>
    var skyboxLUT: Option<SkyboxTable>
    var skyboxLUT2: Option<SkyboxTable>
    var skyboxLUTSingle: Option<SkyboxTable>

    /** `_skyboxData`: the CPU running total of the skybox orders. */
    var skyboxData: array?<int>

    var gatherSumCount: int
    var skyboxCount: int
    var aerialPerspPersisted: bool

    /** The textures saved so far, in order, with their file names. */
    var files: seq<Save>

    ghost predicate Valid()
      reads this, skyboxData
    {
      && (skyboxData != null ==> skyboxData.Length == SkyboxLength)
      && 1 <= gatherSumCount && 1 <= skyboxCount
    }

    /** The skybox accumulator's contents, None while `_skyboxData` is null. */
    ghost function SkyboxTotal(): Option<Table>
      reads this`skyboxData, skyboxData
    {
      if skyboxData == null then None else Some(skyboxData[..])
    }

    /** The state the scattering orders change, as a value. */
    ghost function Current(): Snapshot
      reads this, skyboxData
    {
      Snapshot(transmittanceLUT, skyboxLUT2, skyboxLUTSingle, gatherSumLUT2, gatherSumLUT, SkyboxTotal(),
               skyboxCount, gatherSumCount, files)
    }

    /**
      What one precompute run leaves, from the state `before` it started in:
      the per-order tables of the third order, both totals grown by the
      three orders, the final skybox table equal to the CPU total, the
      irradiance tables computed from it, both counters advanced by 3 and
      the run's fourteen saves appended to the log.
    */
    ghost predicate Precomputed(dev: Device, before: Snapshot)
      reads this`transmittanceLUT, this`skyboxLUTSingle, this`skyboxLUT2, this`gatherSumLUT2, this`gatherSumLUT
      reads this`skyboxData, skyboxData, this`skyboxLUT, this`skylightLUT, this`sunlightLUT
      reads this`skyboxCount, this`gatherSumCount, this`files
    {
      var o := RunOrders(dev);
      && Counted(before)
      && skyboxData != null && skyboxLUT.Some?
      && transmittanceLUT == Some(o.transmittance)
      && skyboxLUTSingle == Some(o.single)
      && skyboxLUT2 == Some(o.sky3) && gatherSumLUT2 == Some(o.gather3)
      && gatherSumLUT == Some(AccumulateOnto(before.gatherSum, o.gather1, o.gather2, o.gather3))
      && SkyboxTotal() == Some(AccumulateOnto(before.skyboxTotal, o.sky1, o.sky2, o.sky3))
      && skyboxLUT == SkyboxTotal()
      && skylightLUT == Some(dev.skylight(skyboxLUT.value, o.transmittance))
      && sunlightLUT == Some(dev.sunlight(skyboxLUT.value, o.transmittance))
      && skyboxCount == before.skyCount + 3 && gatherSumCount == before.gatherCount + 3
      && files == before.files + RunSaves(dev, before.skyCount, before.gatherCount, before.gatherSum, before.skyboxTotal)
    }

    /** A component before `Start`: no material, no tables, both counters at 1. */
    constructor(half: int -> Ktx.HalfBytes)
      ensures Valid()
      ensures this.half == half && !frostbiteMat
      ensures transmittanceLUT.None? && gatherSumLUT.None? && gatherSumLUT2.None?
      ensures sunlightLUT.None? && skylightLUT.None? && inscatteringLUT.None? && extinctionLUT.None?
      ensures skyboxLUT.None? && skyboxLUT2.None? && skyboxLUTSingle.None?
      ensures skyboxData == null && gatherSumCount == 1 && skyboxCount == 1
      ensures !aerialPerspPersisted && files == []
    {
      this.half := half;
      frostbiteMat := false;
      transmittanceLUT, gatherSumLUT, gatherSumLUT2 := None, None, None;
      sunlightLUT, skylightLUT, inscatteringLUT, extinctionLUT := None, None, None, None;
      skyboxLUT, skyboxLUT2, skyboxLUTSingle := None, None, None;
      skyboxData := null;
      gatherSumCount, skyboxCount := 1, 1;
      aerialPerspPersisted := false;
      files := [];
    }

    /** `IsInitialized`: the material exists once `Start` has found its shader. */
    function IsInitialized(): bool
      reads this
    {
      frostbiteMat
    }

    /**
      `Start`: fails when the post-process shader is missing; otherwise
      creates the material, runs the precompute and creates the
      aerial-perspective tables.
    */
    method Start(shaderFound: bool, dev: Device) returns (error: Option<string>)
      requires Valid()
      modifies this`frostbiteMat, this`transmittanceLUT, this`gatherSumLUT, this`gatherSumLUT2
      modifies this`sunlightLUT, this`skylightLUT, this`skyboxLUT, this`skyboxLUT2, this`skyboxLUTSingle
      modifies this`skyboxData, skyboxData, this`gatherSumCount, this`skyboxCount, this`files
      modifies this`inscatteringLUT, this`extinctionLUT
      ensures Valid()
      ensures error.Some? <==> !shaderFound
      ensures !shaderFound ==> error == Some(MissingShaderError) && unchanged(this) && SkyboxTotal() == old(SkyboxTotal())
      ensures shaderFound ==>
        && IsInitialized() && Precomputed(dev, old(Current()))
        && inscatteringLUT == Some(Zeros(InscatterLength)) && extinctionLUT == Some(Zeros(InscatterLength))
      ensures shaderFound && old(skyboxData) == null ==> fresh(skyboxData)
      ensures old(skyboxData) != null ==> skyboxData == old(skyboxData)
    {
      if !shaderFound {
        return Some(MissingShaderError);
      }
      frostbiteMat := true;
      CalculateAtmosphere(dev);
      InitializeAerialPerspLUTs();
      error := None;
    }

    /** `InitializeAerialPerspLUTs`: two new volume tables, created unconditionally. */
    method InitializeAerialPerspLUTs()
      requires Valid()
      modifies this`inscatteringLUT, this`extinctionLUT
      ensures Valid()
      ensures inscatteringLUT == Some(Zeros(InscatterLength)) && extinctionLUT == Some(Zeros(InscatterLength))
    {
      inscatteringLUT := Some(Zeros(InscatterLength));
      extinctionLUT := Some(Zeros(InscatterLength));
    }

    /**
      `UpdateAerialPerspParameters`: the aerial-perspective kernel for this
      frame's camera; both tables are saved on the first frame only.
    */
    method UpdateAerialPerspParameters(dev: Device, frame: CameraFrame)
      requires Valid() && inscatteringLUT.Some? && extinctionLUT.Some?
      requires gatherSumLUT.Some? && transmittanceLUT.Some?
      modifies this`inscatteringLUT, this`extinctionLUT, this`files, this`aerialPerspPersisted
      ensures Valid() && aerialPerspPersisted
      ensures inscatteringLUT.Some? && extinctionLUT.Some?
      ensures (inscatteringLUT.value, extinctionLUT.value)
           == dev.aerialPerspective(frame, gatherSumLUT.value, transmittanceLUT.value)
      ensures old(aerialPerspPersisted) ==> files == old(files)
      ensures !old(aerialPerspPersisted) ==>
        files == old(files) + [Save(InscatteringLut(inscatteringLUT.value), Plain("apinscatter"), true),
                               Save(ExtinctionLut(extinctionLUT.value), Plain("apextinction"), true)]
    {
      var (ins, ext) := dev.aerialPerspective(frame, gatherSumLUT.value, transmittanceLUT.value);
      inscatteringLUT, extinctionLUT := Some(ins), Some(ext);
      if !aerialPerspPersisted {
        var _ := SaveTextureAsKTX(InscatteringLut(ins), Plain("apinscatter"), true);
        var _ := SaveTextureAsKTX(ExtinctionLut(ext), Plain("apextinction"), true);
        aerialPerspPersisted := true;
      }
    }

    /** Reads the texture back, serialises it as a KTX file and logs the save. */
    method SaveTextureAsKTX(lut: Lut, file: FileName, tile3D: bool) returns (bytes: seq<Ktx.Byte>)
      requires Valid() && WellShaped(lut)
      modifies this`files
      ensures Valid()
      ensures files == old(files) + [Save(lut, file, tile3D)]
      ensures bytes == FileContents(Save(lut, file, tile3D), half)
    {
      bytes := Ktx.SaveTextureAsKtx(lut.width, lut.height, lut.depth, lut.texels, tile3D, half);
      files := files + [Save(lut, file, tile3D)];
    }

    /** Creates the transmittance table when it is null. */
    method CreateTransmittance()
      requires Valid()
      modifies this`transmittanceLUT
      ensures Valid() && transmittanceLUT.Some?
      ensures old(transmittanceLUT).Some? ==> transmittanceLUT == old(transmittanceLUT)
    {
      if transmittanceLUT.None? {
        transmittanceLUT := Some(Zeros(TransmitLength));
      }
    }

    /** Creates the gather-sum total when it is null. */
    method CreateGatherSum()
      requires Valid()
      modifies this`gatherSumLUT
      ensures Valid() && gatherSumLUT.Some?
      ensures old(gatherSumLUT).Some? ==> gatherSumLUT == old(gatherSumLUT)
    {
      if gatherSumLUT.None? {
        gatherSumLUT := Some(Zeros(GatherLength));
      }
    }

    /** Creates the per-order gather-sum table when it is null. */
    method CreateGatherSum2()
      requires Valid()
      modifies this`gatherSumLUT2
      ensures Valid() && gatherSumLUT2.Some?
      ensures old(gatherSumLUT2).Some? ==> gatherSumLUT2 == old(gatherSumLUT2)
    {
      if gatherSumLUT2.None? {
        gatherSumLUT2 := Some(Zeros(GatherLength));
      }
    }

    /** Creates the sun irradiance table when it is null. */
    method CreateSunlight()
      requires Valid()
      modifies this`sunlightLUT
      ensures Valid() && sunlightLUT.Some?
      ensures old(sunlightLUT).Some? ==> sunlightLUT == old(sunlightLUT)
    {
      if sunlightLUT.None? {
        sunlightLUT := Some(Zeros(TransmitLength));
      }
    }

    /** Creates the sky irradiance table when it is null. */
    method CreateSkylight()
      requires Valid()
      modifies this`skylightLUT
      ensures Valid() && skylightLUT.Some?
      ensures old(skylightLUT).Some? ==> skylightLUT == old(skylightLUT)
    {
      if skylightLUT.None? {
        skylightLUT := Some(Zeros(TransmitLength));
      }
    }

    /** Creates the final skybox table when it is null. */
    method CreateSkybox()
      requires Valid()
      modifies this`skyboxLUT
      ensures Valid() && skyboxLUT.Some?
      ensures old(skyboxLUT).Some? ==> skyboxLUT == old(skyboxLUT)
    {
      if skyboxLUT.None? {
        skyboxLUT := Some(Zeros(SkyboxLength));
      }
    }

    /** Creates the per-order skybox table when it is null. */
    method CreateSkybox2()
      requires Valid()
      modifies this`skyboxLUT2
      ensures Valid() && skyboxLUT2.Some?
      ensures old(skyboxLUT2).Some? ==> skyboxLUT2 == old(skyboxLUT2)
    {
      if skyboxLUT2.None? {
        skyboxLUT2 := Some(Zeros(SkyboxLength));
      }
    }

    /** Creates the single-scattering table when it is null. */
    method CreateSkyboxSingle()
      requires Valid()
      modifies this`skyboxLUTSingle
      ensures Valid() && skyboxLUTSingle.Some?
      ensures old(skyboxLUTSingle).Some? ==> skyboxLUTSingle == old(skyboxLUTSingle)
    {
      if skyboxLUTSingle.None? {
        skyboxLUTSingle := Some(Zeros(SkyboxLength));
      }
    }

    /** Material pass 0 into the (lazily created) transmittance table. */
    method PrecomputeTransmittance(dev: Device)
      requires Valid()
      modifies this`transmittanceLUT, this`files
      ensures Valid()
      ensures transmittanceLUT == Some(dev.transmittance)
      ensures files == old(files) + [Save(TransmittanceLut(dev.transmittance), Plain("transmittance"), false)]
    {
      CreateTransmittance();
      transmittanceLUT := Some(dev.transmittance);
      var _ := SaveTextureAsKTX(TransmittanceLut(transmittanceLUT.value), Plain("transmittance"), false);
    }

    /** Kernel "SkyboxLUT": the first order into `_skyboxLUT2` and the single-scattering table. */
    method PrecomputeSkyboxLUT(dev: Device)
      requires Valid() && transmittanceLUT.Some?
      modifies this`skyboxLUT2, this`skyboxLUTSingle, this`skyboxCount, this`files
      ensures Valid()
      ensures skyboxLUT2.Some? && skyboxLUTSingle.Some?
      ensures (skyboxLUT2.value, skyboxLUTSingle.value) == dev.singleScatter(transmittanceLUT.value)
      ensures files == old(files) + [Save(SkyboxLut2(skyboxLUT2.value), Numbered("skyboxlut", old(skyboxCount)), true),
                                     Save(SkyboxLutSingle(skyboxLUTSingle.value), Plain("skyboxlutsingle"), true)]
      ensures skyboxCount == old(skyboxCount) + 1
    {
      CreateSkybox2();
      CreateSkyboxSingle();
      var (sky, single) := dev.singleScatter(transmittanceLUT.value);
      skyboxLUT2, skyboxLUTSingle := Some(sky), Some(single);
      var _ := SaveTextureAsKTX(SkyboxLut2(sky), Numbered("skyboxlut", skyboxCount), true);
      skyboxCount := skyboxCount + 1;
      var _ := SaveTextureAsKTX(SkyboxLutSingle(single), Plain("skyboxlutsingle"), true);
    }

    /** Kernel "MultipleScatterLUT": the next order from the previous order's gather sum. */
    method PrecomputeMultipleSkyboxLUT(dev: Device)
      requires Valid() && transmittanceLUT.Some? && gatherSumLUT2.Some? && skyboxLUT2.Some?
      modifies this`skyboxLUT2, this`skyboxCount, this`files
      ensures Valid()
      ensures skyboxLUT2 == Some(dev.multipleScatter(transmittanceLUT.value, gatherSumLUT2.value))
      ensures files == old(files) + [Save(SkyboxLut2(skyboxLUT2.value), Numbered("skyboxlut", old(skyboxCount)), true)]
      ensures skyboxCount == old(skyboxCount) + 1
    {
      skyboxLUT2 := Some(dev.multipleScatter(transmittanceLUT.value, gatherSumLUT2.value));
      var _ := SaveTextureAsKTX(SkyboxLut2(skyboxLUT2.value), Numbered("skyboxlut", skyboxCount), true);
      skyboxCount := skyboxCount + 1;
    }

    /** Material pass 1: the gather sum of the current order into `_gatherSumLUT2`. */
    method PrecomputeGatherSum(dev: Device)
      requires Valid() && skyboxLUT2.Some?
      modifies this`gatherSumLUT2, this`gatherSumCount, this`files
      ensures Valid()
      ensures gatherSumLUT2 == Some(dev.gatherSum(skyboxLUT2.value))
      ensures files == old(files) + [Save(GatherSumLut2(gatherSumLUT2.value), Numbered("gathersum", old(gatherSumCount)), false)]
      ensures gatherSumCount == old(gatherSumCount) + 1
    {
      CreateGatherSum2();
      gatherSumLUT2 := Some(dev.gatherSum(skyboxLUT2.value));
      var _ := SaveTextureAsKTX(GatherSumLut2(gatherSumLUT2.value), Numbered("gathersum", gatherSumCount), false);
      gatherSumCount := gatherSumCount + 1;
    }

    /**
      Folds the current order's gather sum into `_gatherSumLUT`: a copy the
      first time the table is created, a texel-wise addition afterwards.
    */
    method PrecomputeGatherSumAllTogether()
      requires Valid() && gatherSumLUT2.Some?
      modifies this`gatherSumLUT, this`files
      ensures Valid()
      ensures gatherSumLUT == Some(AddInto(old(gatherSumLUT), gatherSumLUT2.value))
      ensures files == old(files) + [Save(GatherSumLut(gatherSumLUT.value), Plain("gathersum"), false)]
    {
      var firstTime := false;
      if gatherSumLUT.None? {
        firstTime := true;
      }
      CreateGatherSum();
      var korder := gatherSumLUT2.value;
      var total: GatherTable;
      if firstTime {
        total := korder;
      } else {
        total := AddPixels(gatherSumLUT.value, korder);
      }
      gatherSumLUT := Some(total);
      var _ := SaveTextureAsKTX(GatherSumLut(total), Plain("gathersum"), false);
    }

    /**
      Reads `_skyboxLUT2` back and folds it into `_skyboxData`: allocated and
      copied the first time, added texel by texel afterwards.
    */
    method PrecomputeSkyboxAlltogether()
      requires Valid() && skyboxLUT2.Some?
      modifies this`skyboxData, skyboxData
      ensures Valid()
      ensures SkyboxTotal() == Some(AddInto(old(SkyboxTotal()), skyboxLUT2.value))
      ensures old(skyboxData) == null ==> fresh(skyboxData)
      ensures old(skyboxData) != null ==> skyboxData == old(skyboxData)
    {
      var firstTime := false;
      if skyboxData == null {
        firstTime := true;
        skyboxData := new int[SkyboxLength];
      }
      var acc := skyboxData;
      var data := skyboxLUT2.value;
      ghost var before := acc[..];
      if firstTime {
        for i := 0 to acc.Length
          modifies acc
          invariant forall k :: 0 <= k < i ==> acc[k] == data[k]
        {
          acc[i] := data[i];
        }
        assert acc[..] == data;
      } else {
        for i := 0 to acc.Length
          modifies acc
          invariant forall k :: 0 <= k < i ==> acc[k] == before[k] + data[k]
          invariant forall k :: i <= k < acc.Length ==> acc[k] == before[k]
        {
          acc[i] := acc[i] + data[i];
        }
        assert acc[..] == Add(before, data);
      }
    }

    /** Uploads `_skyboxData` into the final (lazily created) skybox table. */
    method CreateFinalSkyboxLUT()
      requires Valid() && skyboxData != null
      modifies this`skyboxLUT, this`files
      ensures Valid()
      ensures skyboxLUT == Some(skyboxData[..])
      ensures files == old(files) + [Save(SkyboxLut(skyboxData[..]), Plain("skyboxlut"), true)]
    {
      CreateSkybox();
      skyboxLUT := Some(skyboxData[..]);
      var _ := SaveTextureAsKTX(SkyboxLut(skyboxLUT.value), Plain("skyboxlut"), true);
    }

    /** Material passes 3 and 4: sky and sun irradiance from the final skybox table. */
    method PrecomputeSkyAndSunlightRadiance(dev: Device)
      requires Valid() && skyboxLUT.Some? && transmittanceLUT.Some?
      modifies this`skylightLUT, this`sunlightLUT, this`files
      ensures Valid()
      ensures skylightLUT == Some(dev.skylight(skyboxLUT.value, transmittanceLUT.value))
      ensures sunlightLUT == Some(dev.sunlight(skyboxLUT.value, transmittanceLUT.value))
      ensures files == old(files) + [Save(SkylightLut(skylightLUT.value), Plain("skylightlut"), false),
                                     Save(SunlightLut(sunlightLUT.value), Plain("sunlightlut"), false)]
    {
      CreateSkylight();
      CreateSunlight();
      skylightLUT := Some(dev.skylight(skyboxLUT.value, transmittanceLUT.value));
      var _ := SaveTextureAsKTX(SkylightLut(skylightLUT.value), Plain("skylightlut"), false);
      sunlightLUT := Some(dev.sunlight(skyboxLUT.value, transmittanceLUT.value));
      var _ := SaveTextureAsKTX(SunlightLut(sunlightLUT.value), Plain("sunlightlut"), false);
    }

    /**
      The tail of every scattering order in `CalculateAtmosphere`: the
      order's gather sum, then both accumulators.
    */
    method GatherOrder(dev: Device)
      requires Valid() && skyboxLUT2.Some?
      modifies this`gatherSumLUT, this`gatherSumLUT2, this`skyboxData, skyboxData
      modifies this`gatherSumCount, this`files
      ensures Valid()
      ensures gatherSumLUT2.Some? && gatherSumLUT.Some? && skyboxData != null
      ensures var g := dev.gatherSum(skyboxLUT2.value);
        && gatherSumLUT2 == Some(g)
        && gatherSumLUT == Some(AddInto(old(gatherSumLUT), g))
        && SkyboxTotal() == Some(AddInto(old(SkyboxTotal()), skyboxLUT2.value))
        && files == old(files) + GatherSaves(g, AddInto(old(gatherSumLUT), g), old(gatherSumCount))
      ensures gatherSumCount == old(gatherSumCount) + 1
      ensures old(skyboxData) == null ==> fresh(skyboxData)
      ensures old(skyboxData) != null ==> skyboxData == old(skyboxData)
    {
      PrecomputeGatherSum(dev);
      PrecomputeGatherSumAllTogether();
      PrecomputeSkyboxAlltogether();
      assert files == old(files) + GatherSaves(gatherSumLUT2.value, AddInto(old(gatherSumLUT), gatherSumLUT2.value), old(gatherSumCount));
    }

    /** The first order: transmittance, single scattering, and its gather step. */
    method FirstOrder(dev: Device)
      requires Valid()
      modifies this`transmittanceLUT, this`gatherSumLUT, this`gatherSumLUT2, this`skyboxLUT2, this`skyboxLUTSingle
      modifies this`skyboxData, skyboxData, this`gatherSumCount, this`skyboxCount, this`files
      ensures Valid() && skyboxData != null
      ensures Current() == AfterFirstOrder(old(Current()), dev)
      ensures old(skyboxData) == null ==> fresh(skyboxData)
      ensures old(skyboxData) != null ==> skyboxData == old(skyboxData)
    {
      ghost var o := RunOrders(dev);
      ghost var f0, acc0, sc, gc := files, gatherSumLUT, skyboxCount, gatherSumCount;
      PrecomputeTransmittance(dev);
      ghost var f1 := files;
      PrecomputeSkyboxLUT(dev);
      ghost var f2 := files;
      Grouped(f0, f1, f2, [Save(TransmittanceLut(o.transmittance), Plain("transmittance"), false)],
              [Save(SkyboxLut2(o.sky1), Numbered("skyboxlut", sc), true), Save(SkyboxLutSingle(o.single), Plain("skyboxlutsingle"), true)]);
      GatherOrder(dev);
    }

    /** A later order: multiple scattering from the previous order's gather sum, then its gather step. */
    method MultipleOrder(dev: Device)
      requires Valid() && transmittanceLUT.Some? && gatherSumLUT2.Some? && skyboxLUT2.Some?
      modifies this`gatherSumLUT, this`gatherSumLUT2, this`skyboxLUT2, this`skyboxData, skyboxData
      modifies this`gatherSumCount, this`skyboxCount, this`files
      ensures Valid() && skyboxData != null
      ensures Current() == AfterMultipleOrder(old(Current()), dev)
      ensures old(skyboxData) == null ==> fresh(skyboxData)
      ensures old(skyboxData) != null ==> skyboxData == old(skyboxData)
    {
      ghost var f0, sc, acc0 := files, skyboxCount, gatherSumLUT;
      PrecomputeMultipleSkyboxLUT(dev);
      ghost var f1, sky := files, skyboxLUT2.value;
      GatherOrder(dev);
      ghost var g := dev.gatherSum(sky);
      Grouped(f0, f1, files, [Save(SkyboxLut2(sky), Numbered("skyboxlut", sc), true)],
              GatherSaves(g, AddInto(acc0, g), old(gatherSumCount)));
    }

    /** The three scattering orders, each folded into both accumulators. */
    method ScatteringOrders(dev: Device)
      requires Valid()
      modifies this`transmittanceLUT, this`gatherSumLUT, this`gatherSumLUT2, this`skyboxLUT2, this`skyboxLUTSingle
      modifies this`skyboxData, skyboxData, this`gatherSumCount, this`skyboxCount, this`files
      ensures Valid() && skyboxData != null
      ensures Current() == AfterLaterOrders(AfterFirstOrder(old(Current()), dev), dev)
      ensures old(skyboxData) == null ==> fresh(skyboxData)
      ensures old(skyboxData) != null ==> skyboxData == old(skyboxData)
    {
      FirstOrder(dev);
      LaterOrders(dev);
    }

    /** The second and third orders, each from the previous order's gather sum. */
    method LaterOrders(dev: Device)
      requires Valid() && gatherSumLUT.Some? && skyboxLUT2.Some? && skyboxData != null
      requires transmittanceLUT == Some(RunOrders(dev).transmittance) && gatherSumLUT2 == Some(RunOrders(dev).gather1)
      modifies this`gatherSumLUT, this`gatherSumLUT2, this`skyboxLUT2, this`skyboxData, skyboxData
      modifies this`gatherSumCount, this`skyboxCount, this`files
      ensures Valid() && skyboxData == old(skyboxData)
      ensures Current() == AfterLaterOrders(old(Current()), dev)
    {
      TwoLaterOrders(Current(), dev);
      MultipleOrder(dev);
      MultipleOrder(dev);
    }

    /** The final skybox table from the summed orders, then the irradiance tables from it. */
    method FinalTables(dev: Device)
      requires Valid() && skyboxData != null && transmittanceLUT.Some?
      modifies this`skyboxLUT, this`skylightLUT, this`sunlightLUT, this`files
      ensures Valid() && skyboxLUT.Some?
      ensures skyboxLUT == SkyboxTotal()
      ensures skylightLUT == Some(dev.skylight(skyboxLUT.value, transmittanceLUT.value))
      ensures sunlightLUT == Some(dev.sunlight(skyboxLUT.value, transmittanceLUT.value))
      ensures files == old(files) + FinalSaves(skyboxLUT.value, skylightLUT.value, sunlightLUT.value)
    {
      CreateFinalSkyboxLUT();
      PrecomputeSkyAndSunlightRadiance(dev);
    }

    /**
      The precompute: transmittance, then three scattering orders, each
      folded into both accumulators, then the final skybox table and the
      sky and sun irradiance tables.
    */
    method CalculateAtmosphere(dev: Device)
      requires Valid() && frostbiteMat
      modifies this`transmittanceLUT, this`gatherSumLUT, this`gatherSumLUT2, this`sunlightLUT, this`skylightLUT
      modifies this`skyboxLUT, this`skyboxLUT2, this`skyboxLUTSingle, this`skyboxData, skyboxData
      modifies this`gatherSumCount, this`skyboxCount, this`files
      ensures Valid() && Precomputed(dev, old(Current()))
      ensures old(skyboxData) == null ==> fresh(skyboxData)
      ensures old(skyboxData) != null ==> skyboxData == old(skyboxData)
    {
      ghost var s0 := Current();
      ThreeOrders(s0, dev);
      RunLog(s0, dev);
      ScatteringOrders(dev);
      FinalTables(dev);
    }
  }
}
