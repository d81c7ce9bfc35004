# Atmospheric scattering precompute, modelled in Dafny

This project models the precompute core of the Unity component
`AtmosphericScattering`. The component builds the lookup tables of a
physically based sky:

- a transmittance table;
- three orders of scattering, each seeding the next through a gather-sum
  table and each folded into two running totals (the gather-sum total on
  the device, and the skybox total in a CPU array);
- the final skybox table and the sky and sun irradiance tables.

Every table it computes is written to disk as a KTX file. The project also
models the inspector's resolution popup and its "Update LookUp Tables"
button.

Modules:

- `Wrappers`: the `Option` type.
- `Decimal`: the decimal spelling of the counters used in file names
  (`"skyboxlut" + count`), with its inverse and a round-trip proof.
- `Tables`: texel tables as `seq<int>` and their element-wise sum. Proves
  that copy-then-add accumulation equals the sum of the individual tables.
- `Ktx`: `SaveTextureAsKTX` as a byte-exact serialiser.
  - The header is the twelve-byte KTX identifier, the endianness word, and
    thirteen little-endian 32-bit words.
  - The 3D-to-2D tiling is a proved bijection.
  - The tiled triple loop and the untiled loop are imperative methods,
    proved against a specification of the whole file.
- `Scattering`: the component as a class.
  - Its fields are the lazily created tables (`None` while the C# field is
    null), the `_skyboxData` array, the two file counters, the
    `AerialPerspPersisted` flag and the log of saved files.
  - Every GPU pass is a function field of a `Device` value. It takes the
    tables the pass method binds itself before that dispatch or blit.
  - The methods follow the C# call by call. Value-level transformers
    (`AfterFirstOrder`, `AfterLaterOrders`, `RunOrders`, `RunSaves`) state
    what one run computes and which files it writes.
- `ScatteringEditor`: the resolution tables, the popup lookups and the
  button guard.

Two details of the code's wiring:

- Every multiple-scattering pass reads the previous order's own gather-sum
  table (`_gatherSumLUT2`), not the running total. The running total
  `_gatherSumLUT` is only saved, and later read by the aerial-perspective
  kernel. `RunOrders` and `ScatteringOrders` state this wiring.
- Neither accumulator is ever reset. A second `CalculateAtmosphere` adds
  its three orders onto the totals the first one left
  (`RepeatedAccumulation`, `CalculateAtmosphere`).

## Model

| member | source | states |
|---|---|---|
| Decimal.Decimal | Assets/Scripts/AtmosphericScattering.cs:268 | the spelling of a counter is non-empty and all digits, with no leading zero; it is a single digit exactly below 10 |
| Decimal.DecimalRoundTrip | Assets/Scripts/AtmosphericScattering.cs:268 | reading the decimal spelling back yields the number |
| Decimal.DecimalInjective | Assets/Scripts/AtmosphericScattering.cs:383 | different counter values are spelt differently |
| Tables.Add | Assets/Scripts/AtmosphericScattering.cs:415-418 | the element-wise sum: same length, each entry the sum of the two entries |
| Tables.AddAssociative | Assets/Scripts/AtmosphericScattering.cs:331-332 | element-wise addition of tables is associative |
| Tables.Zeros | Assets/Scripts/AtmosphericScattering.cs:291-294 | a newly created render texture, modelled as a table of the requested length holding zeros |
| Tables.TotalSnoc | Assets/Scripts/AtmosphericScattering.cs:331-332 | adding one more table to a sum is adding it at the end |
| Tables.AccumulateIsTotal | Assets/Scripts/AtmosphericScattering.cs:324-333 | copying the first table and adding each later one gives the mathematical sum of all of them |
| Ktx.U32 | Assets/Scripts/AtmosphericScattering.cs:677-679 | the `(UInt32)` cast: below 2^32, the identity on values already in range, congruent to its input modulo 2^32 |
| Ktx.Le32 | Assets/Scripts/AtmosphericScattering.cs:685-699 | `BinaryWriter.Write(UInt32)`: four bytes, least significant first |
| Ktx.Le32RoundTrip | Assets/Scripts/AtmosphericScattering.cs:685-699 | a 32-bit word written little-endian reads back as the same word |
| Ktx.WordsAt | Assets/Scripts/AtmosphericScattering.cs:685-699 | in a run of written words, word i sits at byte offset 4*i |
| Ktx.WrittenLayout | Assets/Scripts/AtmosphericScattering.cs:643-651 | tiling happens only when tile3D holds and depth > 1; then the width is W*D and the depth 1; otherwise the dimensions are unchanged; the texel count is preserved either way (`TileEnabled` is the line-643 flag) |
| Ktx.MakeHeader | Assets/Scripts/AtmosphericScattering.cs:672-683 | glType 0x140B, glTypeSize 2, glFormat 0x1908, glInternalFormat 0x881A, glBaseInternalFormat 0x1908, 0 array elements, 1 face, 1 mip level, 0 key/value bytes; width W*D and depth 0 when tiled, otherwise width W and depth 0 for D = 1, else D |
| Ktx.ImageSize | Assets/Scripts/AtmosphericScattering.cs:698 | imageSize is W*H*D*4 channels*2 bytes whenever that fits in 32 bits |
| Ktx.Words | Assets/Scripts/AtmosphericScattering.cs:685-699 | the header's consecutive `writer.Write(UInt32)` calls: four bytes per word, in call order |
| Ktx.HeaderBytes | Assets/Scripts/AtmosphericScattering.cs:661-699 | the header is 68 bytes long |
| Ktx.HeaderLayout | Assets/Scripts/AtmosphericScattering.cs:661-699 | bytes 0..12 are AB 4B 54 58 20 31 31 BB 0D 0A 1A 0A, bytes 12..16 are 01 02 03 04, then the twelve header fields as little-endian words at 16 + 4*f, and imageSize at offset 64 |
| Ktx.TileSource | Assets/Scripts/AtmosphericScattering.cs:703-707 | the source texel written at each output position of the tiled image (its meaning is stated by `TileSourceAt` and `TileBijection`) |
| Ktx.TileSourceAt | Assets/Scripts/AtmosphericScattering.cs:703-707 | output position j*(W*D) + k*W + i is in range and carries source texel k*(W*H) + j*W + i, and the reverse |
| Ktx.TiledDigits | Assets/Scripts/AtmosphericScattering.cs:703-705 | every output position is j*(W*D) + k*W + i for some i < W, j < H, k < D |
| Ktx.SourceDigits | Assets/Scripts/AtmosphericScattering.cs:707 | every source texel is k*(W*H) + j*W + i for some i < W, j < H, k < D |
| Ktx.TileBijection | Assets/Scripts/AtmosphericScattering.cs:701-712 | the tiling map and its inverse stay in range and undo each other: a bijection on the texels |
| Ktx.TexelOrder | Assets/Scripts/AtmosphericScattering.cs:701-720 | the order texels are written in covers W*H*D positions, each naming a texel in range |
| Ktx.TexelOrderIsPermutation | Assets/Scripts/AtmosphericScattering.cs:701-720 | no texel is written twice and every texel is written |
| Ktx.Gather | Assets/Scripts/AtmosphericScattering.cs:708-711 | four values per listed texel |
| Ktx.GatherAt | Assets/Scripts/AtmosphericScattering.cs:708-711 | channel c of the n-th written texel is channel c of the texel the order names |
| Ktx.Payload | Assets/Scripts/AtmosphericScattering.cs:701-720 | the body holds as many values as the read-back data |
| Ktx.PayloadUntiled | Assets/Scripts/AtmosphericScattering.cs:714-720 | untiled, the body values are the read-back data unchanged |
| Ktx.StartIndex | Assets/Scripts/AtmosphericScattering.cs:707 | the read-back index of texel (i, j, k) (its meaning is stated by `StartIndexOfTexel`) |
| Ktx.StartIndexOfTexel | Assets/Scripts/AtmosphericScattering.cs:707 | `startIndex` is 4 times the number of source texel (i, j, k) |
| Ktx.TiledIndex | Assets/Scripts/AtmosphericScattering.cs:703-707 | tiled, output position j*(W*D) + k*W + i names the texel whose channels begin at `startIndex` |
| Ktx.PayloadTiledAt | Assets/Scripts/AtmosphericScattering.cs:701-712 | tiled, body value 4*(j*(W*D) + k*W + i) + c is `data[startIndex + c]`, and both indices are in range |
| Ktx.Encoded | Assets/Scripts/AtmosphericScattering.cs:708-718 | two bytes per value |
| Ktx.EncodedAppend | Assets/Scripts/AtmosphericScattering.cs:708-718 | the bytes of two value lists written one after the other are the two encodings concatenated |
| Ktx.EncodedQuad | Assets/Scripts/AtmosphericScattering.cs:708-711 | the four writes of one texel produce the encoding of its four values |
| Ktx.EncodedQuadAppend | Assets/Scripts/AtmosphericScattering.cs:708-711 | appending the four channel values of one texel appends their four encodings |
| Ktx.ImageSizeCountsPayload | Assets/Scripts/AtmosphericScattering.cs:698-720 | when W*H*D*8 fits in 32 bits, the file is 68 header bytes plus exactly imageSize body bytes, and the imageSize word says so |
| Ktx.KtxFile | Assets/Scripts/AtmosphericScattering.cs:661-720 | the whole written file: the 68-byte header followed by two bytes for every value of the texture |
| Ktx.SaveTextureAsKtx | Assets/Scripts/AtmosphericScattering.cs:635-725 | the bytes written are the header of the written layout followed by the body: the data unchanged when untiled, the tiled permutation otherwise |
| Ktx.WriteTiled | Assets/Scripts/AtmosphericScattering.cs:701-713 | the tiled triple loop writes exactly the encoding of the tiled body |
| Ktx.WriteRow | Assets/Scripts/AtmosphericScattering.cs:703-712 | one row j extends the written bytes from texel j*(W*D) to texel (j+1)*(W*D) of the tiled body |
| Ktx.WriteColumns | Assets/Scripts/AtmosphericScattering.cs:704-712 | slice k of row j extends the written bytes by the next W texels of the tiled body |
| Ktx.TiledWrite | Assets/Scripts/AtmosphericScattering.cs:706-711 | one inner step appends the encodings of `data[startIndex .. startIndex + 3]`, which are the next four body values |
| Ktx.WriteInOrder | Assets/Scripts/AtmosphericScattering.cs:714-720 | the untiled loop writes the encoding of every read-back value in order |
| Scattering.RunOrders | Assets/Scripts/AtmosphericScattering.cs:199-218 | the reference definition of the order chain (single scattering from the transmittance; each gather sum from the order just computed; each later order from the previous order's own gather sum), against which `ThreeOrders`, `FirstOrder`, `MultipleOrder` and `CalculateAtmosphere` are proved |
| Scattering.AddInto | Assets/Scripts/AtmosphericScattering.cs:389-426 | both accumulators copy the order's table when absent and add it element-wise otherwise |
| Scattering.AddPixels | Assets/Scripts/AtmosphericScattering.cs:410-418 | adding the order's pixels to the read-back total, one index at a time, gives the element-wise sum of the two tables |
| Scattering.AccumulateOnto | Assets/Scripts/AtmosphericScattering.cs:199-218 | three orders accumulated onto an accumulator keep the table length |
| Scattering.FreshAccumulation | Assets/Scripts/AtmosphericScattering.cs:303-336 | from an absent accumulator, three orders give exactly their sum |
| Scattering.RepeatedAccumulation | Assets/Scripts/AtmosphericScattering.cs:389-426 | the accumulators are never reset: a later run adds its three-order sum onto the earlier total |
| Scattering.RunFileNames | Assets/Scripts/AtmosphericScattering.cs:199-218 | one run writes fourteen files |
| Scattering.FirstRunFileNames | Assets/Scripts/AtmosphericScattering.cs:199-218 | from fresh counters, the files written are transmittance, skyboxlut1, skyboxlutsingle, gathersum1, gathersum, skyboxlut2, gathersum2, gathersum, skyboxlut3, gathersum3, gathersum, skyboxlut, skylightlut, sunlightlut, in that order |
| Scattering.NumberedNamesDiffer | Assets/Scripts/AtmosphericScattering.cs:281 | numbered names built from different counter values differ |
| Scattering.Spelling | Assets/Scripts/AtmosphericScattering.cs:268 | a numbered name is its base followed by digits that read back as the counter; a plain name is its base |
| Scattering.RunSaves | Assets/Scripts/AtmosphericScattering.cs:199-218 | one run saves fourteen textures |
| Scattering.SavesOf | Assets/Scripts/AtmosphericScattering.cs:199-218 | the saves of one run, given every table it persists, number fourteen |
| Scattering.LaterSaves | Assets/Scripts/AtmosphericScattering.cs:208-215 | the second and third orders save six textures |
| Scattering.FirstSaves | Assets/Scripts/AtmosphericScattering.cs:268-300 | the three saves of the first order (transmittance, skyboxlut<n>, skyboxlutsingle); every save matches its texture's size and is tiled exactly when the texture is a volume |
| Scattering.GatherSaves | Assets/Scripts/AtmosphericScattering.cs:383-425 | the two saves of each gather step (gathersum<n>, gathersum), both untiled 2D tables of their size |
| Scattering.FinalSaves | Assets/Scripts/AtmosphericScattering.cs:362-456 | the three saves after the last order (skyboxlut tiled, skylightlut and sunlightlut untiled), each matching its texture's size |
| Scattering.RunSavesUnfold | Assets/Scripts/AtmosphericScattering.cs:199-218 | the saves of a run are those of the first order, its gather step, the two later orders and the final tables, in that order |
| Scattering.Names | Assets/Scripts/AtmosphericScattering.cs:635 | one name per save; the names themselves are stated by the `*SavesNames` lemmas |
| Scattering.SavesOfNames | Assets/Scripts/AtmosphericScattering.cs:199-218 | the saves of a run carry exactly the names `RunFileNames` lists |
| Scattering.RunSavesNames | Assets/Scripts/AtmosphericScattering.cs:199-218 | one run writes exactly the files `RunFileNames` lists, in that order; each numbered name uses the counter value current at that save |
| Scattering.FirstSavesNames | Assets/Scripts/AtmosphericScattering.cs:268-300 | the first order writes transmittance, skyboxlut<n>, skyboxlutsingle |
| Scattering.GatherSavesNames | Assets/Scripts/AtmosphericScattering.cs:383-425 | each gather step writes gathersum<n>, then gathersum |
| Scattering.LaterSavesNames | Assets/Scripts/AtmosphericScattering.cs:208-215 | the later orders write skyboxlut<n>, gathersum<m>, gathersum, skyboxlut<n+1>, gathersum<m+1>, gathersum |
| Scattering.FinalSavesNames | Assets/Scripts/AtmosphericScattering.cs:362-456 | the run ends with skyboxlut, skylightlut, sunlightlut |
| Scattering.RunFileNamesSplit | Assets/Scripts/AtmosphericScattering.cs:199-218 | the run's file names are the names of its phases concatenated |
| Scattering.NamesAppend | Assets/Scripts/AtmosphericScattering.cs:635 | the names of two save lists concatenated are the two name lists concatenated |
| Scattering.Message | Assets/Scripts/AtmosphericScattering.cs:183-189 | the four report lines, one per problem, as the source spells them |
| Scattering.Problems | Assets/Scripts/AtmosphericScattering.cs:179-191 | a missing skybox and a wrong skybox shader exclude each other; a missing compute shader and a missing sun are each reported; every problem is listed exactly when its condition holds, in check order; the list is empty exactly when all is configured |
| Scattering.Report | Assets/Scripts/AtmosphericScattering.cs:181-190 | each problem appends at least one character, and the first problem's message and line break come first |
| Scattering.ReportSingle | Assets/Scripts/AtmosphericScattering.cs:183-189 | one problem is reported as its message followed by a line break |
| Scattering.ReportAppend | Assets/Scripts/AtmosphericScattering.cs:181-190 | the report of problems found one after the other is their reports concatenated, so every problem contributes its own line, in order |
| Scattering.Line | Assets/Scripts/AtmosphericScattering.cs:182-189 | a check contributes text exactly when it fails, and then it is that problem's report |
| Scattering.ValidateText | Assets/Scripts/AtmosphericScattering.cs:179-191 | the full returned text: the skybox line (null, or else wrong shader), then the compute-shader line, then the sun line, each present exactly when its check fails |
| Scattering.Validate | Assets/Scripts/AtmosphericScattering.cs:179-191 | the result is empty exactly when the scene is configured; otherwise it starts with the first problem's message and a line break |
| Scattering.AfterFirstOrder | Assets/Scripts/AtmosphericScattering.cs:203-207 | the first order keeps both counters positive and the skybox total of skybox size |
| Scattering.AfterLaterOrders | Assets/Scripts/AtmosphericScattering.cs:208-215 | the later orders keep both counters positive and the skybox total of skybox size |
| Scattering.AfterMultipleOrder | Assets/Scripts/AtmosphericScattering.cs:208-211 | one later order keeps both counters positive and the transmittance table, and leaves a per-order gather sum for the next order |
| Scattering.TwoLaterOrders | Assets/Scripts/AtmosphericScattering.cs:208-215 | starting from the first order's transmittance and gather sum, two later orders in a row leave exactly the state of the second and third orders together |
| Scattering.ThreeOrders | Assets/Scripts/AtmosphericScattering.cs:203-215 | after the three orders, the per-order tables hold the third order; both totals are the earlier totals plus the three orders; both counters have advanced by 3; the log has grown by the saves of the three orders |
| Scattering.AtmosphericScattering.constructor | Assets/Scripts/AtmosphericScattering.cs:75-80 | a new component has no material and no tables, both counters are 1, the flag is clear and no file is written |
| Scattering.AtmosphericScattering.IsInitialized | Assets/Scripts/AtmosphericScattering.cs:194-197 | the material exists, which only a successful `Start` brings about |
| Scattering.AtmosphericScattering.Precomputed | Assets/Scripts/AtmosphericScattering.cs:199-218 | the state one precompute run leaves: third-order tables, both totals grown by the three orders, the final skybox equal to the CPU total, the irradiance tables from it, counters +3 and `RunSaves` appended |
| Scattering.AtmosphericScattering.Start | Assets/Scripts/AtmosphericScattering.cs:161-173 | a missing shader is the error with the source's message, and no field and no texel changes; otherwise `IsInitialized()` holds, the state is `Precomputed` from the old one (tables, totals, counters +3, `RunSaves`), `_skyboxData` is newly allocated when it was null and otherwise the same array, and the two aerial-perspective tables are created zero-filled |
| Scattering.AtmosphericScattering.InitializeAerialPerspLUTs | Assets/Scripts/AtmosphericScattering.cs:220-235 | both aerial-perspective tables are newly created |
| Scattering.AtmosphericScattering.UpdateAerialPerspParameters | Assets/Scripts/AtmosphericScattering.cs:542-587 | the aerial-perspective kernel runs from the gather-sum total and the transmittance; both tables are saved on the first frame only, after which the flag stays set |
| Scattering.AtmosphericScattering.SaveTextureAsKTX | Assets/Scripts/AtmosphericScattering.cs:635-725 | the save is logged and the bytes are the KTX file of the texture; each texture carries the size the component creates it with (`TransmittanceLut`, `SkyboxLut2` and the other texture constructors, from the sizes at lines 222-245, 291, 349, 372, 394, 432 and 439) |
| Scattering.FileContents | Assets/Scripts/AtmosphericScattering.cs:635-725 | the bytes one save writes: the KTX file of its texture, 68 header bytes plus two bytes per value |
| Scattering.AtmosphericScattering.CreateTransmittance | Assets/Scripts/AtmosphericScattering.cs:289-295 | the transmittance table exists afterwards, and an existing one is kept |
| Scattering.AtmosphericScattering.CreateGatherSum | Assets/Scripts/AtmosphericScattering.cs:392-400 | the gather-sum total exists afterwards, and an existing one is kept |
| Scattering.AtmosphericScattering.CreateGatherSum2 | Assets/Scripts/AtmosphericScattering.cs:370-376 | the per-order gather-sum table exists afterwards, and an existing one is kept |
| Scattering.AtmosphericScattering.CreateSunlight | Assets/Scripts/AtmosphericScattering.cs:437-443 | the sun irradiance table exists afterwards, and an existing one is kept |
| Scattering.AtmosphericScattering.CreateSkylight | Assets/Scripts/AtmosphericScattering.cs:430-436 | the sky irradiance table exists afterwards, and an existing one is kept |
| Scattering.AtmosphericScattering.CreateSkybox | Assets/Scripts/AtmosphericScattering.cs:347-355 | the final skybox table exists afterwards, and an existing one is kept |
| Scattering.AtmosphericScattering.CreateSkybox2 | Assets/Scripts/AtmosphericScattering.cs:242-250 | the per-order skybox table exists afterwards, and an existing one is kept |
| Scattering.AtmosphericScattering.CreateSkyboxSingle | Assets/Scripts/AtmosphericScattering.cs:252-260 | the single-scattering table exists afterwards, and an existing one is kept |
| Scattering.AtmosphericScattering.PrecomputeTransmittance | Assets/Scripts/AtmosphericScattering.cs:287-301 | material pass 0 fills the transmittance table, which is saved as "transmittance", untiled |
| Scattering.AtmosphericScattering.PrecomputeSkyboxLUT | Assets/Scripts/AtmosphericScattering.cs:240-270 | the single-scattering kernel fills the per-order and single tables from the transmittance; saves skyboxlut<n> and skyboxlutsingle, tiled; the skybox counter advances by 1 |
| Scattering.AtmosphericScattering.PrecomputeMultipleSkyboxLUT | Assets/Scripts/AtmosphericScattering.cs:272-282 | the next order comes from the transmittance and the previous order's own gather sum; saves skyboxlut<n>, tiled; the counter advances by 1 |
| Scattering.AtmosphericScattering.PrecomputeGatherSum | Assets/Scripts/AtmosphericScattering.cs:368-384 | material pass 1 gathers the current order into the per-order table; saves gathersum<n>; the counter advances by 1 |
| Scattering.AtmosphericScattering.PrecomputeGatherSumAllTogether | Assets/Scripts/AtmosphericScattering.cs:389-426 | the total becomes a copy of the order's gather sum when absent, otherwise the element-wise sum; saves "gathersum" |
| Scattering.AtmosphericScattering.PrecomputeSkyboxAlltogether | Assets/Scripts/AtmosphericScattering.cs:303-336 | `_skyboxData` is allocated once and then reused; it is copied from the order's read-back the first time and summed with it afterwards |
| Scattering.AtmosphericScattering.CreateFinalSkyboxLUT | Assets/Scripts/AtmosphericScattering.cs:338-363 | the final skybox table receives the contents of `_skyboxData` and is saved as "skyboxlut", tiled |
| Scattering.AtmosphericScattering.PrecomputeSkyAndSunlightRadiance | Assets/Scripts/AtmosphericScattering.cs:428-457 | material passes 3 and 4 compute sky and sun irradiance from the final skybox and the transmittance; saves skylightlut, then sunlightlut |
| Scattering.AtmosphericScattering.GatherOrder | Assets/Scripts/AtmosphericScattering.cs:205-207 | an order's gather step gathers the order, folds it into the gather-sum total and folds the order into `_skyboxData` |
| Scattering.AtmosphericScattering.FirstOrder | Assets/Scripts/AtmosphericScattering.cs:203-207 | the first order leaves the state `AfterFirstOrder` describes |
| Scattering.AtmosphericScattering.MultipleOrder | Assets/Scripts/AtmosphericScattering.cs:208-211 | a later order scatters from the previous order's gather sum (`_gatherSumLUT2`), then gathers and folds into both totals; the new state is `AfterMultipleOrder` of the old one, so both counters advance by 1 |
| Scattering.AtmosphericScattering.LaterOrders | Assets/Scripts/AtmosphericScattering.cs:208-215 | the second and third orders leave the state `AfterLaterOrders` describes |
| Scattering.AtmosphericScattering.ScatteringOrders | Assets/Scripts/AtmosphericScattering.cs:203-215 | the three orders leave the state the two transformers describe |
| Scattering.AtmosphericScattering.FinalTables | Assets/Scripts/AtmosphericScattering.cs:216-217 | the final skybox table equals the CPU total; the irradiance tables are computed from it |
| Scattering.AtmosphericScattering.CalculateAtmosphere | Assets/Scripts/AtmosphericScattering.cs:199-218 | the new state is `Precomputed` from the old one: the per-order tables hold the third order; each total is its earlier value plus the three orders; the final skybox equals the skybox total; the irradiance tables come from it; both counters advance by exactly 3; the files written are `RunSaves`; `_skyboxData` is allocated when it was null and is the same array on every later run |
| Scattering.RunLog | Assets/Scripts/AtmosphericScattering.cs:199-218 | the saves of the three orders followed by those of the final tables are exactly the run's fourteen saves |
| ScatteringEditor.IndexOf | Assets/Editor/AtmosphericScatteringEditor.cs:59-65 | the first position holding the value, or -1 exactly when it is absent |
| ScatteringEditor.GetResolutionIndex | Assets/Editor/AtmosphericScatteringEditor.cs:59-65 | the scan returns the first matching index, or -1 exactly when no resolution matches |
| ScatteringEditor.IndexOfFirst | Assets/Editor/AtmosphericScatteringEditor.cs:61-63 | a match with no earlier match is the index returned |
| ScatteringEditor.GetResolution | Assets/Editor/AtmosphericScatteringEditor.cs:67-70 | a resolution is returned exactly for indices 0..3, and looking it up again gives back the index |
| ScatteringEditor.ResolutionsDistinct | Assets/Editor/AtmosphericScatteringEditor.cs:57 | no resolution is offered twice |
| ScatteringEditor.IndexOfDistinct | Assets/Editor/AtmosphericScatteringEditor.cs:59-65 | in a table without repeats, every entry is found at its own index |
| ScatteringEditor.ResolutionRoundTrip | Assets/Editor/AtmosphericScatteringEditor.cs:59-70 | looking up an offered resolution and reading it back returns it |
| ScatteringEditor.NamesSpellResolutions | Assets/Editor/AtmosphericScatteringEditor.cs:56-57 | both tables have four entries, and each label is the decimal spelling of its resolution |
| ScatteringEditor.UpdateLookUpTables | Assets/Editor/AtmosphericScatteringEditor.cs:178-179 | when pressed on a component that `IsInitialized()`, the new state is `Precomputed` from the old one (every table, both totals, counters +3, `RunSaves`); otherwise no field and no texel of the component changes; an existing `_skyboxData` array is kept, and a first run allocates it |
| ScatteringEditor.EditorSession | Assets/Editor/AtmosphericScatteringEditor.cs:178-179 | after `Start` and two runs of the button's guarded action, both counters stand at 10 and 42 files have been saved: runs chain, reusing the accumulator the first run allocated. The presses are hypothetical: the inspector as written throws at line 170 before drawing the button (see "## Left out") |

## Left out

- GPU kernels and material passes are opaque functions of a `Device`
  value. Their numerical content (optical depth, phase functions, the
  physical constants and inspector coefficients bound by
  `UpdateCommonComputeShaderParameters` and `UpdateMaterialParameters`) is
  not modelled.
- `UpdateMaterialParameters` is left out: it only binds parameters to a
  material, and the model passes the tables each pass method binds itself
  to its `Device` function instead. The six tables line 201 binds on the
  material (`_TransmittanceLUT`, `_SkyboxLUT`, `_SkyboxLUT2`,
  `_SkyboxLUTSingle`, `_SunlightLUT`, `_SkylightLUT`) stay bound during
  material passes 0, 1, 3 and 4, except those a pass rebinds itself (pass 1
  rebinds `_SkyboxLUT2` at line 378; passes 3 and 4 rebind `_SkyboxLUT` and
  `_TransmittanceLUT` at lines 446-447). The bindings left over are null on
  the first run and hold the previous run's textures later. The model
  assumes the passes do not read them.
- Texel values are integers, and the floating-point sums are exact
  additions. `Half.GetBytes((Half)x)` is an opaque function giving two
  bytes per value; its rounding is not modelled.
- Read-backs through `CBUtility`, `ToTexture2D` and `Graphics.Blit` copies
  are exact. A texture's contents and its read-back are the same table.
- File I/O is a log of `Save` records (texture, name, tiling flag) plus
  the bytes `FileContents` gives for each record. The file system, the
  `Assets/Textures/` path and `FileMode.OpenOrCreate` are not modelled;
  in particular, bytes beyond the new length of a longer, pre-existing
  file, which that mode does not truncate, are not modelled.
- RenderTexture debug names, filter modes, the random-write flag and
  `Create()` are not modelled. A newly created table holds zeros.
- `Start`: `GetComponent<Camera>()` is left out. The thrown exception
  becomes a returned error value, with the same message text.
- Scattering.AtmosphericScattering.UpdateAerialPerspParameters: requires
  the tables `Start` creates. The frustum corners come from the camera and
  are an input value (`CameraFrame`). The material bindings at the end are
  not modelled.
- `UpdateSkyBoxParameters`, `OnPreRender`, `OnRenderImage`, `Update` and
  `OnDestroy` are rendering and teardown hooks outside the precompute.
  They are not part of this model.
- The rest of the inspector GUI is not part of this model: foldouts,
  sliders, property bindings, and the use of the resolution popup.
- Scattering.AtmosphericScattering.CalculateAtmosphere: a configured scene
  is assumed. With no `Sun` the C# run throws a `NullReferenceException`
  in `UpdateMaterialParameters` (line 502) before anything is saved; with
  no `ScatteringComputeShader` it throws at line 262, after
  "transmittance" has been created and saved. Neither aborted run is
  modelled: the model's run always completes.
- Scattering.AtmosphericScattering.CalculateAtmosphere: the counters are
  unbounded integers. The C# `int` counters would wrap after 2^31 files.
- Scattering.AtmosphericScattering.CalculateAtmosphere: the helper methods
  `FirstOrder`, `GatherOrder`, `MultipleOrder`, `LaterOrders`,
  `ScatteringOrders` and `FinalTables` group the source's calls into
  phases. The call sequence inside them is the source's.
- Scattering.Validate: its own contract states emptiness and the first
  reported line; the full text is stated by `ValidateText`. `AppendLine`
  is modelled as appending "\n".
- ScatteringEditor.UpdateLookUpTables: `pressed` stands for a press that
  the inspector as written never delivers. The component declares no
  `WindDirection`, `WindSpeed`, `SigmaScattering`, `SigmaExtinction`,
  `LowFreqUVScale` or `HighFreqUVScale` field, so `FindProperty` returns
  null for all six (AtmosphericScatteringEditor.cs:101-106). With the
  scattering foldout open (its default), line 170 then throws a
  `NullReferenceException` before the button at lines 178-179 is drawn;
  with it closed, the button is not drawn. The guard is modelled as if
  line 170 worked, and `EditorSession` chains presses on that premise.
- ScatteringEditor.GetResolution: an index outside 0..3 throws
  `IndexOutOfRangeException` in C#. Here it returns `None`.
- Ktx.ImageSize: the 32-bit truncation of the cast is modelled through
  `U32`. The contract states the exact value only when the product fits in
  32 bits.
- Ktx.WriteTiled: the tiled branch loops over the texture's own width,
  height and depth. The model takes them as the method's parameters.
