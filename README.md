# eoreader core in Dafny

This project models the part of eoreader that sits around the raster I/O. That part is made of tables, strings and boolean grids:

- **Spectral-index engine:** the formulas, the decorator that evaluates an index and re-attaches the first band's metadata, the registry of index functions, and the band-dependency table.
- **Product-type detection and band maps** for Sentinel-2, Sentinel-3 (both reader generations), Landsat-3, Landsat-5 and RapidEye.
- **Default-resolution tables** of COSMO-SkyMed 2nd Generation, Sentinel-1 RTC, SPOT-7 and Landsat.
- **Sentinel-3 SLSTR radiance adjustment:**
  - the presets;
  - the grid suffix and the names derived from it;
  - the GCP cache;
  - the solar-flux fallback;
  - the invalid-pixel and cloud masks.
- **File-name and template construction:**
  - `_replace`;
  - the SNAP band and quality-flag names;
  - the condensed names.
- **Small stateful pieces:**
  - the CSG resolution fallback;
  - RapidEye's metadata search and reflectance chain;
  - the Sentinel-1 RTC name parsing, raw band paths and extent.

## How the code is modelled

- **Mutated state.** A reader whose methods assign its fields is a `class`: `S3Slstr.S3SlstrProduct`, `S3Legacy.S3Product`, `S2.S2Product`, `RapidEye.ReProduct`, `Csg.CsgProduct`, `S1Rtc.S1RtcProduct` and `Landsat3.L3Product`. Each of its methods states the whole new state.
- **Loops.** Each loop of the source is a `method` with a `while` loop proved against a specification function. Examples:
  - `SpectralIndex.GetAllIndices` against `Registered`;
  - `RapidEye.FindScaleFactor` against `FirstScaleFactor`;
  - `S3Optical.Replace` against `ApplyAll`;
  - `S3Optical.FootprintVertices` against `Ring`.
- **Computations.** Pure computations are functions.
- **Errors.** Python exceptions are the `Error` values of `Wrappers.Result`/`Outcome`. A band map is a `map`, and a canonical band missing from it is one the product maps to `None`.
- **Numbers.** Index values are `Num = Val(real) | NaN`. With numpy's divide and invalid warnings silenced (eoreader/bands/index.py:39), a division by zero never raises. numpy gives NaN for 0 / 0 and ±inf for a non-zero value over zero. The model has no infinities and gives NaN in both cases (see "## Left out").

Everything the code reads from outside enters the model as a parameter:

- **Files:** NetCDF, XML, GeoTIFF and vector files.
- **Library calls:** `float`, `strptime`, `np.sqrt`, `np.nanpercentile`, `np.nanmean`, rasterio's `sieve`, the rasterisation of cloud polygons, GCP construction, and URL signing.

## Notes on the code

- **Index dependencies.** Each index's band dependencies are found by scanning its function's source text for `obn.X` (eoreader/bands/index.py:767-785). The index registry is every module function whose name starts with an uppercase letter (eoreader/bands/index.py:756-764). The model writes the scan's result as the table `NeededBands`. The registry is the uppercase filter over the module's function list.
- **Missing index inputs.** A band missing from the input dictionary makes its lookup raise `KeyError` (`SpectralIndex.Compute`).
- **Unmapped bands.** Depending on the reader, asking for a band the product does not map raises `InvalidProductError`, `KeyError`, `TypeError` or `AttributeError`. The model keeps each of them.
- **RapidEye reflectance.** The coefficient is `π / (eai · dt · cos(sza))`, where `dt` is the squared Sun–Earth distance variation.

## Model

| member | source | states |
|---|---|---|
| SpectralIndex.NormDiff | eoreader/bands/index.py:70-83 | `_norm_diff` is defined exactly when both inputs are and `a + b ≠ 0`, and then `r · (a + b) = a − b` |
| SpectralIndex.NormDiffBounded | eoreader/bands/index.py:82 | for non-negative `a`, `b` with a positive sum, the normalised difference lies in [−1, 1] |
| SpectralIndex.NormDiffAntisymmetric | eoreader/bands/index.py:82 | `nd(a, b) = −nd(b, a)`, with both undefined together |
| SpectralIndex.NdwiNegatesGndvi | eoreader/bands/index.py:361-377 | NDWI is the negation of GNDVI on every pixel |
| SpectralIndex.ZeroDenominatorUndefined | eoreader/bands/index.py:39 | 0 / 0 (RGI where RED and GREEN are both 0) gives NaN, not an error |
| SpectralIndex.NormalisedDifferenceFamilyBounded | eoreader/bands/index.py:113 | on non-negative reflectances, every normalised-difference index lies in [−1, 1] wherever it is defined |
| SpectralIndex.ClampNonNegative | eoreader/bands/index.py:647-650 | `np.where(x < 0, 0, x)` gives exactly 0 for a negative value, keeps non-negative values and keeps NaN |
| SpectralIndex.SiNonNegative | eoreader/bands/index.py:633-651 | SI is undefined only where an input or a percentile is, and is otherwise a non-negative root |
| SpectralIndex.TasseledCapBrightness | eoreader/bands/index.py:131-138 | TCBRI is the six-band linear combination with weights 0.3037 … 0.1863 |
| SpectralIndex.TasseledCapGreenness | eoreader/bands/index.py:156-163 | TCGRE's subtractions are the negative weights of the linear combination |
| SpectralIndex.TasseledCapWetness | eoreader/bands/index.py:181-188 | TCWET is the linear combination whose last two weights are negative |
| SpectralIndex.NdviExample | eoreader/bands/index.py:102-113 | NDVI of (RED 0.2, NIR 0.6) is 0.5, and of (0.4, 0.8) it is 1/3 |
| SpectralIndex.NeededBands | eoreader/bands/index.py:767-785 | every index reads at least one band |
| SpectralIndex.EvalReadsOnlyNeeded | eoreader/bands/index.py:767-785 | two pixels that agree on an index's dependency list give the same index value |
| SpectralIndex.Compute | eoreader/bands/index.py:42-67 | the decorator fails with KeyError exactly when a needed band is missing; otherwise the result has the first band's metadata, the index name and the band size |
| SpectralIndex.ComputePixels | eoreader/bands/index.py:58 | each output pixel is the formula applied to that pixel of the raw band data |
| SpectralIndex.RegistryIsIndices | eoreader/bands/index.py:756-764 | the uppercase filter keeps exactly the index functions and drops every helper |
| SpectralIndex.GetAllIndices | eoreader/bands/index.py:742-764 | the loop's result is the list of index functions, in the module's order |
| SpectralIndex.GetAllIndexNames | eoreader/bands/index.py:725-739 | one name per index, in order, each starting with an uppercase letter |
| SpectralIndex.GetAllNeededBands | eoreader/bands/index.py:788-823 | the dictionary has every index as a key, with its dependency list |
| S3Slstr.SuffixShape | eoreader/products/optical/s3_slstr_product.py:69-80 | every accepted suffix is two characters and ends in its view, `n` or `o` |
| S3Slstr.Coefficient | eoreader/products/optical/s3_slstr_product.py:87-92 | `getattr(t, f"{raw}_{view}")` succeeds exactly for a radiance channel and the view `n` or `o` |
| S3Slstr.NoneIsAllOnes | eoreader/products/optical/s3_slstr_product.py:158 | every field defaults to 1.0, so NONE is the all-ones preset |
| S3Slstr.Notice07IsNotice06 | eoreader/products/optical/s3_slstr_product.py:129 | the notice-07 preset has the coefficients of notice 06 |
| S3Slstr.S4NeverAdjusted | eoreader/products/optical/s3_slstr_product.py:95-158 | no preset adjusts channel S4 |
| S3Slstr.DefaultPresetTable | eoreader/products/optical/s3_slstr_product.py:136-150 | the default preset's nadir and oblique coefficients, as tabulated |
| S3Slstr.MembersDetermineSuffix | eoreader/products/optical/s3_slstr_product.py:257-287 | different suffixes give different members |
| S3Slstr.SunAnglesFollowView | eoreader/products/optical/s3_slstr_product.py:274-276 | the geometry file and sun-angle names depend on the view only, and the two views give different names |
| S3Slstr.FilledRadianceFile | eoreader/products/optical/s3_slstr_product.py:259 | filling the template gives `{raw}_radiance_{suffix}.nc` |
| S3Slstr.FilledRadianceSubdataset | eoreader/products/optical/s3_slstr_product.py:260 | filling the template gives `{raw}_radiance_{suffix}` |
| S3Slstr.FilledQualityFile | eoreader/products/optical/s3_slstr_product.py:279 | filling the template gives `{raw}_quality_{suffix}.nc` |
| S3Slstr.FilledSolarFluxName | eoreader/products/optical/s3_slstr_product.py:280 | filling the template gives `{raw}_solar_irradiance_{suffix}` |
| S3Slstr.FilledExceptionName | eoreader/products/optical/s3_slstr_product.py:287 | filling the template gives `{raw}_exception_{suffix}` |
| S3Slstr.SlstrBandMap | eoreader/products/optical/s3_slstr_product.py:305-314 | the corrected map sends every band to a radiance channel |
| S3Slstr.SlstrBandMapShape | eoreader/products/optical/s3_slstr_product.py:305-314 | NIR and NARROW_NIR share S3, SWIR_CIRRUS reads S4, the key set is as listed, and only the two NIR bands share a channel |
| S3Slstr.NarrowNirAsWrittenIsCirrus | eoreader/products/optical/s3_slstr_product.py:310 | as written, NARROW_NIR reads S4 like SWIR_CIRRUS, not S3 like NIR, so the default preset adjusts it by 1.0 instead of NIR's 0.98 |
| S3Slstr.SolarFluxDefaultsCover | eoreader/products/optical/s3_slstr_product.py:60-68 | every mapped band has a positive default solar flux |
| S3Slstr.InvalidMask | eoreader/products/optical/s3_slstr_product.py:687-693 | a pixel is invalid exactly when it is NaN or its exception flag is above 2 |
| S3Slstr.HasCloudBand | eoreader/products/optical/s3_slstr_product.py:698-713 | only cloud bands other than SHADOWS are available |
| S3Slstr.HasCloudBandIff | eoreader/products/optical/s3_slstr_product.py:703-713 | true exactly for RAW_CLOUDS, ALL_CLOUDS, CLOUDS and CIRRUS |
| S3Slstr.AllIdsRange | eoreader/products/optical/s3_slstr_product.py:753 | the id list is exactly the bits 0 to 13 |
| S3Slstr.Without | eoreader/products/optical/s3_slstr_product.py:755 | the comprehension keeps exactly the ids other than the one removed |
| S3Slstr.CloudIdsRange | eoreader/products/optical/s3_slstr_product.py:754-755 | the cloud ids are the bits 0 to 13 other than the cirrus bit 8 |
| S3Slstr.AsList | eoreader/products/optical/s3_slstr_product.py:812-813 | a single bit id is wrapped in a list, and a list is kept |
| S3Slstr.CreateMask | eoreader/products/optical/s3_slstr_product.py:794-826 | an empty id list makes `reduce` raise TypeError; otherwise the result is the sieved OR of the decoded bits |
| S3Slstr.CreateMaskCondition | eoreader/products/optical/s3_slstr_product.py:814-815 | a pixel of the OR is set exactly when one of the selected bits is set in its flag |
| S3Slstr.CloudBits | eoreader/products/optical/s3_slstr_product.py:778-784 | each cloud mask band selects at least one bit |
| S3Slstr.CloudBitsSelection | eoreader/products/optical/s3_slstr_product.py:778-784 | ALL_CLOUDS selects bits 0..13, CLOUDS selects 0..13 without 8, and CIRRUS selects bit 8 |
| S3Slstr.LoadClouds | eoreader/products/optical/s3_slstr_product.py:715-792 | InvalidTypeError exactly when SHADOWS is requested; otherwise one layer per requested band, the mask of its bits or the raw flags |
| S3Slstr.S3SlstrProduct.constructor | eoreader/products/optical/s3_slstr_product.py:169-197 | the suffix starts as `an`, with an empty band map and GCP cache |
| S3Slstr.S3SlstrProduct.SetPreprocessMembers | eoreader/products/optical/s3_slstr_product.py:245-287 | an accepted suffix re-derives every member; any other fails the assertion and changes nothing |
| S3Slstr.S3SlstrProduct.ChangeSuffix | eoreader/products/optical/s3_slstr_product.py:225-243 | only the eight suffixes are accepted; the suffix and all its members change together and the product stays valid |
| S3Slstr.S3SlstrProduct.SetProductType | eoreader/products/optical/s3_slstr_product.py:295-321 | success exactly when character 7 is `1`, giving SL_1_RBT and the corrected band map (NARROW_NIR on S3, first Findings row); otherwise IndexError or InvalidTypeError with nothing changed |
| S3Slstr.S3SlstrProduct.RadianceCoefficient | eoreader/products/optical/s3_slstr_product.py:594-604 | a raw name is untouched, an unmapped or brightness-temperature band gets 1.0, only a radiance channel gets another coefficient, and a valid product never fails |
| S3Slstr.S3SlstrProduct.RadianceAdjustment | eoreader/products/optical/s3_slstr_product.py:556-604 | the array is returned unchanged or scaled pixel by pixel by that coefficient |
| S3Slstr.S3SlstrProduct.ComputeE0 | eoreader/products/optical/s3_slstr_product.py:633-652 | an unmapped band raises TypeError; the NaN-ignoring mean is used when defined, and the band's default flux otherwise |
| S3Slstr.S3SlstrProduct.SolarFluxSourceNames | eoreader/products/optical/s3_slstr_product.py:644-645 | on a valid product the flux is read from `{raw}_quality_{suffix}.nc`, variable `{raw}_solar_irradiance_{suffix}` |
| S3Slstr.S3SlstrProduct.ExceptionSubdataset | eoreader/products/optical/s3_slstr_product.py:671-676 | the quality layer fails with TypeError exactly for an unmapped band |
| S3Slstr.S3SlstrProduct.ExceptionSubdatasetName | eoreader/products/optical/s3_slstr_product.py:673 | on a valid product the quality layer is `{raw}_exception_{suffix}` |
| S3Slstr.S3SlstrProduct.ManageInvalidPixels | eoreader/products/optical/s3_slstr_product.py:656-696 | fails exactly for an unmapped band; otherwise the mask is the NaN and exception-flag rule |
| S3Slstr.S3SlstrProduct.CreateGcps | eoreader/products/optical/s3_slstr_product.py:394-410 | GCPs are built only for a suffix not yet cached, and each suffix is built at most once |
| S3Slstr.S3SlstrProduct.GeocodeSuffix | eoreader/products/optical/s3_slstr_product.py:427-428 | a missing or empty suffix means the current one |
| S3Slstr.S3SlstrProduct.Geocode | eoreader/products/optical/s3_slstr_product.py:412-442 | the GCPs used are the cached ones, built first only when the grid is new; a second call reuses them |
| S3Optical.BandReplacement | eoreader/products/optical/s3_product.py:296 | an optical band goes through the band map, and a raw string is used as it is |
| S3Optical.Substitutions | eoreader/products/optical/s3_product.py:295-299 | three entries, each searching a non-empty placeholder |
| S3Optical.Replace | eoreader/products/optical/s3_product.py:276-304 | the loop applies each entry with a replacement, in table order |
| S3Optical.ApplyAllNone | eoreader/products/optical/s3_product.py:301-302 | entries whose replacement is None change nothing |
| S3Optical.ApplyAllAbsent | eoreader/products/optical/s3_product.py:301-302 | a string holding none of the placeholders comes back unchanged |
| S3Optical.ReplaceWithoutReplacements | eoreader/products/optical/s3_product.py:295-303 | without band, suffix or view, the placeholders stay in place |
| S3Optical.TopLeg | eoreader/products/optical/s3_product.py:222-224 | the top row, left to right |
| S3Optical.RightLeg | eoreader/products/optical/s3_product.py:225-227 | the right column, top to bottom |
| S3Optical.BottomLeg | eoreader/products/optical/s3_product.py:228-231 | the bottom row, right to left |
| S3Optical.LeftLeg | eoreader/products/optical/s3_product.py:232-235 | the left column, bottom to top |
| S3Optical.RingShape | eoreader/products/optical/s3_product.py:222-235 | the ring has 2W + 2H vertices, passes the four corners and ends on its first vertex |
| S3Optical.FootprintVertices | eoreader/products/optical/s3_product.py:215-235 | grids of different shapes fail the assertion, an empty grid raises IndexError, and otherwise the result is the ring |
| S3Optical.CrsPixel | eoreader/products/optical/s3_product.py:259-268 | AssertionError for mismatched grids, IndexError for an empty one, and otherwise always the tie point in the middle row and middle column (int(h/2), int(w/2)) |
| S3Optical.ChosenPath | eoreader/products/optical/s3_product.py:400-409 | the clean path when that file exists, the pre-processed one otherwise |
| S3Optical.GetBandPaths | eoreader/products/optical/s3_product.py:397-411 | one entry per requested band, each the chosen path |
| S3Optical.LoadBandsPlan | eoreader/products/optical/s3_product.py:484-494 | no bands gives `{}`; a single band is wrapped; the resolution comes from the size only when it is None and a size is given |
| S3Optical.GetDatetimeAsWritten | eoreader/products/optical/s3_product.py:326-344 | as written, a missing `start_time` raises TypeError |
| S3Optical.GetDatetime | eoreader/products/optical/s3_product.py:326-344 | the stored datetime when set, otherwise the parsed `start_time`, given as a datetime or as its `%Y%m%dT%H%M%S` text; a missing `start_time` raises InvalidProductError and an unparsable one ValueError |
| S3Optical.GetDatetimeTextRoundTrip | eoreader/products/optical/s3_product.py:341-342 | the text form of a stored datetime reads back as that datetime |
| S3Optical.GetDatetimeMissingStart | eoreader/products/optical/s3_product.py:330-337 | the two versions differ on a missing `start_time`: TypeError as written, InvalidProductError corrected |
| S3Optical.CondensedName | eoreader/products/optical/s3_product.py:529-536 | no data type raises AttributeError; otherwise `{date}_{platform}_{data type name}` |
| S3Optical.CondensedNameFirstField | eoreader/products/optical/s3_product.py:536 | the date is the first `_`-separated field of the condensed name |
| S3Optical.CondensedNameDate | eoreader/products/optical/s3_product.py:536 | the datetime text heads the condensed name |
| S3Legacy.Detection | eoreader/products/s3_product.py:64-120 | IndexError for a short name; InvalidProductError exactly when there is neither OL nor SL; success exactly for OL with EFR or SL with RBT, with OL tested first |
| S3Legacy.InstrumentSeen | eoreader/products/s3_product.py:70-97 | the instrument is recorded as soon as OL or SL is seen |
| S3Legacy.LegacyBandMaps | eoreader/products/s3_product.py:82-118 | OLCI sends NIR and NNIR to 17; SLSTR sends them to 3 and MIR/TIR_1/TIR_2 to 7/8/9 |
| S3Legacy.SaturationBitsCover | eoreader/products/s3_product.py:425-437 | every mapped OLCI band has a saturation bit below the invalid bit 24 |
| S3Legacy.OlciMaskOf | eoreader/products/s3_product.py:450-456 | a pixel is masked when it is no data, has the invalid bit, or has the band's saturation bit |
| S3Legacy.SlstrMaskOf | eoreader/products/s3_product.py:498-504 | a pixel is masked when it is no data or its exception flag is above 2 |
| S3Legacy.OlciInvalidPixels | eoreader/products/s3_product.py:438-456 | a band without a saturation bit raises KeyError; without a flags file the band is kept |
| S3Legacy.S3Product.constructor | eoreader/products/s3_product.py:57-62 | no instrument, data type, product type or band yet |
| S3Legacy.S3Product.GetProductType | eoreader/products/s3_product.py:64-120 | success sets the type, the data type, the instrument and the band map; errors leave the maps unchanged |
| S3Legacy.S3Product.SnapBandName | eoreader/products/s3_product.py:140-165 | exactly `Oa{nb}_reflectance`, `S{nb}_BT_in` or `S{nb}_reflectance_an` with `nb` the band's number, with the unmapped and unknown-type errors |
| S3Legacy.S3Product.SnapBandNameNumber | eoreader/products/s3_product.py:155-163 | the band number is read back between the name's prefix and suffix |
| S3Legacy.S3Product.QualityFlagsName | eoreader/products/s3_product.py:167-187 | `S{nb}_exception_in` or `_an`; a non-RBT product raises InvalidTypeError |
| S3Legacy.S3Product.BandName | eoreader/products/s3_product.py:189-210 | a raw name is always accepted, and outside RBT the name is the SNAP name |
| S3Legacy.S3Product.BandNameOfSnapName | eoreader/products/s3_product.py:189-210 | a band and its SNAP name give the same standard name |
| S3Legacy.S3Product.BandNameStripsView | eoreader/products/s3_product.py:207-208 | for RBT, the standard name plus its view is the SNAP name |
| S3Legacy.S3Product.SlstrFlagsFile | eoreader/products/s3_product.py:488 | the flags file is `S{nb}_exception.tif` |
| S3Legacy.S3Product.SlstrInvalidPixels | eoreader/products/s3_product.py:463-504 | fails with the quality-flag name; without a flags file the band is kept, otherwise the SLSTR mask |
| S3Legacy.S3Product.InvalidPixels | eoreader/products/s3_product.py:355-360 | the OLCI rules for OLCI, the SLSTR ones otherwise |
| S3Legacy.S3Product.GetDatetime | eoreader/products/s3_product.py:122-138 | the fifth name field, parsed when a datetime is asked for |
| S3Legacy.S3Product.CondensedName | eoreader/products/s3_product.py:597-604 | `{date}_S3_{product type name}` exactly when both parts exist |
| S3Legacy.S3Product.CondensedNameDate | eoreader/products/s3_product.py:604 | the date is the first field of the condensed name |
| S2.BandMapsDiffer | eoreader/products/optical/s2_product.py:112-148 | L2A has no SWIR_CIRRUS, and L1C is L2A plus SWIR_CIRRUS → 10 |
| S2.TypeOf | eoreader/products/optical/s2_product.py:110-150 | MSIL2A first, then MSIL1C; anything else raises InvalidProductError |
| S2.L2aChannelsHaveFolders | eoreader/products/optical/s2_product.py:56-72 | every L2A channel is listed with at least one folder |
| S2.DirName | eoreader/products/optical/s2_product.py:226-238 | IMG_DATA for L1C; for L2A, the requested folder when it is listed, else the first one listed |
| S2.DirNameResolutionHit | eoreader/products/optical/s2_product.py:230-231 | a listed resolution picks its folder, truncated to an integer |
| S2.DirNameFallback | eoreader/products/optical/s2_product.py:233-235 | an unlisted resolution or none falls back on the first folder; an unknown channel raises KeyError |
| S2.ReadBandRadiometry | eoreader/products/optical/s2_product.py:335-336 | a uint16 band is divided by 10000, and any other band is kept |
| S2.ReadBandReflectance | eoreader/products/optical/s2_product.py:335-336 | a digital number in [0, 10000] becomes a reflectance in [0, 1] |
| S2.HasCloudBand | eoreader/products/optical/s2_product.py:604-613 | false only for SHADOWS |
| S2.OfType | eoreader/products/optical/s2_product.py:646 | the filter keeps exactly the polygons of that mask type |
| S2.Filtered | eoreader/products/optical/s2_product.py:644-657 | without a maskType column the selection is empty |
| S2.Selection | eoreader/products/optical/s2_product.py:641-663 | the selection of each cloud band; SHADOWS raises InvalidTypeError |
| S2.SelectionsDisjoint | eoreader/products/optical/s2_product.py:644-657 | the cirrus and opaque selections share no polygon |
| S2.Rasterize | eoreader/products/optical/s2_product.py:681-697 | an empty geometry gives an all-false grid |
| S2.NoMaskTypeNoClouds | eoreader/products/optical/s2_product.py:646-656 | without maskType, CIRRUS and CLOUDS are empty |
| S2.LoadClouds | eoreader/products/optical/s2_product.py:633-665 | InvalidTypeError exactly when SHADOWS is requested; otherwise one condition per band |
| S2.S2Product.SetProductType | eoreader/products/optical/s2_product.py:110-150 | the detected type and its band map, or InvalidProductError with nothing changed |
| S2.S2Product.BandFolder | eoreader/products/optical/s2_product.py:219-254 | an unmapped band raises InvalidProductError; otherwise the located folder of the band's directory |
| S2.S2Product.ResBandFolders | eoreader/products/optical/s2_product.py:201-262 | one folder per requested band; a band left without one raises InvalidProductError |
| S2.S2Product.TileName | eoreader/products/optical/s2_product.py:101-108 | the next-to-last name field |
| S2.S2Product.CondensedName | eoreader/products/optical/s2_product.py:533-542 | `{date}_S2_{tile}_{type}_{proc}`, with its IndexError and AttributeError cases |
| S2.S2Product.CondensedNameFields | eoreader/products/optical/s2_product.py:541-542 | the condensed name splits back into its five parts |
| RapidEye.BandTableShape | eoreader/products/optical/re_product.py:131-167 | five bands numbered 1 to 5 at 6.5 m, with NIR and NARROW_NIR the same band |
| RapidEye.EaiCoversBands | eoreader/products/optical/re_product.py:45-52 | every band has a positive irradiance, and NIR and NARROW_NIR share 1124.4 |
| RapidEye.FirstScaleFactorIsFirst | eoreader/products/optical/re_product.py:312-324 | a factor is found exactly when an entry has the number, and it is the earliest one's |
| RapidEye.FindScaleFactor | eoreader/products/optical/re_product.py:311-324 | the loop with `break` returns the first matching entry's factor |
| RapidEye.MulGrid | eoreader/products/optical/re_product.py:361 | the coefficient times every pixel |
| RapidEye.ToaRadToToaRefl | eoreader/products/optical/re_product.py:334-361 | KeyError exactly when the band has no irradiance; otherwise each pixel times π / (eai · dt · cos) |
| RapidEye.ReflectanceNonNegative | eoreader/products/optical/re_product.py:355-361 | a non-negative radiance with positive dt and cosine gives a defined, non-negative reflectance |
| RapidEye.GetDatetime | eoreader/products/optical/re_product.py:190-231 | the stored datetime when set, otherwise the acquisition date cut at `.` and parsed, given as a datetime or as its `%Y%m%dT%H%M%S` text; a missing or empty date raises InvalidProductError and an unparsable one ValueError |
| RapidEye.GetDatetimeIgnoresFraction | eoreader/products/optical/re_product.py:220-222 | the text after the first `.` does not matter |
| RapidEye.GetDatetimeTextParses | eoreader/products/optical/re_product.py:228-229 | the text form reads back as the datetime form |
| RapidEye.GetBandPaths | eoreader/products/optical/re_product.py:284-290 | every requested band maps to the stack path |
| RapidEye.ReProduct.MapBands | eoreader/products/optical/re_product.py:159-167 | the table is merged into the band map |
| RapidEye.ReProduct.SetProductType | eoreader/products/optical/re_product.py:170-188 | none or empty raises InvalidProductError, an unknown name AttributeError, L1B NotImplementedError, and L3A succeeds |
| RapidEye.ReProduct.DnToToaRad | eoreader/products/optical/re_product.py:292-332 | success exactly when an entry matches the band's number; no match raises InvalidProductError |
| RapidEye.ReProduct.ToReflectance | eoreader/products/optical/re_product.py:363-392 | DN to radiance, then to reflectance; each pixel is coefficient × factor × DN, with each error case named |
| Csg.FromValue | eoreader/products/sar/csg_product.py:44-102 | the mode with that value, or None when no mode has it |
| Csg.FromValueModeValue | eoreader/products/sar/csg_product.py:44-102 | reading a mode's value gives the mode back |
| Csg.ScsResolutionTable | eoreader/products/sar/csg_product.py:122-139 | the SCS table, and the sentinel −1 exactly for the modes it does not list |
| Csg.CsgProduct.DefaultResolution | eoreader/products/sar/csg_product.py:113-149 | the table for SCS; otherwise the metadata value, with InvalidProductError when it is missing and ValueError when it is no number |
| Csg.CsgProduct.SetSensorMode | eoreader/products/sar/csg_product.py:151-170 | the mode is stored; an unknown mode raises InvalidProductError |
| Csg.CsgProduct.ReadBandResolution | eoreader/products/sar/csg_product.py:199-207 | the request passed on and the new resolution are `Fallback`'s |
| Csg.FallbackProperties | eoreader/products/sar/csg_product.py:199-207 | a set resolution is kept and a negative one is replaced; no negative scalar passes once a resolution is known; a second read changes nothing |
| S1Rtc.FromValue | eoreader/products/sar/s1_rtc_product.py:207 | the mode with that value, or None |
| S1Rtc.ModeOfNameCases | eoreader/products/sar/s1_rtc_product.py:199-212 | a short name raises IndexError, S1 to S6 give SM, and an unknown mode raises InvalidProductError |
| S1Rtc.DefaultResolutionTable | eoreader/products/sar/s1_rtc_product.py:77-82 | SM 9, IW 20, EW 50, WV 51, all distinct |
| S1Rtc.PixelSizeOf | eoreader/products/sar/s1_rtc_product.py:72-75 | IndexError exactly for fewer than five fields; a value that is no number raises InvalidProductError |
| S1Rtc.PixelSizeOfDigits | eoreader/products/sar/s1_rtc_product.py:73 | two trailing digits give their value, at most 99 |
| S1Rtc.S1RtcProduct.SetSensorMode | eoreader/products/sar/s1_rtc_product.py:444-455 | a known mode is stored; an unknown one stores None and fails; a short name changes nothing |
| S1Rtc.S1RtcProduct.SetPixelSize | eoreader/products/sar/s1_rtc_product.py:68-85 | the pixel size is stored, then the mode's resolution; without a mode, KeyError |
| S1Rtc.S1RtcProduct.GetDatetime | eoreader/products/sar/s1_rtc_product.py:214-246 | the stored datetime when set, otherwise the name's sensing-time field (the third for ASF; the fifth for the Planetary Computer, lines 457-489) read with `%Y%m%dT%H%M%S`, given as a datetime or as its text; a short name raises IndexError and a field that is no datetime ValueError |
| S1Rtc.S1RtcProduct.GetDatetimeTextParses | eoreader/products/sar/s1_rtc_product.py:239-244 | the text form reads back as the datetime form, and a datetime read from the name is a real calendar datetime |
| S1Rtc.QuicklookName | eoreader/products/sar/s1_rtc_product.py:248-259 | a name without `rgb` is kept |
| S1Rtc.QuicklookNameDropsSuffix | eoreader/products/sar/s1_rtc_product.py:256-257 | `base_rgb` gives back `base` |
| S1Rtc.AsfOrbitDirection | eoreader/products/sar/s1_rtc_product.py:307-324 | an ASF product never reports ASCENDING or DESCENDING |
| S1Rtc.RawBandPaths | eoreader/products/sar/s1_rtc_product.py:417-436 | exactly the bands with an asset, each with its signed href |
| S1Rtc.ExtentOf | eoreader/products/sar/s1_rtc_product.py:139-142 | the extent keeps the footprint's CRS |
| S1Rtc.TotalBoundsContain | eoreader/products/sar/s1_rtc_product.py:141 | the bounds exist exactly for a non-empty footprint, and they contain every vertex |
| S1Rtc.TotalBoundsTight | eoreader/products/sar/s1_rtc_product.py:141 | each side of the bounds touches a vertex |
| S1Rtc.ExtentIsBoundingBox | eoreader/products/sar/s1_rtc_product.py:139-142 | the extent is the footprint's bounding box |
| Dates.Parse | eoreader/products/sar/s1_rtc_product.py:239 | `strptime(…, "%Y%m%dT%H%M%S")` accepts only fields that make a valid datetime: a month from 1 to 12, a day that exists in its month (leap years included), and a time of day |
| Dates.ParseFormat | eoreader/products/optical/s3_product.py:342 | the `%Y%m%dT%H%M%S` text of a valid datetime is 15 characters with `T` at index 8, and parsing it gives the datetime back |
| Dates.ParseFormatInvalid | eoreader/products/sar/s1_rtc_product.py:239 | the text of a datetime that names no real day or time, such as 31 April, is rejected |
| Dates.ParseFormatParse | eoreader/products/sar/s1_rtc_product.py:239-244 | formatting a parsed datetime and parsing the text again gives the same datetime |
| Spot7.DefaultResolution | eoreader/products/optical/spot7_product.py:42-50 | 6.0 exactly for MS, MS_X and MS_N; 1.5 for every other combination |
| Landsat.CondensedNameFields | eoreader/products/optical/l3_product.py:40 | an underscore-free date, constellation and tile split back out of the condensed name |
| Landsat3.MssBandMapShape | eoreader/products/optical/l3_product.py:21-29 | no BLUE, VRE_1/2/3 share 6 and NIR/NNIR share 7 |
| Landsat3.L3Product.SetProductType | eoreader/products/optical/l3_product.py:17-31 | `L1` gives L1_MSS and the MSS map; anything else raises InvalidProductError with nothing changed |
| Landsat3.L3Product.CondensedName3 | eoreader/products/optical/l3_product.py:33-40 | `{date}_L3_{tile}_{type}`; AttributeError without a type |
| Landsat5.DefaultResolutionAsWritten | eoreader/products/optical/l5_product.py:9-18 | as written, 60 exactly for L1_TM, otherwise 30 |
| Landsat5.DefaultResolutionAsWrittenSwapped | eoreader/products/optical/l5_product.py:13-17 | as written, TM gets twice its reflective pixel size and MSS half its pixel size |
| Landsat5.DefaultResolution | eoreader/products/optical/l5_product.py:9-18 | corrected: 30 exactly for L1_TM, otherwise 60 |
| Landsat5.DefaultResolutionIsReflectivePixelSize | eoreader/products/optical/l5_product.py:9-18 | corrected, the default is the pixel size of the product's reflective bands, the finest it has |
| Landsat5.SetProductTypeCases | eoreader/products/optical/l5_product.py:20-27 | LT05 gives TM, LM05 alone gives MSS version 5, and neither raises InvalidProductError |
| Landsat5.BothCodesGiveTm | eoreader/products/optical/l5_product.py:22-23 | a name holding both codes is TM, because LT05 is tested first |

## Left out

- File and archive I/O is not modelled: NetCDF, XML, ZIP and GML. Their contents are parameters.
- Reprojection, tie-point spline resampling, `read_bit_array`, `sieve` and rasterisation are external libraries, passed in as parameters or stated pointwise.
- `split_name` is defined outside these readers. It is assumed to split the name on `_` and drop empty fields (`Strings.SplitName`).
- Landsat's `LandsatProductType`, Sentinel-1's `S1SensorMode`, SPOT's `DimapBandCombination` and COSMO's `CosmoProductType` are defined outside these readers. Their members are assumed.
- `ListEnum.from_value` is assumed to return None for unknown text.
- The band vocabulary is defined outside these readers: NNIR is modelled as NARROW_NIR, and `obn.CIRRUS` as SWIR_CIRRUS.
- `OpticalProduct._create_mask`, the superclass step after the cloud condition, lives outside these readers. The SLSTR and S2 masks stop at the condition grid.
- S2 `_manage_invalid_pixels` is left out. It depends on rasterisation and numpy fancy indexing, and its pandas `append` results are discarded.
- S2 `_rasterize`: grids are two-dimensional, so the count axis is dropped. Cloud polygons are opaque values.
- S2.S2Product.BandFolder: the folder search through the archive or the directory tree is the `locate` parameter.
- S3Slstr.HasCloudBand: its own ensures states one direction only; the iff is `HasCloudBandIff`.
- The SLSTR id lists are written as literals rather than computed with `np.arange`.
- The SLSTR `_preprocess`, `_bt_2_rad`, `_rad_2_refl`, `_compute_sza_img_grid` and `_tie_to_img` steps are radiometry and I/O, and are left out.
- `run_s3_gpt_cli` in the older Sentinel-3 reader is left out. It is subprocess glue for SNAP.
- Floating-point width is not modelled: reals stand for float64 and float32. The float32 cast in RapidEye.ReProduct.ToReflectance is not modelled.
- RapidEye.ToaRadToToaRefl takes the squared Sun–Earth distance variation and the cosine of the solar zenith angle as inputs. The trigonometry and the metadata reading are left out.
- RapidEye.ReProduct.DnToToaRad: `self.bands[band]` is modelled as raising KeyError for an unmapped band. The band container is defined elsewhere.
- RapidEye `_post_init`, `_set_instrument` and the quicklook and metadata helpers are left out.
- Sentinel-1 RTC: the Planetary Computer reader's pixel size and orbit direction are left out; both come from STAC metadata. Its `__init__` planetary-computer and asyncio setup is left out too.
- Sentinel-1 RTC footprint and CRS read files and are left out.
- Landsat5.CondensedName5: `_get_landsat_condensed_name` is defined outside these readers. The model follows its docstring `{date}_L5_{tile}_{type}` and carries no contract.
- Landsat5.SetProductType: `_set_tm_product_type` and `_set_mss_product_type` are defined outside these readers. The dispatch is modelled as a tag.
- `strptime` and `strftime` with other formats are parameters. Only the `%Y%m%dT%H%M%S` form is modelled (`Dates.Format` and `Dates.Parse`).
- Dates.Parse: reads only the fifteen-character zero-padded form. `strptime` also accepts shorter texts with unpadded fields, such as `2020128T123456` (8 December 2020), which the model rejects.
- Dates.Format: pads years below 1000 to four digits. The platform's `strftime` may not pad them.
- Dates.DateTime has no microsecond field. The Sentinel-3 `start_time` is parsed with `%f`, so the datetime form returned there loses its sub-seconds in the model. The text form is unaffected, because `DATETIME_FMT` has no sub-seconds.
- Rasters.Div: numpy gives +inf or -inf for a non-zero value over zero, and NaN only for 0 / 0. The model has no infinities and gives NaN in both cases, so any index whose denominator is zero is NaN here. This also affects the values that follow from such a pixel, such as an infinity compared with a threshold.
- S3Slstr.S3SlstrProduct.SetProductType: installs the corrected map (first Findings row), with NARROW_NIR on S3. The code at eoreader/products/optical/s3_slstr_product.py:310 installs S4. `S3Slstr.NarrowNirAsWrittenIsCirrus` states what the code does.

## Findings

| source | as written | input that shows it | evidently intended | confidence | as-written member | corrected member |
|---|---|---|---|---|---|---|
| eoreader/products/optical/s3_slstr_product.py:310 | NARROW_NIR is mapped to `SLSTR_RAD_BANDS[3]`, which is S4, the 1.375 µm cirrus channel also used by SWIR_CIRRUS | any SLSTR RBT product asked for NARROW_NIR reads S4 and is adjusted by 1.0 instead of NIR's 0.98 | `SLSTR_RAD_BANDS[2]` (S3), as the line's comment says and as the older reader maps NNIR to `3` | medium; not executed | S3Slstr.NarrowNirAsWrittenIsCirrus | S3Slstr.SlstrBandMapShape |
| eoreader/products/optical/l5_product.py:13-17 | L1_TM gets a 60 m default and every other type (MSS) 30 m. The comment about leaving the thermal band aside sits on the 30 m branch, yet the thermal band is TM's | any L1_TM product defaults to 60 m, twice its 30 m reflective pixel size; a Landsat-5 MSS product defaults to 30 m, finer than its 60 m bands | the branches swapped: 30 m for L1_TM, 60 m for MSS | medium; not executed | Landsat5.DefaultResolutionAsWrittenSwapped | Landsat5.DefaultResolutionIsReflectivePixelSize |
| eoreader/products/optical/s3_product.py:330-337 | the `except TypeError` guards `findtext`, which returns None for a missing element; `strptime(None, …)` then raises TypeError outside the guard | metadata without `start_time` and no stored datetime | InvalidProductError("start_time not found in metadata!") | medium; not executed | S3Optical.GetDatetimeAsWritten | S3Optical.GetDatetime |
