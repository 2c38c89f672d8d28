# kitfg record-processing core in Dafny

kitfg generates the three stacked plates of a PCB test fixture from a
KiCad board and a TOML configuration. The solid modelling is done by
build123d and shapely. Around it sits a small layer of record processing,
and that layer is what this project models and proves:

- **Selecting footprints and pads** (`kitfg.dfy`, module `Kitfg`). The
  annotation footprints are the ones named `TestFixture_*`. The SMD pads
  come from `TestPoint_*` footprints on the back copper. The PTH pads come
  from every footprint except `MountingHole_*`.
- **Finding unannotated pads** (`Kitfg`). A pad is kept when no annotation
  footprint lies strictly within 1 mm of it.
- **Grouping annotation positions** (`Kitfg`), by footprint name, in the
  order of an insertion-ordered `defaultdict(list)`.
- **Parsing the hole specs** (`config.dfy`, module `Config`). The
  `annotations` validator turns each list of three `{"type": ...}` tables
  into an `Annotation(A, B, C)` of hole specs.
- **Dispatching one hole spec** (`render.dfy`, module `Render`):
  `apply_operation`.
- **Building the plates** (`Render`): `render_plates`. Each plate is a
  trace: the blank box plus the cuts and embossings applied to it, in
  order.
- **The merge and the file names in `main`** (`cli.dfy`, module `Cli`).
  The unannotated pads are merged into the configured auto-annotation
  types, and each plate gets an output file name.

Supporting modules:
- `wrappers.dfy`: `Option` and `Result`.
- `seqs.dfy`: filtering and subsequences of sequences.

How the model represents the program:
- Board positions are integer nanometres, as KiCad stores them. The
  distance test compares squared distances, so no square root is taken.
- Python exceptions are `Failure` values.
- A footprint whose pads cannot be read has `pads == None`. This stands
  for the ValueError that kicad-python raises.
- The dict of annotation positions is `Groups`: an insertion order plus a
  map. Reading a missing key gives the empty list, as a `defaultdict` does,
  but `Get` does not insert the key: the source creates keys only through
  `append` and `extend`, which `Kitfg.Extend` models.
- Functions that a loop of the source implements are defined from the
  end of their input sequence. The loop invariants then read
  "the result so far is the function of the prefix".

Two details of the code worth noting:
- **Pads at exactly the radius.** A pad is dropped only when some
  annotation footprint is strictly within the radius (`distance < radius`,
  src/kitfg/kitfg.py:91). A pad at exactly the radius is kept: see
  `Kitfg.UnannotatedBoundary`.
- **Unknown hole tags.** Any tag other than `SimpleHole` and
  `CounterboreHole` gives "no hole" (`None`, src/kitfg/config.py:99-100):
  see `Config.TagDecidesVariant`. Only a table without a `type` key fails.

## Model

| member | source | states |
|---|---|---|
| Kitfg.AnnotationFootprints | src/kitfg/kitfg.py:16-21 | The result is a subsequence of the board's footprints, in board order. Each footprint occurs as often as on the board when its name starts with `TestFixture_`, and not at all otherwise. |
| Kitfg.SmdPadsOfContents | src/kitfg/kitfg.py:38-43 | Flattening the SMD pads fails iff some footprint's pads cannot be read. Otherwise the result holds exactly the SMD pads of the footprints. |
| Kitfg.TestPointSmdPads | src/kitfg/kitfg.py:24-45 | Fails iff some `TestPoint_` footprint on back copper has unreadable pads (nothing guards the read). Otherwise a pad is in the result iff it is SMD and belongs to such a footprint; the order (footprint order, then pad order) follows from `SmdPadsOfAppend` and `SmdPadsOfOne`. |
| Kitfg.SmdPadsOfAppend | src/kitfg/kitfg.py:38-43 | Scanning two footprint lists one after the other gives the first list's pads followed by the second's: footprint order; `SmdPadsOfOne` gives the pad order within each footprint. The first failure is the one reported. |
| Kitfg.SmdPadsOfOne | src/kitfg/kitfg.py:38-43 | One footprint's scan fails iff its pads cannot be read. Otherwise it is its SMD pads in the footprint's own pad order, each as often as it occurs there. |
| Kitfg.TestPointSmdPadsAppend | src/kitfg/kitfg.py:31-43 | Test-point pads of a concatenated board are the first part's pads followed by the second's. A failure in the first part wins. |
| Kitfg.ThtPads | src/kitfg/kitfg.py:48-72 | The loop over the non-mounting-hole footprints, which skips a footprint whose pads raise ValueError, returns exactly `ThtPadsSpec(board)`. |
| Kitfg.PthPadsOfAppend | src/kitfg/kitfg.py:63-70 | The PTH scan of a concatenation is the first part's pads followed by the second's. |
| Kitfg.PthPadsOfOne | src/kitfg/kitfg.py:63-70 | One footprint contributes its PTH pads in pad order, each as often as it occurs there, or nothing when its pads cannot be read. |
| Kitfg.PthPadsOfMembership | src/kitfg/kitfg.py:63-70 | A pad is collected iff it is PTH and belongs to a footprint whose pads can be read. |
| Kitfg.ThtPadsMembership | src/kitfg/kitfg.py:55-72 | `get_tht_pads` returns exactly the PTH pads of readable footprints not named `MountingHole_*`. It returns no pad of a mounting hole and no non-PTH pad. |
| Kitfg.ThtPadsSkips | src/kitfg/kitfg.py:63-70 | A footprint whose pads raise ValueError, or a mounting hole, contributes nothing. The footprints after it are still scanned, in order. |
| Kitfg.Unannotated | src/kitfg/kitfg.py:75-96 | The nested for/else loop, which breaks at the first annotation strictly within the radius, returns exactly `UnannotatedSpec`. |
| Kitfg.UnannotatedIsSubsequence | src/kitfg/kitfg.py:84-96 | The unannotated pads are an order-preserving subsequence of the input pads. |
| Kitfg.UnannotatedMultiplicity | src/kitfg/kitfg.py:86-94 | Each pad keeps its multiplicity when every annotation is at least the radius away from it. Otherwise it is dropped entirely. |
| Kitfg.UnannotatedMembership | src/kitfg/kitfg.py:86-94 | A pad is in the result iff it is one of the pads and every annotation is at distance at least the radius from it. |
| Kitfg.UnannotatedWithoutAnnotations | src/kitfg/kitfg.py:88-94 | With no annotation footprints, every pad is returned unchanged. |
| Kitfg.UnannotatedBoundary | src/kitfg/kitfg.py:90-92 | The test is strict: a pad exactly one radius from the annotation is kept, and one nanometre closer it is dropped. |
| Kitfg.Extend | src/kitfg/kitfg.py:124-128 | `d[k].extend(ps)` on a `defaultdict(list)`: `k` becomes a key even when `ps` is empty. A new key goes last in the order. `k`'s list gains `ps` at its end, and every other list is unchanged. |
| Kitfg.GroupSpec | src/kitfg/kitfg.py:118-130 | The grouped positions are a well-formed insertion-ordered dict: no repeated key, and the order lists exactly the keys. |
| Kitfg.AnnotationPositions | src/kitfg/kitfg.py:118-130 | The appending loop returns exactly `GroupSpec(annotationFootprints)`. |
| Kitfg.GroupSpecKeys | src/kitfg/kitfg.py:126-128 | The keys are exactly the names of the input footprints. |
| Kitfg.GroupSpecLists | src/kitfg/kitfg.py:126-128 | Each name's list is exactly the positions of the footprints with that name, in input order. |
| Kitfg.GroupSpecTotal | src/kitfg/kitfg.py:126-128 | The list lengths, summed over the keys, equal the number of input footprints. |
| Config.AliasesReadFields | src/kitfg/config.py:33-63 | `w`, `h`, `x` and `y` return `width_mm`, `height_mm`, `x_mm` and `y_mm` unchanged. |
| Config.InvalidFields | src/kitfg/config.py:7-13 | A declared field is reported iff it is missing or not a number. Undeclared keys are ignored. |
| Config.BuildHole | src/kitfg/config.py:95-100 | Tag `SimpleHole` gives a SimpleHole iff `diameter_mm` is valid. Tag `CounterboreHole` gives a CounterboreHole iff all three of its fields are valid. Either hole carries the table's values. Any other tag gives "no hole". The only failure is a validation error whose list is exactly the invalid fields of that hole type (`InvalidFields`). |
| Config.MissingTypeFails | src/kitfg/config.py:92-100 | When the loop reaches a hole table without `type` (every earlier table parsed), the whole annotation fails with KeyError on `type`. |
| Config.ParseHolesContents | src/kitfg/config.py:92-100 | The loop over the entries succeeds iff every entry parses. On success there is one hole per entry, and hole i is entry i's hole. |
| Config.PrefixParses | src/kitfg/config.py:92-100 | The loop gets past the first k entries iff each of them parses. |
| Config.ParseHolesStops | src/kitfg/config.py:92-100 | The loop stops at the first entry that fails, and the whole parse fails with that entry's error. |
| Config.ParseAnnotationInPlace | src/kitfg/config.py:89-101 | `_parse_annotation` on the list it mutates: the result is `ParseAnnotation` of the original entries. A list whose length is not 3 fails the assertion and is left untouched. Otherwise the list becomes `AfterParse` of the original: an entry has lost its `type` key iff every entry before it parsed. |
| Config.AfterParseFailure | src/kitfg/config.py:92-100 | When the loop stops at entry i, the parse fails with entry i's error. Entries up to i have lost their `type` key (a missing key stays missing), and later entries keep theirs. |
| Config.AfterParseRemovesTags | src/kitfg/config.py:92-94 | After a successful parse, every entry has lost exactly its `type` key and nothing else. |
| Config.ParseAnnotationCharacterised | src/kitfg/config.py:89-101 | `_parse_annotation` succeeds iff there are exactly three entries and each parses. Any other length fails the length assertion. A, B and C come from entries 0, 1 and 2. |
| Config.TagDecidesVariant | src/kitfg/config.py:95-100 | A SimpleHole comes only from tag `SimpleHole` and a CounterboreHole only from tag `CounterboreHole`. Every other tag is "no hole", never an error. |
| Config.ParseAnnotations | src/kitfg/config.py:88-103 | The validator succeeds iff every value parses. Its key set is exactly the input's key set. |
| Config.ParseAnnotationsValues | src/kitfg/config.py:103 | Each input key maps to the parse of its own value. |
| Render.ApplyOperation | src/kitfg/kitfg.py:273-292 | `None` returns the plate unchanged. Any hole appends exactly one cut after the existing steps. That cut has the requested site, half the configured diameters as radii, and the plate thickness as depth. The box dimensions never change. |
| Render.CounterboreIsNotCutAsSimpleHole | src/kitfg/kitfg.py:276-290 | A counterbore hole passes the SimpleHole instance test, yet it is cut as a counterbore, because that test comes first. |
| Render.FirstUnknown | src/kitfg/kitfg.py:169-224 | No round is reported iff every round's annotation type is configured. A reported name is unconfigured and belongs to some round. |
| Render.FirstUnknownAppend | src/kitfg/kitfg.py:169-224 | The rounds are checked in order: a failure among the earlier rounds is the one reported. |
| Render.UnknownIsReported | src/kitfg/kitfg.py:169-224 | When all rounds before some round are configured and that round is not, its annotation type is the KeyError reported. |
| Render.RenderFailsAt | src/kitfg/kitfg.py:169-224 | With at least three thicknesses, `render_plates` fails with KeyError on the first round whose annotation type is not configured. |
| Render.FixedRoundFails | src/kitfg/kitfg.py:169-200 | When the alignment-pin, pressure-pin or mount-pillar type is the first one missing from the table, `render_plates` fails on that type. |
| Render.AnnotationRoundFails | src/kitfg/kitfg.py:213-224 | When the fixed rounds and the names before name k are configured and name k is not, `render_plates` fails on name k. |
| Render.AnnotationJobsAppend | src/kitfg/kitfg.py:213 | The annotation rounds follow the dict's order: the rounds of a concatenated order are the concatenation of the rounds. |
| Render.RunJobs | src/kitfg/kitfg.py:172-231 | Running the rounds keeps a plate's width, height and thickness. |
| Render.RenderSpec | src/kitfg/kitfg.py:133-270 | Fewer than three thicknesses fail with IndexError. Otherwise rendering succeeds iff every round's annotation type is configured. A reported unknown name is one that some round needs. Success yields exactly three plates. |
| Render.ApplyToEach | src/kitfg/kitfg.py:172-178 | Plate i becomes `apply_operation` of plate i with spec i of the triple, at its own thickness. |
| Render.ApplyJob | src/kitfg/kitfg.py:224-231 | One more round on all three plates extends the invariant that plate i is blank plate i after the rounds so far. |
| Render.AnnotationRounds | src/kitfg/kitfg.py:213-231 | The loop over the dict runs one round per name, in the dict's order. It fails at the first unconfigured name with the error `render_plates` reports, and otherwise leaves every plate after all rounds. |
| Render.EmbossPlates | src/kitfg/kitfg.py:249-268 | The outline is added to plates A and B, then the label to every plate, giving exactly the three plates of `PlateSpec`. |
| Render.RenderPlates | src/kitfg/kitfg.py:133-270 | The whole of `render_plates`: blank plates, the alignment-pin, pressure-pin and mount-pillar rounds, the annotation rounds, then the embossings. It returns exactly `RenderSpec`. |
| Render.RunJobsCuts | src/kitfg/kitfg.py:172-231 | The rounds leave on plate i one cut per requested hole, in round order and after the existing steps. Each cut matches the i-th spec of its round's triple. |
| Render.RequestedHolesAppend | src/kitfg/kitfg.py:172-231 | The holes requested by two runs of rounds are the first run's followed by the second's. |
| Render.PlateHoles | src/kitfg/kitfg.py:160-231 | The holes asked of plate i are those of the alignment-pin, pressure-pin and mount-pillar rounds, followed by those of the annotation rounds. |
| Render.PlateContents | src/kitfg/kitfg.py:149-268 | Plate i has the configured width and height and thickness i. It has the alignment-pin, pressure-pin and mount-pillar cuts before the annotation cuts, each matching spec i. Then the outline, only when i < 2. Then the label, as its last step. |
| Render.RunJobsOnlyCuts | src/kitfg/kitfg.py:172-231 | The rounds add only cuts: no outline and no label. |
| Render.OutlineAndLabel | src/kitfg/kitfg.py:249-268 | The outline is embossed exactly once on plates A and B and never on C. Each plate carries its own label exactly once and no other label. |
| Render.LabelsDistinct | src/kitfg/kitfg.py:263 | The labels `"<name> Plate A"`, `"… B"` and `"… C"` are pairwise different. |
| Render.AnnotationJobsCover | src/kitfg/kitfg.py:213 | Every name in the dict gets a round. |
| Render.UnconfiguredNameFails | src/kitfg/kitfg.py:213-224 | A name in the positions dict without a hole triple makes rendering fail with KeyError, even when its list is empty. |
| Cli.AutoExtend | src/kitfg/cli.py:35-38 | A falsy type (`None` or `""`) changes nothing. A set type gains the positions at the end of its list (the key is created if missing, and goes last). Every other key is unchanged. |
| Cli.AutoAnnotated | src/kitfg/cli.py:35-43 | After both merges, the keys are the old keys plus each set type. The old order is a prefix of the new one. With neither type set, the positions are unchanged. |
| Cli.AutoAnnotatedLists | src/kitfg/cli.py:35-43 | Each key's list is its old list, then the SMD positions if it is the test-point type, then the THT positions if it is the through-hole type. So when both types name the same key, the SMD positions come first. |
| Cli.CollectPositions | src/kitfg/cli.py:25-43 | Fails iff reading the test-point pads fails. Otherwise the result is the annotation positions merged with the unannotated SMD and PTH pad positions. Both sets of pads are matched against the same full list of `TestFixture_` footprints at the 1 mm default radius. |
| Cli.PlateFileNamesDistinct | src/kitfg/cli.py:64-67 | `"<name>_plate_A.step"`, `"…B.step"` and `"…C.step"` are pairwise different. |
| Cli.PlateExports | src/kitfg/cli.py:64-67 | Plate i is exported to `PlateFileName(name, i)`, in plate order, and no two plates share a file. |

## Left out

- **CAD geometry.** The build123d solid modelling is reduced to the
  abstract trace of steps: boxes, fillets, holes, counterbores, extrusions,
  text, loft and chamfer. This covers `render_tester_board_mounts` and
  `render_pressure_pin` as well. It is a foreign CAD kernel.
- **The board outline.** `get_edge` (polygon conversion, simplify) and the
  outline buffer and centroid shift in `render_plates` are shapely
  floating-point geometry. The outline appears only as the `OutlineEmboss`
  step. Its assertion that the board has exactly one outline polygon
  (src/kitfg/kitfg.py:105), which can stop `main` before the pads are read,
  is not modelled: `Cli.CollectPositions` fails only on unreadable pads.
- **Cut locations.** The nm→mm conversion and centroid shift of annotation
  positions, and the alignment- and pressure-pin rectangle corners, are
  float arithmetic. A cut records which positions or which pin set it
  applies to, not their millimetre coordinates.
- **Pressure-pin lengths and the remaining exports.** The pressure-pin
  length sums and the export of the pressure pins and the tester-board
  mount (`cli.py` lines 47-61 and 69-83) are float arithmetic and
  geometry. Those lines also read config fields that the schema in
  `config.py` does not declare.
- **Auto-annotation types.** `Project` in `config.py` declares only `name`,
  yet `main` reads `project.test_point_auto_annotation_type` and
  `project.tht_pad_auto_annotation_type`. The two types are therefore
  parameters of `Cli.CollectPositions`, not fields of `Config.Config`.
- **I/O.** The KiCad IPC calls (`KiCad().get_board()`, `get_footprints`,
  `get_shapes`) are replaced by the footprint list as an input. argparse,
  TOML loading, creating the output directory and writing STEP files are
  also left out: `Cli.PlateExports` returns the (file name, plate) pairs
  instead of writing them.
- **Logging** in `apply_operation`.
- Kitfg.Unannotated: the source compares a float Euclidean length with
  `radius_mm * 1e6`. The model compares exact squared integer distances.
  It does not model float rounding at the boundary.
- Config.InvalidFields: pydantic's coercion (numeric strings, bools,
  integers as floats) is not modelled. A dimension is valid only when it
  is a number.
- Config.ParseAnnotations: the dict comprehension is stated on values.
  The in-place deletion of `type` is modelled per list, by
  `Config.ParseAnnotationInPlace`. The same table object appearing twice,
  and so being mutated twice, is not modelled.
- Config.ParseAnnotations: a value that is not a list, or an entry that
  is not a table, is outside the model's types. So is a `type` used as a
  dimension.
- **Float types.** Dimensions are `real`, not IEEE floats.
