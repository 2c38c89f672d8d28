/** The record-processing part of `main` in src/kitfg/cli.py: merging the
    unannotated test-point and through-hole pads into the annotation
    positions, and naming the per-plate output files. */
module Cli {
  import opened Wrappers
  import opened Kitfg
  import opened Render

  /** Python truthiness of an optional config string: `None` and `""` are
      false. */
  predicate IsSet(autoType: Option<string>)
  {
    autoType.Some? && autoType.value != ""
  }

  /** The key an auto-annotation type adds, if it is set. */
  function AutoKey(autoType: Option<string>): set<string>
  {
    if IsSet(autoType) then {autoType.value} else {}
  }

  /** `pad.position for pad in pads`. */
  function PadPositions(pads: seq<Pad>): seq<Pos>
  {
    seq(|pads|, i requires 0 <= i < |pads| => pads[i].position)
  }

  /** One `if auto_type: positions[auto_type].extend(ps)` step. */
  function AutoExtend(positions: Groups, autoType: Option<string>, ps: seq<Pos>): (r: Groups)
    requires positions.Valid()
    ensures r.Valid()
    ensures r.lists.Keys == positions.lists.Keys + AutoKey(autoType)
    ensures forall k :: r.Get(k) == positions.Get(k) + (if IsSet(autoType) && k == autoType.value then ps else [])
    ensures |positions.order| <= |r.order| && r.order[..|positions.order|] == positions.order
    ensures !IsSet(autoType) ==> r == positions
  {
    if IsSet(autoType) then Extend(positions, autoType.value, ps) else positions
  }

  /** The merge of lines 35-43: when a type is set, the positions go to the
      end of that type's list (creating it, last in the dict's order, if
      missing); nothing changes when neither type is set. The lists
      themselves are stated in `AutoAnnotatedLists`. */
  function AutoAnnotated(positions: Groups, testPointType: Option<string>, smd: seq<Pos>,
                         thtPadType: Option<string>, tht: seq<Pos>): (r: Groups)
    requires positions.Valid()
    ensures r.Valid()
    ensures r.lists.Keys == positions.lists.Keys + AutoKey(testPointType) + AutoKey(thtPadType)
    ensures |positions.order| <= |r.order| && r.order[..|positions.order|] == positions.order
    ensures !IsSet(testPointType) && !IsSet(thtPadType) ==> r == positions
  {
    var merged := AutoExtend(positions, testPointType, smd);
    assert merged.order[..|positions.order|] == positions.order;
    AutoExtend(merged, thtPadType, tht)
  }

  /** After the merge, each type's list is its annotated positions, then
      the test-point positions if it is the test-point type, then the
      through-hole positions if it is the through-hole type; every other
      list is unchanged. */
  lemma AutoAnnotatedLists(positions: Groups, testPointType: Option<string>, smd: seq<Pos>,
                           thtPadType: Option<string>, tht: seq<Pos>, k: string)
    requires positions.Valid()
    ensures AutoAnnotated(positions, testPointType, smd, thtPadType, tht).Get(k) ==
              positions.Get(k) +
              (if IsSet(testPointType) && k == testPointType.value then smd else []) +
              (if IsSet(thtPadType) && k == thtPadType.value then tht else [])
  {
    var merged := AutoExtend(positions, testPointType, smd);
    assert merged.Get(k) == positions.Get(k) + (if IsSet(testPointType) && k == testPointType.value then smd else []);
  }

  /** Lines 24-43 of `main`: the annotation footprints, their positions by
      name, the unannotated bottom SMD test-point pads and PTH pads (both
      matched against the same full list of annotation footprints, at the
      default radius), merged into the positions by the configured
      auto-annotation types. Fails only when a bottom test point's pads
      cannot be read. */
  method CollectPositions(board: seq<Footprint>, testPointAutoType: Option<string>, thtPadAutoType: Option<string>)
    returns (r: Result<Groups, BoardError>)
    ensures r.Failure? <==> TestPointSmdPads(board).Failure?
    ensures r.Success? ==>
              var fixtures := AnnotationFootprints(board);
              && r.value.Valid()
              && r.value == AutoAnnotated(
                   GroupSpec(fixtures),
                   testPointAutoType,
                   PadPositions(UnannotatedSpec(TestPointSmdPads(board).value, fixtures, DefaultRadiusNm)),
                   thtPadAutoType,
                   PadPositions(UnannotatedSpec(ThtPadsSpec(board), fixtures, DefaultRadiusNm)))
  {
    var footprints := AnnotationFootprints(board);
    var annotationPositions := AnnotationPositions(footprints);
    var smdPads := TestPointSmdPads(board);
    if smdPads.Failure? {
      return Failure(smdPads.error);
    }
    var unannotatedSmtPads := Unannotated(smdPads.value, footprints, DefaultRadiusNm);
    var thtPads := ThtPads(board);
    var unannotatedThtPads := Unannotated(thtPads, footprints, DefaultRadiusNm);

    if IsSet(testPointAutoType) {
      annotationPositions := Extend(annotationPositions, testPointAutoType.value, PadPositions(unannotatedSmtPads));
    }
    if IsSet(thtPadAutoType) {
      annotationPositions := Extend(annotationPositions, thtPadAutoType.value, PadPositions(unannotatedThtPads));
    }
    r := Success(annotationPositions);
  }

  /** The name plate `i` is written to: `f"{name}_plate_{'ABC'[i]}.step"`. */
  function PlateFileName(projectName: string, i: nat): string
    requires i < NumPlates
  {
    projectName + "_plate_" + [PlateLetters[i]] + ".step"
  }

  /** The three plates go to three different files. */
  lemma PlateFileNamesDistinct(projectName: string, i: nat, j: nat)
    requires i < NumPlates && j < NumPlates && i != j
    ensures PlateFileName(projectName, i) != PlateFileName(projectName, j)
  {
    var n := |projectName| + |"_plate_"|;
    assert PlateFileName(projectName, i)[n] == PlateLetters[i];
    assert PlateFileName(projectName, j)[n] == PlateLetters[j];
  }

  /** Lines 64-67 of `main`: each rendered plate with the file it is
      exported to, in plate order; no two plates share a file. */
  method PlateExports(projectName: string, plates: seq<Plate>) returns (exports: seq<(string, Plate)>)
    requires |plates| == NumPlates
    ensures |exports| == |plates|
    ensures forall i :: 0 <= i < |plates| ==> exports[i] == (PlateFileName(projectName, i), plates[i])
    ensures forall i, j :: 0 <= i < j < |exports| ==> exports[i].0 != exports[j].0
  {
    exports := [];
    for i := 0 to |plates|
      invariant |exports| == i
      invariant forall k :: 0 <= k < i ==> exports[k] == (PlateFileName(projectName, k), plates[k])
    {
      exports := exports + [(PlateFileName(projectName, i), plates[i])];
    }
    forall i, j | 0 <= i < j < |exports|
      ensures exports[i].0 != exports[j].0
    {
      PlateFileNamesDistinct(projectName, i, j);
    }
  }
}
