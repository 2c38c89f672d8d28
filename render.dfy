/** The plate half of src/kitfg/kitfg.py: `apply_operation` and
    `render_plates`. The solid geometry is not modelled; a plate is the
    blank box it starts from plus the list of cuts and embossings applied
    to it, in order, each tagged with where it goes. */
module Render {
  import opened Wrappers
  import opened Seqs
  import opened Config
  import opened Kitfg

  /** Where a cut goes: the four alignment-pin corners, the four
      pressure-pin corners, the configured mount-pillar locations, or the
      positions of the footprints of one annotation type. */
  datatype Site =
    | AlignmentPins
    | PressurePins
    | MountPillars(locations: seq<Location>)
    | AnnotationSites(name: string, positions: seq<Pos>)

  /** One operation on a plate: `bd.Hole`, `bd.CounterBoreHole` (both taking
      radii, so half the configured diameters, and the plate thickness as
      depth), the board outline and the plate label, both embossed into the
      top face. */
  datatype Step =
    | HoleCut(site: Site, radius: real, depth: real)
    | CounterboreCut(site: Site, radius: real, counterboreRadius: real, counterboreDepth: real, depth: real)
    | OutlineEmboss
    | LabelEmboss(text: string)
  {
    predicate IsCut()
    {
      HoleCut? || CounterboreCut?
    }
  }

  /** A plate: the filleted box `width` x `height` x `thickness` and the
      operations applied to it so far. */
  datatype Plate = Plate(width: real, height: real, thickness: real, steps: seq<Step>)

  /** The two ways `render_plates` fails: fewer than three plate
      thicknesses (IndexError) and an annotation type that the config's
      `annotations` table lacks (KeyError). */
  datatype RenderError =
    | MissingThickness(count: nat)
    | UnknownAnnotationType(name: string)

  const NumPlates: nat := 3
  const PlateLetters := "ABC"

  function AddStep(plate: Plate, step: Step): Plate
  {
    plate.(steps := plate.steps + [step])
  }

  /** The cut that a hole spec asks for, as `apply_operation` issues it. */
  predicate CutMatchesSpec(step: Step, site: Site, hole: HoleSpec, thickness: real)
  {
    match hole
    case NoHole => false
    case SimpleHole(d) => step == HoleCut(site, d / 2.0, thickness)
    case CounterboreHole(d, cd, depth) => step == CounterboreCut(site, d / 2.0, cd / 2.0, depth, thickness)
  }

  /** `apply_operation`: `None` leaves the plate alone; otherwise exactly one
      cut is added. The counterbore test comes first because a counterbore
      hole is also an instance of SimpleHole. */
  function ApplyOperation(plate: Plate, site: Site, operation: HoleSpec, thickness: real): (r: Plate)
    ensures r.width == plate.width && r.height == plate.height && r.thickness == plate.thickness
    ensures operation.NoHole? ==> r == plate
    ensures !operation.NoHole? ==>
              |r.steps| == |plate.steps| + 1 && r.steps[..|plate.steps|] == plate.steps &&
              CutMatchesSpec(Last(r.steps), site, operation, thickness)
  {
    if operation.NoHole? then plate
    else if IsInstanceOfCounterboreHole(operation) then
      AddStep(plate, CounterboreCut(site, operation.diameterMm / 2.0,
                                    operation.counterboreDiameterMm / 2.0,
                                    operation.counterboreDepthMm, thickness))
    else
      // isinstance(operation, SimpleHole): the only variant left
      AddStep(plate, HoleCut(site, operation.diameterMm / 2.0, thickness))
  }

  /** A counterbore hole passes the SimpleHole instance test too, yet is
      always cut as a counterbore: the dispatch order matters. */
  lemma CounterboreIsNotCutAsSimpleHole(plate: Plate, site: Site, operation: HoleSpec, thickness: real)
    requires operation.CounterboreHole?
    ensures IsInstanceOfSimpleHole(operation)
    ensures |ApplyOperation(plate, site, operation, thickness).steps| == |plate.steps| + 1
    ensures Last(ApplyOperation(plate, site, operation, thickness).steps).CounterboreCut?
  {
  }

  // ---------------------------------------------------------------------
  // The order in which render_plates applies hole specs

  /** One round of `render_plates`: a site and the annotation type whose
      triple decides what each plate gets there. */
  datatype Job = Job(site: Site, annotationType: string)

  /** The three fixed rounds: alignment pins, pressure pins, mount pillars. */
  function FixedJobs(config: Config): seq<Job>
  {
    [Job(AlignmentPins, config.plateAlignmentPins.plateAlignmentPinType),
     Job(PressurePins, config.plateAlignmentPins.pressurePinType),
     Job(MountPillars(config.testerBoard.mountPillarLocations), config.testerBoard.mountPillarType)]
  }

  /** One round per annotation name, in the dict's order. */
  function AnnotationJobs(names: seq<string>, positions: Groups): seq<Job>
  {
    if names == [] then []
    else
      AnnotationJobs(DropLast(names), positions) +
      [Job(AnnotationSites(Last(names), positions.Get(Last(names))), Last(names))]
  }

  function Jobs(config: Config, positions: Groups): seq<Job>
  {
    FixedJobs(config) + AnnotationJobs(positions.order, positions)
  }

  predicate AllKnown(jobs: seq<Job>, annotations: map<string, Annotation>)
  {
    forall j :: 0 <= j < |jobs| ==> jobs[j].annotationType in annotations
  }

  /** The first round whose annotation type is not configured: the KeyError
      that `render_plates` raises. */
  function FirstUnknown(jobs: seq<Job>, annotations: map<string, Annotation>): (r: Option<string>)
    ensures r.None? <==> AllKnown(jobs, annotations)
    ensures r.Some? ==> r.value !in annotations && exists j :: 0 <= j < |jobs| && jobs[j].annotationType == r.value
  {
    if jobs == [] then None
    else
      var first := FirstUnknown(DropLast(jobs), annotations);
      if first.Some? then first
      else if Last(jobs).annotationType !in annotations then Some(Last(jobs).annotationType)
      else None
  }

  lemma {:induction false} FirstUnknownAppend(a: seq<Job>, b: seq<Job>, annotations: map<string, Annotation>)
    ensures FirstUnknown(a, annotations).Some? ==> FirstUnknown(a + b, annotations) == FirstUnknown(a, annotations)
    ensures FirstUnknown(a, annotations).None? ==> FirstUnknown(a + b, annotations) == FirstUnknown(b, annotations)
    decreases |b|
  {
    if b == [] {
      assert a + b == a;
    } else {
      FirstUnknownAppend(a, DropLast(b), annotations);
      assert DropLast(a + b) == a + DropLast(b);
      assert Last(a + b) == Last(b);
    }
  }

  /** The first round with an unconfigured type is the one reported. */
  lemma UnknownIsReported(done: seq<Job>, job: Job, rest: seq<Job>, annotations: map<string, Annotation>)
    requires AllKnown(done, annotations) && job.annotationType !in annotations
    ensures FirstUnknown(done + [job] + rest, annotations) == Some(job.annotationType)
  {
    FirstUnknownAppend(done, [job], annotations);
    assert DropLast([job]) == [];
    FirstUnknownAppend(done + [job], rest, annotations);
  }

  lemma {:induction false} AnnotationJobsAppend(a: seq<string>, b: seq<string>, positions: Groups)
    ensures AnnotationJobs(a + b, positions) == AnnotationJobs(a, positions) + AnnotationJobs(b, positions)
    decreases |b|
  {
    if b == [] {
      assert a + b == a;
    } else {
      AnnotationJobsAppend(a, DropLast(b), positions);
      assert DropLast(a + b) == a + DropLast(b);
      assert Last(a + b) == Last(b);
    }
  }

  /** Plate `i` after the rounds `jobs`: each round applies the `i`-th spec of
      its annotation type's triple. */
  function RunJobs(plate: Plate, jobs: seq<Job>, annotations: map<string, Annotation>, i: nat): (r: Plate)
    requires i < NumPlates
    requires AllKnown(jobs, annotations)
    ensures r.width == plate.width && r.height == plate.height && r.thickness == plate.thickness
  {
    if jobs == [] then plate
    else
      var job := Last(jobs);
      ApplyOperation(RunJobs(plate, DropLast(jobs), annotations, i), job.site,
                     annotations[job.annotationType].At(i), plate.thickness)
  }

  /** Plate `i` before any operation. */
  function Blank(config: Config, i: nat): Plate
    requires i < |config.plate.thicknessesMm|
  {
    Plate(config.plate.size.w(), config.plate.size.h(), config.plate.thicknessesMm[i], [])
  }

  /** The text embossed on plate `i`: `f"{name} Plate {'ABC'[i]}"`. */
  function Label(projectName: string, i: nat): string
    requires i < NumPlates
  {
    projectName + " Plate " + [PlateLetters[i]]
  }

  /** Plate `i` as `render_plates` returns it: all rounds, then the outline
      on the first two plates only, then the label. */
  function PlateSpec(config: Config, positions: Groups, i: nat): Plate
    requires i < NumPlates <= |config.plate.thicknessesMm|
    requires AllKnown(Jobs(config, positions), config.annotations)
  {
    var cut := RunJobs(Blank(config, i), Jobs(config, positions), config.annotations, i);
    var outlined := if i < 2 then AddStep(cut, OutlineEmboss) else cut;
    AddStep(outlined, LabelEmboss(Label(config.projectName, i)))
  }

  /** What `render_plates` returns. */
  function RenderSpec(config: Config, positions: Groups): (r: Result<seq<Plate>, RenderError>)
    ensures |config.plate.thicknessesMm| < NumPlates ==>
              r == Failure(MissingThickness(|config.plate.thicknessesMm|))
    ensures |config.plate.thicknessesMm| >= NumPlates ==>
              (r.Success? <==> AllKnown(Jobs(config, positions), config.annotations))
    ensures r.Failure? && r.error.UnknownAnnotationType? ==>
              r.error.name !in config.annotations &&
              exists j :: 0 <= j < |Jobs(config, positions)| && Jobs(config, positions)[j].annotationType == r.error.name
    ensures r.Success? ==> |r.value| == NumPlates
  {
    var thicknesses := config.plate.thicknessesMm;
    if |thicknesses| < NumPlates then Failure(MissingThickness(|thicknesses|))
    else
      match FirstUnknown(Jobs(config, positions), config.annotations)
      case Some(name) => Failure(UnknownAnnotationType(name))
      case None =>
        Success([PlateSpec(config, positions, 0), PlateSpec(config, positions, 1),
                 PlateSpec(config, positions, 2)])
  }

  // ---------------------------------------------------------------------
  // render_plates, step by step

  /** `for i, plate in enumerate(plates): plates[i] = apply_operation(...)`. */
  method ApplyToEach(plates: seq<Plate>, site: Site, annotation: Annotation) returns (r: seq<Plate>)
    requires |plates| == NumPlates
    ensures |r| == NumPlates
    ensures forall i :: 0 <= i < NumPlates ==>
              r[i] == ApplyOperation(plates[i], site, annotation.At(i), plates[i].thickness)
  {
    r := plates;
    for i := 0 to NumPlates
      invariant |r| == NumPlates
      invariant forall k :: 0 <= k < i ==> r[k] == ApplyOperation(plates[k], site, annotation.At(k), plates[k].thickness)
      invariant forall k :: i <= k < NumPlates ==> r[k] == plates[k]
    {
      r := r[i := ApplyOperation(r[i], site, annotation.At(i), r[i].thickness)];
    }
  }

  /** The three plates after the rounds `jobs`. */
  ghost predicate PlatesAfter(config: Config, plates: seq<Plate>, jobs: seq<Job>)
    requires NumPlates <= |config.plate.thicknessesMm|
    requires AllKnown(jobs, config.annotations)
  {
    |plates| == NumPlates &&
    forall i :: 0 <= i < NumPlates ==> plates[i] == RunJobs(Blank(config, i), jobs, config.annotations, i)
  }

  /** Applying one more round to every plate extends `PlatesAfter`. */
  method ApplyJob(config: Config, plates: seq<Plate>, ghost jobs: seq<Job>, job: Job) returns (r: seq<Plate>)
    requires NumPlates <= |config.plate.thicknessesMm|
    requires AllKnown(jobs, config.annotations) && job.annotationType in config.annotations
    requires PlatesAfter(config, plates, jobs)
    ensures AllKnown(jobs + [job], config.annotations)
    ensures PlatesAfter(config, r, jobs + [job])
  {
    assert DropLast(jobs + [job]) == jobs && Last(jobs + [job]) == job;
    r := ApplyToEach(plates, job.site, config.annotations[job.annotationType]);
  }

  /** The loop over `annotation_positions.items()`: one round per name, in
      the dict's order, failing at the first name without a hole triple. */
  method AnnotationRounds(config: Config, annotationPositions: Groups, plates: seq<Plate>)
    returns (r: Result<seq<Plate>, RenderError>)
    requires NumPlates <= |config.plate.thicknessesMm|
    requires AllKnown(FixedJobs(config), config.annotations)
    requires PlatesAfter(config, plates, FixedJobs(config))
    ensures r.Failure? ==> Failure(r.error) == RenderSpec(config, annotationPositions)
    ensures r.Success? ==>
              AllKnown(Jobs(config, annotationPositions), config.annotations) &&
              PlatesAfter(config, r.value, Jobs(config, annotationPositions))
  {
    var annotations := config.annotations;
    var names := annotationPositions.order;
    var current := plates;
    ghost var jobs := FixedJobs(config);
    for k := 0 to |names|
      invariant jobs == FixedJobs(config) + AnnotationJobs(names[..k], annotationPositions)
      invariant AllKnown(jobs, annotations)
      invariant PlatesAfter(config, current, jobs)
    {
      assert DropLast(names[..k + 1]) == names[..k];
      var name := names[k];
      var positions := annotationPositions.Get(name);
      var job := Job(AnnotationSites(name, positions), name);
      if name !in annotations {
        AnnotationRoundFails(config, annotationPositions, k);
        return Failure(UnknownAnnotationType(name));
      }
      current := ApplyJob(config, current, jobs, job);
      jobs := jobs + [job];
    }
    assert names[..|names|] == names;
    r := Success(current);
  }

  /** With enough thicknesses, rendering fails on the first round whose
      annotation type is not configured. */
  lemma RenderFailsAt(config: Config, positions: Groups, done: seq<Job>, job: Job, rest: seq<Job>)
    requires NumPlates <= |config.plate.thicknessesMm|
    requires Jobs(config, positions) == done + [job] + rest
    requires AllKnown(done, config.annotations) && job.annotationType !in config.annotations
    ensures RenderSpec(config, positions) == Failure(UnknownAnnotationType(job.annotationType))
  {
    UnknownIsReported(done, job, rest, config.annotations);
  }

  /** When the fixed rounds before round `n` are configured and round `n`
      is not, rendering fails on round `n`. */
  lemma FixedRoundFails(config: Config, positions: Groups, n: nat)
    requires NumPlates <= |config.plate.thicknessesMm|
    requires n < |FixedJobs(config)|
    requires AllKnown(FixedJobs(config)[..n], config.annotations)
    requires FixedJobs(config)[n].annotationType !in config.annotations
    ensures RenderSpec(config, positions) ==
              Failure(UnknownAnnotationType(FixedJobs(config)[n].annotationType))
  {
    var fixed := FixedJobs(config);
    var later := AnnotationJobs(positions.order, positions);
    assert fixed == fixed[..n] + [fixed[n]] + fixed[n + 1..];
    assert Jobs(config, positions) == fixed[..n] + [fixed[n]] + (fixed[n + 1..] + later);
    RenderFailsAt(config, positions, fixed[..n], fixed[n], fixed[n + 1..] + later);
  }

  /** When the rounds before name `k` are all configured and name `k` is
      not, rendering fails on name `k`. */
  lemma AnnotationRoundFails(config: Config, positions: Groups, k: nat)
    requires NumPlates <= |config.plate.thicknessesMm|
    requires k < |positions.order|
    requires AllKnown(FixedJobs(config) + AnnotationJobs(positions.order[..k], positions), config.annotations)
    requires positions.order[k] !in config.annotations
    ensures RenderSpec(config, positions) == Failure(UnknownAnnotationType(positions.order[k]))
  {
    var names := positions.order;
    var done := FixedJobs(config) + AnnotationJobs(names[..k], positions);
    var job := Job(AnnotationSites(names[k], positions.Get(names[k])), names[k]);
    var rest := AnnotationJobs(names[k + 1..], positions);
    assert names[..k + 1] + names[k + 1..] == names;
    AnnotationJobsAppend(names[..k + 1], names[k + 1..], positions);
    assert DropLast(names[..k + 1]) == names[..k];
    assert AnnotationJobs(names[..k + 1], positions) == AnnotationJobs(names[..k], positions) + [job];
    assert AnnotationJobs(names, positions) == AnnotationJobs(names[..k], positions) + [job] + rest;
    RenderFailsAt(config, positions, done, job, rest);
  }

  /** The last two loops of `render_plates`: the board outline on plates A
      and B, then the label on every plate. */
  method EmbossPlates(config: Config, annotationPositions: Groups, plates: seq<Plate>) returns (r: seq<Plate>)
    requires NumPlates <= |config.plate.thicknessesMm|
    requires AllKnown(Jobs(config, annotationPositions), config.annotations)
    requires PlatesAfter(config, plates, Jobs(config, annotationPositions))
    ensures r == [PlateSpec(config, annotationPositions, 0), PlateSpec(config, annotationPositions, 1),
                  PlateSpec(config, annotationPositions, 2)]
  {
    ghost var jobs := Jobs(config, annotationPositions);
    ghost var annotations := config.annotations;
    r := plates;
    for i := 0 to 2
      invariant |r| == NumPlates
      invariant forall k :: 0 <= k < i ==>
                  r[k] == AddStep(RunJobs(Blank(config, k), jobs, annotations, k), OutlineEmboss)
      invariant forall k :: i <= k < NumPlates ==> r[k] == RunJobs(Blank(config, k), jobs, annotations, k)
    {
      r := r[i := AddStep(r[i], OutlineEmboss)];
    }
    for i := 0 to NumPlates
      invariant |r| == NumPlates
      invariant forall k :: 0 <= k < i ==> r[k] == PlateSpec(config, annotationPositions, k)
      invariant forall k :: i <= k < NumPlates ==>
                  r[k] == (if k < 2 then AddStep(RunJobs(Blank(config, k), jobs, annotations, k), OutlineEmboss)
                           else RunJobs(Blank(config, k), jobs, annotations, k))
    {
      r := r[i := AddStep(r[i], LabelEmboss(Label(config.projectName, i)))];
    }
  }

  /** `render_plates`: blank plates, then the alignment-pin, pressure-pin
      and mount-pillar rounds, then one round per annotation name, then the
      outline on plates A and B, then every plate's label. */
  method RenderPlates(config: Config, annotationPositions: Groups) returns (r: Result<seq<Plate>, RenderError>)
    ensures r == RenderSpec(config, annotationPositions)
  {
    var thicknesses := config.plate.thicknessesMm;
    var annotations := config.annotations;
    var plates: seq<Plate> := [];
    for i := 0 to NumPlates
      invariant |plates| == i <= |thicknesses|
      invariant forall k :: 0 <= k < i ==> plates[k] == Blank(config, k)
    {
      if i >= |thicknesses| {
        return Failure(MissingThickness(|thicknesses|));
      }
      plates := plates + [Blank(config, i)];
    }
    ghost var jobs: seq<Job> := [];
    assert PlatesAfter(config, plates, jobs);
    ghost var fixed := FixedJobs(config);

    var alignmentType := config.plateAlignmentPins.plateAlignmentPinType;
    if alignmentType !in annotations {
      FixedRoundFails(config, annotationPositions, 0);
      return Failure(UnknownAnnotationType(alignmentType));
    }
    plates := ApplyJob(config, plates, jobs, Job(AlignmentPins, alignmentType));
    jobs := jobs + [fixed[0]];

    var pressureType := config.plateAlignmentPins.pressurePinType;
    if pressureType !in annotations {
      assert jobs == fixed[..1];
      FixedRoundFails(config, annotationPositions, 1);
      return Failure(UnknownAnnotationType(pressureType));
    }
    plates := ApplyJob(config, plates, jobs, Job(PressurePins, pressureType));
    jobs := jobs + [fixed[1]];

    var mountType := config.testerBoard.mountPillarType;
    if mountType !in annotations {
      assert jobs == fixed[..2];
      FixedRoundFails(config, annotationPositions, 2);
      return Failure(UnknownAnnotationType(mountType));
    }
    var mountSite := MountPillars(config.testerBoard.mountPillarLocations);
    plates := ApplyJob(config, plates, jobs, Job(mountSite, mountType));
    jobs := jobs + [fixed[2]];
    assert jobs == fixed;

    var rounds := AnnotationRounds(config, annotationPositions, plates);
    if rounds.Failure? {
      return Failure(rounds.error);
    }
    plates := EmbossPlates(config, annotationPositions, rounds.value);
    r := Success(plates);
  }

  // ---------------------------------------------------------------------
  // What the rendered plates carry

  /** The holes plate `i` is asked for, in round order: each round whose
      annotation triple has a hole at position `i`, with that hole. */
  function RequestedHoles(jobs: seq<Job>, annotations: map<string, Annotation>, i: nat): seq<(Site, HoleSpec)>
    requires i < NumPlates
    requires AllKnown(jobs, annotations)
  {
    if jobs == [] then []
    else
      var job := Last(jobs);
      var hole := annotations[job.annotationType].At(i);
      RequestedHoles(DropLast(jobs), annotations, i) + (if hole.NoHole? then [] else [(job.site, hole)])
  }

  /** The rounds leave on plate `i` exactly one cut per requested hole, in
      round order, each matching the `i`-th spec of its round's triple. */
  lemma {:induction false} RunJobsCuts(plate: Plate, jobs: seq<Job>, annotations: map<string, Annotation>, i: nat)
    requires i < NumPlates
    requires AllKnown(jobs, annotations)
    ensures var r := RunJobs(plate, jobs, annotations, i);
            var holes := RequestedHoles(jobs, annotations, i);
            && |r.steps| == |plate.steps| + |holes|
            && r.steps[..|plate.steps|] == plate.steps
            && forall k :: 0 <= k < |holes| ==>
                 CutMatchesSpec(r.steps[|plate.steps| + k], holes[k].0, holes[k].1, plate.thickness)
  {
    if jobs != [] {
      var init := DropLast(jobs);
      assert AllKnown(init, annotations);
      RunJobsCuts(plate, init, annotations, i);
      var before := RunJobs(plate, init, annotations, i);
      var after := RunJobs(plate, jobs, annotations, i);
      var holes := RequestedHoles(init, annotations, i);
      assert forall k :: 0 <= k < |before.steps| ==> after.steps[k] == before.steps[k];
    }
  }

  lemma {:induction false} RequestedHolesAppend(a: seq<Job>, b: seq<Job>, annotations: map<string, Annotation>, i: nat)
    requires i < NumPlates
    requires AllKnown(a, annotations) && AllKnown(b, annotations)
    ensures AllKnown(a + b, annotations)
    ensures RequestedHoles(a + b, annotations, i) == RequestedHoles(a, annotations, i) + RequestedHoles(b, annotations, i)
    decreases |b|
  {
    if b == [] {
      assert a + b == a;
    } else {
      RequestedHolesAppend(a, DropLast(b), annotations, i);
      assert DropLast(a + b) == a + DropLast(b);
      assert Last(a + b) == Last(b);
    }
  }

  /** Plate `i` as rendered: the configured box and thickness `i`, the
      requested cuts in round order (the alignment-pin, pressure-pin and
      mount-pillar rounds before the annotation rounds), then the outline on
      plates A and B only, then the label as the last step. */
  lemma PlateContents(config: Config, positions: Groups, i: nat)
    requires i < NumPlates <= |config.plate.thicknessesMm|
    requires AllKnown(Jobs(config, positions), config.annotations)
    ensures AllKnown(FixedJobs(config), config.annotations)
    ensures AllKnown(AnnotationJobs(positions.order, positions), config.annotations)
    ensures var p := PlateSpec(config, positions, i);
            var holes := RequestedHoles(Jobs(config, positions), config.annotations, i);
            && p.width == config.plate.size.widthMm && p.height == config.plate.size.heightMm
            && p.thickness == config.plate.thicknessesMm[i]
            && holes == RequestedHoles(FixedJobs(config), config.annotations, i) +
                        RequestedHoles(AnnotationJobs(positions.order, positions), config.annotations, i)
            && |p.steps| == |holes| + (if i < 2 then 2 else 1)
            && (forall k :: 0 <= k < |holes| ==>
                  CutMatchesSpec(p.steps[k], holes[k].0, holes[k].1, p.thickness))
            && (i < 2 ==> p.steps[|holes|] == OutlineEmboss)
            && Last(p.steps) == LabelEmboss(Label(config.projectName, i))
  {
    var jobs := Jobs(config, positions);
    PlateHoles(config, positions, i);
    RunJobsCuts(Blank(config, i), jobs, config.annotations, i);
    PlateSteps(config, positions, i);
    var blank := Blank(config, i);
    var cut := RunJobs(blank, jobs, config.annotations, i);
    var p := PlateSpec(config, positions, i);
    var holes := RequestedHoles(jobs, config.annotations, i);
    assert |blank.steps| == 0 && |cut.steps| == |holes|;
    forall k | 0 <= k < |holes|
      ensures CutMatchesSpec(p.steps[k], holes[k].0, holes[k].1, p.thickness)
    {
      assert p.steps[k] == cut.steps[|blank.steps| + k];
    }
  }

  /** The holes asked of plate `i`: the fixed rounds' holes, then the
      annotation rounds' holes. */
  lemma PlateHoles(config: Config, positions: Groups, i: nat)
    requires i < NumPlates
    requires AllKnown(Jobs(config, positions), config.annotations)
    ensures AllKnown(FixedJobs(config), config.annotations)
    ensures AllKnown(AnnotationJobs(positions.order, positions), config.annotations)
    ensures RequestedHoles(Jobs(config, positions), config.annotations, i) ==
              RequestedHoles(FixedJobs(config), config.annotations, i) +
              RequestedHoles(AnnotationJobs(positions.order, positions), config.annotations, i)
  {
    var jobs := Jobs(config, positions);
    var fixed, later := FixedJobs(config), AnnotationJobs(positions.order, positions);
    assert forall j :: 0 <= j < |fixed| ==> fixed[j] == jobs[j];
    assert forall j :: 0 <= j < |later| ==> later[j] == jobs[|fixed| + j];
    RequestedHolesAppend(fixed, later, config.annotations, i);
  }

  /** Plate `i` is the box after the rounds, then the embossings. */
  lemma PlateSteps(config: Config, positions: Groups, i: nat)
    requires i < NumPlates <= |config.plate.thicknessesMm|
    requires AllKnown(Jobs(config, positions), config.annotations)
    ensures var p := PlateSpec(config, positions, i);
            var cut := RunJobs(Blank(config, i), Jobs(config, positions), config.annotations, i);
            && p.width == config.plate.size.widthMm && p.height == config.plate.size.heightMm
            && p.thickness == config.plate.thicknessesMm[i]
            && p.steps == cut.steps + (if i < 2 then [OutlineEmboss] else []) + [LabelEmboss(Label(config.projectName, i))]
  {
  }

  /** Every step of the rounds is a cut: no outline or label among them. */
  lemma {:induction false} RunJobsOnlyCuts(plate: Plate, jobs: seq<Job>, annotations: map<string, Annotation>, i: nat)
    requires i < NumPlates
    requires AllKnown(jobs, annotations)
    requires forall k :: 0 <= k < |plate.steps| ==> plate.steps[k].IsCut()
    ensures forall k :: 0 <= k < |RunJobs(plate, jobs, annotations, i).steps| ==>
              RunJobs(plate, jobs, annotations, i).steps[k].IsCut()
  {
    if jobs != [] {
      RunJobsOnlyCuts(plate, DropLast(jobs), annotations, i);
    }
  }

  /** The board outline is embossed once on plates A and B and never on C;
      each plate carries its own label exactly once. */
  lemma OutlineAndLabel(config: Config, positions: Groups, i: nat)
    requires i < NumPlates <= |config.plate.thicknessesMm|
    requires AllKnown(Jobs(config, positions), config.annotations)
    ensures multiset(PlateSpec(config, positions, i).steps)[OutlineEmboss] == if i < 2 then 1 else 0
    ensures forall text :: multiset(PlateSpec(config, positions, i).steps)[LabelEmboss(text)] ==
              if text == Label(config.projectName, i) then 1 else 0
  {
    var cut := RunJobs(Blank(config, i), Jobs(config, positions), config.annotations, i);
    RunJobsOnlyCuts(Blank(config, i), Jobs(config, positions), config.annotations, i);
    assert OutlineEmboss !in cut.steps;
    assert forall text :: LabelEmboss(text) !in cut.steps;
  }

  /** The three plates carry three different labels. */
  lemma LabelsDistinct(projectName: string, i: nat, j: nat)
    requires i < NumPlates && j < NumPlates && i != j
    ensures Label(projectName, i) != Label(projectName, j)
  {
    var n := |projectName| + |" Plate "|;
    assert Label(projectName, i)[n] == PlateLetters[i];
    assert Label(projectName, j)[n] == PlateLetters[j];
  }

  lemma {:induction false} AnnotationJobsCover(names: seq<string>, positions: Groups, k: nat)
    requires k < |names|
    ensures exists j :: 0 <= j < |AnnotationJobs(names, positions)| &&
              AnnotationJobs(names, positions)[j].annotationType == names[k]
  {
    var jobs := AnnotationJobs(names, positions);
    if k == |names| - 1 {
      assert jobs[|jobs| - 1].annotationType == names[k];
    } else {
      AnnotationJobsCover(DropLast(names), positions, k);
      var j :| 0 <= j < |AnnotationJobs(DropLast(names), positions)| &&
               AnnotationJobs(DropLast(names), positions)[j].annotationType == names[k];
      assert jobs[j] == AnnotationJobs(DropLast(names), positions)[j];
    }
  }

  /** Every name in the positions dict must have a hole triple: one without
      makes `render_plates` fail, even when its position list is empty. */
  lemma UnconfiguredNameFails(config: Config, positions: Groups, name: string)
    requires NumPlates <= |config.plate.thicknessesMm|
    requires name in positions.order && name !in config.annotations
    ensures RenderSpec(config, positions).Failure?
    ensures RenderSpec(config, positions).error.UnknownAnnotationType?
  {
    var k :| 0 <= k < |positions.order| && positions.order[k] == name;
    AnnotationJobsCover(positions.order, positions, k);
    var later := AnnotationJobs(positions.order, positions);
    var j :| 0 <= j < |later| && later[j].annotationType == name;
    assert Jobs(config, positions)[3 + j] == later[j];
  }
}
