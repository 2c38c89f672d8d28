/** The record-processing half of src/kitfg/kitfg.py: choosing footprints
    and pads out of the board, keeping the pads that have no annotation
    footprint nearby, and grouping annotation positions by footprint name.
    Board objects of the KiCad API are plain values here; positions are
    integer nanometres, as KiCad stores them. */
module Kitfg {
  import opened Wrappers
  import opened Seqs

  /** A board position in nanometres (`kbt.Vector2`). */
  datatype Pos = Pos(x: int, y: int)

  /** The layers the core distinguishes; every other layer is `OtherLayer`. */
  datatype BoardLayer = FrontCopper | BackCopper | OtherLayer(id: int)

  /** `kbt.PadType`: surface-mount, plated through-hole, the rest. */
  datatype PadType = Smd | Pth | Npth | OtherPadType(id: int)

  datatype Pad = Pad(padType: PadType, position: Pos)

  /** A footprint instance: its definition's name, its layer, its position
      and its pads. `pads == None` stands for kicad-python raising
      ValueError when the pads are read (a footprint without pads). */
  datatype Footprint = Footprint(name: string, layer: BoardLayer, position: Pos, pads: Option<seq<Pad>>)

  /** The ValueError that escapes when a footprint's pads are read unguarded. */
  datatype BoardError = PadsUnavailable(footprint: string)

  predicate StartsWith(s: string, prefix: string)
  {
    |prefix| <= |s| && s[..|prefix|] == prefix
  }

  const AnnotationPrefix := "TestFixture_"
  const TestPointPrefix := "TestPoint_"
  const MountingHolePrefix := "MountingHole_"

  /** `get_unannotated`'s default radius, 1.0 mm, in nanometres. */
  const DefaultRadiusNm: nat := 1_000_000

  predicate IsAnnotation(fp: Footprint)
  {
    StartsWith(fp.name, AnnotationPrefix)
  }

  predicate IsBottomTestPoint(fp: Footprint)
  {
    StartsWith(fp.name, TestPointPrefix) && fp.layer == BackCopper
  }

  predicate IsNotMountingHole(fp: Footprint)
  {
    !StartsWith(fp.name, MountingHolePrefix)
  }

  predicate IsSmd(pad: Pad)
  {
    pad.padType == Smd
  }

  predicate IsPth(pad: Pad)
  {
    pad.padType == Pth
  }

  /** The pads of `fp`, when reading them does not raise. */
  predicate HasPad(fp: Footprint, pad: Pad)
  {
    fp.pads.Some? && pad in fp.pads.value
  }

  // ---------------------------------------------------------------------
  // get_annotation_footprints

  /** `get_annotation_footprints`: the footprints whose definition name
      starts with "TestFixture_", each as often as in the board and in the
      board's order. */
  function AnnotationFootprints(footprints: seq<Footprint>): (r: seq<Footprint>)
    ensures IsSubsequence(r, footprints)
    ensures forall fp :: multiset(r)[fp] == if IsAnnotation(fp) then multiset(footprints)[fp] else 0
  {
    FilterIsSubsequence(IsAnnotation, footprints);
    FilterMultiplicity(IsAnnotation, footprints);
    Filter(IsAnnotation, footprints)
  }

  // ---------------------------------------------------------------------
  // get_test_point_smd_pads

  /** The SMD pads of `footprints`, footprint by footprint and pad by pad.
      Reading the pads is not guarded, so the first footprint whose pads
      are unavailable aborts the whole scan. */
  function SmdPadsOf(footprints: seq<Footprint>): Result<seq<Pad>, BoardError>
  {
    if footprints == [] then Success([])
    else
      var rest := SmdPadsOf(DropLast(footprints));
      var fp := Last(footprints);
      if rest.Failure? then Failure(rest.error)
      else if fp.pads.None? then Failure(PadsUnavailable(fp.name))
      else Success(rest.value + Filter(IsSmd, fp.pads.value))
  }

  /** The scan fails iff some footprint's pads cannot be read, and otherwise
      yields every SMD pad of the footprints and nothing else. */
  lemma {:induction false} SmdPadsOfContents(footprints: seq<Footprint>)
    ensures SmdPadsOf(footprints).Failure? <==> exists fp :: fp in footprints && fp.pads.None?
    ensures SmdPadsOf(footprints).Success? ==>
              forall pad :: pad in SmdPadsOf(footprints).value <==>
                IsSmd(pad) && exists fp :: fp in footprints && HasPad(fp, pad)
  {
    if footprints != [] {
      var init, last := DropLast(footprints), Last(footprints);
      SmdPadsOfContents(init);
      assert footprints == init + [last];
      if SmdPadsOf(footprints).Success? {
        FilterMembership(IsSmd, last.pads.value);
        forall pad
          ensures pad in SmdPadsOf(footprints).value <==>
                  IsSmd(pad) && exists fp :: fp in footprints && HasPad(fp, pad)
        {
          if IsSmd(pad) && HasPad(last, pad) {
            assert pad in SmdPadsOf(footprints).value;
          }
        }
      }
    }
  }

  /** `get_test_point_smd_pads`: the SMD pads of the "TestPoint_" footprints
      on the bottom copper layer. It fails exactly when one of those
      footprints has no readable pads; otherwise it returns every SMD pad of
      those footprints and nothing else. */
  function TestPointSmdPads(footprints: seq<Footprint>): (r: Result<seq<Pad>, BoardError>)
    ensures r.Failure? <==> exists fp :: fp in footprints && IsBottomTestPoint(fp) && fp.pads.None?
    ensures r.Success? ==>
              forall pad :: pad in r.value <==>
                IsSmd(pad) && exists fp :: fp in footprints && IsBottomTestPoint(fp) && HasPad(fp, pad)
  {
    FilterMembership(IsBottomTestPoint, footprints);
    SmdPadsOfContents(Filter(IsBottomTestPoint, footprints));
    SmdPadsOf(Filter(IsBottomTestPoint, footprints))
  }

  lemma {:induction false} SmdPadsOfAppend(a: seq<Footprint>, b: seq<Footprint>)
    ensures SmdPadsOf(a).Failure? ==> SmdPadsOf(a + b) == SmdPadsOf(a)
    ensures SmdPadsOf(a).Success? && SmdPadsOf(b).Failure? ==> SmdPadsOf(a + b) == SmdPadsOf(b)
    ensures SmdPadsOf(a).Success? && SmdPadsOf(b).Success? ==>
              SmdPadsOf(a + b) == Success(SmdPadsOf(a).value + SmdPadsOf(b).value)
    decreases |b|
  {
    if b == [] {
      assert a + b == a;
      if SmdPadsOf(a).Success? {
        assert SmdPadsOf(a).value + [] == SmdPadsOf(a).value;
      }
    } else {
      var init, last := DropLast(b), Last(b);
      SmdPadsOfAppend(a, init);
      assert DropLast(a + b) == a + init;
      assert Last(a + b) == last;
      var whole, left, right := SmdPadsOf(a + init), SmdPadsOf(a), SmdPadsOf(init);
      if left.Failure? {
        assert whole == left;
        assert SmdPadsOf(a + b) == Failure(whole.error);
      } else if right.Failure? {
        assert whole == right;
        assert SmdPadsOf(a + b) == Failure(whole.error);
        assert SmdPadsOf(b) == Failure(right.error);
      } else if last.pads.None? {
        assert whole.Success?;
        assert SmdPadsOf(a + b) == Failure(PadsUnavailable(last.name));
        assert SmdPadsOf(b) == Failure(PadsUnavailable(last.name));
      } else {
        var more := Filter(IsSmd, last.pads.value);
        assert whole == Success(left.value + right.value);
        assert SmdPadsOf(a + b) == Success(whole.value + more);
        assert SmdPadsOf(b) == Success(right.value + more);
        assert (left.value + right.value) + more == left.value + (right.value + more);
      }
    }
  }

  /** Within one footprint the pads come out in the footprint's own pad
      order, each SMD pad as often as it occurs there; together with
      `SmdPadsOfAppend` this gives footprint order, then pad order. */
  lemma SmdPadsOfOne(fp: Footprint)
    ensures SmdPadsOf([fp]) ==
              if fp.pads.None? then Failure(PadsUnavailable(fp.name)) else Success(Filter(IsSmd, fp.pads.value))
  {
    assert DropLast([fp]) == [] && Last([fp]) == fp;
    assert SmdPadsOf([]) == Success([]);
    if fp.pads.Some? {
      assert [] + Filter(IsSmd, fp.pads.value) == Filter(IsSmd, fp.pads.value);
    }
  }

  /** The pads come out footprint by footprint: the scan of a board split in
      two is the scan of the first part followed by the scan of the second,
      and a failure in the first part is the one reported. */
  lemma TestPointSmdPadsAppend(a: seq<Footprint>, b: seq<Footprint>)
    ensures TestPointSmdPads(a).Failure? ==> TestPointSmdPads(a + b) == TestPointSmdPads(a)
    ensures TestPointSmdPads(a).Success? && TestPointSmdPads(b).Success? ==>
              TestPointSmdPads(a + b) == Success(TestPointSmdPads(a).value + TestPointSmdPads(b).value)
  {
    FilterAppend(IsBottomTestPoint, a, b);
    SmdPadsOfAppend(Filter(IsBottomTestPoint, a), Filter(IsBottomTestPoint, b));
  }

  // ---------------------------------------------------------------------
  // get_tht_pads

  /** The PTH pads of `footprints`, footprint by footprint; a footprint whose
      pads cannot be read contributes nothing (the `except ValueError`). */
  function PthPadsOf(footprints: seq<Footprint>): (r: seq<Pad>)
  {
    if footprints == [] then []
    else
      PthPadsOf(DropLast(footprints)) +
      (if Last(footprints).pads.Some? then Filter(IsPth, Last(footprints).pads.value) else [])
  }

  /** Within one readable footprint the PTH pads come out in pad order,
      each as often as it occurs there; an unreadable one gives nothing. */
  lemma PthPadsOfOne(fp: Footprint)
    ensures PthPadsOf([fp]) == if fp.pads.Some? then Filter(IsPth, fp.pads.value) else []
  {
    assert DropLast([fp]) == [] && Last([fp]) == fp;
    if fp.pads.Some? {
      assert [] + Filter(IsPth, fp.pads.value) == Filter(IsPth, fp.pads.value);
    }
  }

  /** What `get_tht_pads` returns: the PTH pads of every footprint that is
      not a "MountingHole_". */
  function ThtPadsSpec(footprints: seq<Footprint>): seq<Pad>
  {
    PthPadsOf(Filter(IsNotMountingHole, footprints))
  }

  /** `get_tht_pads`: a filter on the footprints, then a loop that appends
      each PTH pad, skipping a footprint whose pads raise ValueError. */
  method ThtPads(board: seq<Footprint>) returns (pads: seq<Pad>)
    ensures pads == ThtPadsSpec(board)
  {
    var footprints := Filter(IsNotMountingHole, board);
    pads := [];
    for i := 0 to |footprints|
      invariant pads == PthPadsOf(footprints[..i])
    {
      assert DropLast(footprints[..i + 1]) == footprints[..i];
      var fp := footprints[i];
      match fp.pads
      case None =>
      case Some(fpPads) =>
        for j := 0 to |fpPads|
          invariant pads == PthPadsOf(footprints[..i]) + Filter(IsPth, fpPads[..j])
        {
          ghost var kept := Filter(IsPth, fpPads[..j]);
          assert DropLast(fpPads[..j + 1]) == fpPads[..j];
          if fpPads[j].padType == Pth {
            assert Filter(IsPth, fpPads[..j + 1]) == kept + [fpPads[j]];
            pads := pads + [fpPads[j]];
          } else {
            assert Filter(IsPth, fpPads[..j + 1]) == kept;
          }
        }
        assert fpPads[..|fpPads|] == fpPads;
        assert PthPadsOf(footprints[..i + 1]) == PthPadsOf(footprints[..i]) + Filter(IsPth, fpPads);
    }
    assert footprints[..|footprints|] == footprints;
  }

  lemma {:induction false} PthPadsOfAppend(a: seq<Footprint>, b: seq<Footprint>)
    ensures PthPadsOf(a + b) == PthPadsOf(a) + PthPadsOf(b)
    decreases |b|
  {
    if b == [] {
      assert a + b == a;
    } else {
      var init := DropLast(b);
      PthPadsOfAppend(a, init);
      assert DropLast(a + b) == a + init;
      assert Last(a + b) == Last(b);
      var tail := if Last(b).pads.Some? then Filter(IsPth, Last(b).pads.value) else [];
      assert PthPadsOf(a + b) == PthPadsOf(a + init) + tail;
      assert PthPadsOf(b) == PthPadsOf(init) + tail;
      assert PthPadsOf(a) + PthPadsOf(init) + tail == PthPadsOf(a) + (PthPadsOf(init) + tail);
    }
  }

  lemma {:induction false} PthPadsOfMembership(footprints: seq<Footprint>)
    ensures forall pad :: pad in PthPadsOf(footprints) <==>
              IsPth(pad) && exists fp :: fp in footprints && HasPad(fp, pad)
  {
    if footprints != [] {
      PthPadsOfMembership(DropLast(footprints));
      DropLastThenLast(footprints);
      var last := Last(footprints);
      if last.pads.Some? {
        FilterMembership(IsPth, last.pads.value);
      }
      forall pad
        ensures pad in PthPadsOf(footprints) <==>
                IsPth(pad) && exists fp :: fp in footprints && HasPad(fp, pad)
      {
        if IsPth(pad) && HasPad(last, pad) {
          assert pad in PthPadsOf(footprints);
        }
      }
    }
  }

  /** `get_tht_pads` returns exactly the PTH pads of footprints that are not
      "MountingHole_" footprints and whose pads can be read. */
  lemma ThtPadsMembership(footprints: seq<Footprint>)
    ensures forall pad :: pad in ThtPadsSpec(footprints) <==>
              IsPth(pad) && exists fp :: fp in footprints && IsNotMountingHole(fp) && HasPad(fp, pad)
  {
    FilterMembership(IsNotMountingHole, footprints);
    PthPadsOfMembership(Filter(IsNotMountingHole, footprints));
  }

  /** A footprint whose pads raise ValueError, or a mounting hole, adds
      nothing and does not end the scan: the footprints after it are still
      scanned, in order. */
  lemma ThtPadsSkips(a: seq<Footprint>, fp: Footprint, b: seq<Footprint>)
    requires fp.pads.None? || !IsNotMountingHole(fp)
    ensures ThtPadsSpec(a + [fp] + b) == ThtPadsSpec(a) + ThtPadsSpec(b)
  {
    FilterAppend(IsNotMountingHole, a + [fp], b);
    FilterAppend(IsNotMountingHole, a, [fp]);
    assert Filter(IsNotMountingHole, [fp]) == Filter(IsNotMountingHole, []) + (if IsNotMountingHole(fp) then [fp] else []);
    var fa, fb := Filter(IsNotMountingHole, a), Filter(IsNotMountingHole, b);
    if IsNotMountingHole(fp) {
      PthPadsOfAppend(fa + [fp], fb);
      assert DropLast(fa + [fp]) == fa;
    } else {
      assert fa + [] == fa;
      PthPadsOfAppend(fa, fb);
    }
  }

  // ---------------------------------------------------------------------
  // get_unannotated

  /** Squared distance in nm²; `distance < radius` holds exactly when the
      squared distance is below the squared radius. */
  function DistanceSquared(a: Pos, b: Pos): nat
  {
    (a.x - b.x) * (a.x - b.x) + (a.y - b.y) * (a.y - b.y)
  }

  /** The exclusion test of `get_unannotated`: strictly within the radius. */
  predicate IsNear(pad: Pad, annotation: Footprint, radiusNm: nat)
  {
    DistanceSquared(annotation.position, pad.position) < radiusNm * radiusNm
  }

  predicate HasAnnotationNear(pad: Pad, annotations: seq<Footprint>, radiusNm: nat)
  {
    exists a :: a in annotations && IsNear(pad, a, radiusNm)
  }

  /** What `get_unannotated` returns: the pads with no annotation strictly
      within the radius, in the order given. */
  function UnannotatedSpec(pads: seq<Pad>, annotations: seq<Footprint>, radiusNm: nat): seq<Pad>
  {
    if pads == [] then []
    else
      UnannotatedSpec(DropLast(pads), annotations, radiusNm) +
      (if HasAnnotationNear(Last(pads), annotations, radiusNm) then [] else [Last(pads)])
  }

  /** `get_unannotated`: for every pad, scan the annotations and stop at the
      first one strictly within the radius; a pad whose scan ran to the end
      (the `for ... else`) is appended. */
  method Unannotated(pads: seq<Pad>, annotations: seq<Footprint>, radiusNm: nat)
    returns (unannotated: seq<Pad>)
    ensures unannotated == UnannotatedSpec(pads, annotations, radiusNm)
  {
    unannotated := [];
    for i := 0 to |pads|
      invariant unannotated == UnannotatedSpec(pads[..i], annotations, radiusNm)
    {
      assert DropLast(pads[..i + 1]) == pads[..i];
      var pad := pads[i];
      var j := 0;
      while j < |annotations|
        invariant 0 <= j <= |annotations|
        invariant forall k :: 0 <= k < j ==> !IsNear(pad, annotations[k], radiusNm)
      {
        var distanceSquared := DistanceSquared(annotations[j].position, pad.position);
        if distanceSquared < radiusNm * radiusNm {
          assert IsNear(pad, annotations[j], radiusNm);
          break;
        }
        j := j + 1;
      }
      if j == |annotations| {
        assert !HasAnnotationNear(pad, annotations, radiusNm);
        unannotated := unannotated + [pad];
      } else {
        assert HasAnnotationNear(pad, annotations, radiusNm);
      }
    }
    assert pads[..|pads|] == pads;
  }

  /** The result keeps the pads' order. */
  lemma {:induction false} UnannotatedIsSubsequence(pads: seq<Pad>, annotations: seq<Footprint>, radiusNm: nat)
    ensures IsSubsequence(UnannotatedSpec(pads, annotations, radiusNm), pads)
  {
    if pads != [] {
      var rest := UnannotatedSpec(DropLast(pads), annotations, radiusNm);
      UnannotatedIsSubsequence(DropLast(pads), annotations, radiusNm);
      if !HasAnnotationNear(Last(pads), annotations, radiusNm) {
        assert DropLast(rest + [Last(pads)]) == rest;
      } else {
        assert UnannotatedSpec(pads, annotations, radiusNm) == rest;
      }
    }
  }

  /** A pad is kept, as often as it is given, exactly when every annotation
      is at distance at least the radius from it. */
  lemma {:induction false} UnannotatedMultiplicity(pads: seq<Pad>, annotations: seq<Footprint>, radiusNm: nat)
    ensures forall pad :: multiset(UnannotatedSpec(pads, annotations, radiusNm))[pad] ==
              if forall a :: a in annotations ==> DistanceSquared(a.position, pad.position) >= radiusNm * radiusNm
              then multiset(pads)[pad] else 0
  {
    if pads != [] {
      UnannotatedMultiplicity(DropLast(pads), annotations, radiusNm);
      DropLastThenLast(pads);
    }
  }

  /** The iff of `get_unannotated`: a pad is in the result exactly when it is
      one of the pads and no annotation lies strictly within the radius. */
  lemma UnannotatedMembership(pads: seq<Pad>, annotations: seq<Footprint>, radiusNm: nat, pad: Pad)
    ensures pad in UnannotatedSpec(pads, annotations, radiusNm) <==>
              pad in pads &&
              forall a :: a in annotations ==> DistanceSquared(a.position, pad.position) >= radiusNm * radiusNm
  {
    UnannotatedMultiplicity(pads, annotations, radiusNm);
    assert pad in UnannotatedSpec(pads, annotations, radiusNm) <==>
           multiset(UnannotatedSpec(pads, annotations, radiusNm))[pad] > 0;
    assert pad in pads <==> multiset(pads)[pad] > 0;
  }

  /** With no annotation footprints, every pad is unannotated. */
  lemma {:induction false} UnannotatedWithoutAnnotations(pads: seq<Pad>, radiusNm: nat)
    ensures UnannotatedSpec(pads, [], radiusNm) == pads
  {
    if pads != [] {
      var init := DropLast(pads);
      UnannotatedWithoutAnnotations(init, radiusNm);
      assert !HasAnnotationNear(Last(pads), [], radiusNm);
      assert UnannotatedSpec(pads, [], radiusNm) == init + [Last(pads)];
      DropLastThenLast(pads);
    }
  }

  /** The test is strict: a pad exactly one radius away from the only
      annotation is kept, one nanometre closer it is dropped. */
  lemma UnannotatedBoundary(annotation: Footprint, radiusNm: nat, padType: PadType)
    requires radiusNm > 0
    ensures var at := Pad(padType, Pos(annotation.position.x + radiusNm, annotation.position.y));
            UnannotatedSpec([at], [annotation], radiusNm) == [at]
    ensures var inside := Pad(padType, Pos(annotation.position.x + radiusNm - 1, annotation.position.y));
            UnannotatedSpec([inside], [annotation], radiusNm) == []
  {
    var at := Pad(padType, Pos(annotation.position.x + radiusNm, annotation.position.y));
    var inside := Pad(padType, Pos(annotation.position.x + radiusNm - 1, annotation.position.y));
    assert DistanceSquared(annotation.position, at.position) == radiusNm * radiusNm;
    assert DistanceSquared(annotation.position, inside.position) == (radiusNm - 1) * (radiusNm - 1);
    assert (radiusNm - 1) * (radiusNm - 1) < radiusNm * radiusNm;
    assert !HasAnnotationNear(at, [annotation], radiusNm);
    assert IsNear(inside, annotation, radiusNm);
    assert DropLast([at]) == [] && DropLast([inside]) == [];
  }

  // ---------------------------------------------------------------------
  // get_annotation_positions: a defaultdict(list), insertion ordered

  /** A `dict[str, list[Vector2]]`: the lists by key, and the order in which
      the keys were inserted (the order the dict iterates in). */
  datatype Groups = Groups(order: seq<string>, lists: map<string, seq<Pos>>)
  {
    /** Each key appears once in the insertion order, and the order lists
        exactly the dict's keys. */
    ghost predicate Valid()
    {
      && (forall i, j :: 0 <= i < j < |order| ==> order[i] != order[j])
      && (forall k :: k in lists <==> k in order)
    }

    /** Reading a defaultdict(list): a missing key reads as the empty list. */
    function Get(k: string): seq<Pos>
    {
      if k in lists then lists[k] else []
    }
  }

  const NoGroups := Groups([], map[])

  /** `d[k].extend(ps)` on a defaultdict(list) (`append` is the one-element
      case): a missing key is inserted last, even when `ps` is empty; only
      key `k` changes. */
  function Extend(g: Groups, k: string, ps: seq<Pos>): (r: Groups)
    requires g.Valid()
    ensures r.Valid()
    ensures r.lists.Keys == g.lists.Keys + {k}
    ensures r.order == if k in g.lists then g.order else g.order + [k]
    ensures r.Get(k) == g.Get(k) + ps
    ensures forall other :: other != k ==> r.Get(other) == g.Get(other)
  {
    Groups(if k in g.lists then g.order else g.order + [k], g.lists[k := g.Get(k) + ps])
  }

  /** What `get_annotation_positions` builds: each footprint's position
      appended under its definition name. */
  function GroupSpec(footprints: seq<Footprint>): (g: Groups)
    ensures g.Valid()
  {
    if footprints == [] then NoGroups
    else Extend(GroupSpec(DropLast(footprints)), Last(footprints).name, [Last(footprints).position])
  }

  /** `get_annotation_positions`: the loop appending into the defaultdict. */
  method AnnotationPositions(annotationFootprints: seq<Footprint>) returns (positions: Groups)
    ensures positions == GroupSpec(annotationFootprints)
  {
    positions := NoGroups;
    for i := 0 to |annotationFootprints|
      invariant positions == GroupSpec(annotationFootprints[..i])
    {
      assert DropLast(annotationFootprints[..i + 1]) == annotationFootprints[..i];
      var annotation := annotationFootprints[i];
      positions := Extend(positions, annotation.name, [annotation.position]);
    }
    assert annotationFootprints[..|annotationFootprints|] == annotationFootprints;
  }

  /** The positions of the footprints named `name`, in input order. */
  function PositionsNamed(footprints: seq<Footprint>, name: string): seq<Pos>
  {
    if footprints == [] then []
    else
      PositionsNamed(DropLast(footprints), name) +
      (if Last(footprints).name == name then [Last(footprints).position] else [])
  }

  /** The keys of the grouping are exactly the names of the input
      footprints. */
  lemma {:induction false} GroupSpecKeys(footprints: seq<Footprint>)
    ensures forall k :: k in GroupSpec(footprints).lists <==> exists fp :: fp in footprints && fp.name == k
  {
    if footprints != [] {
      var init, last := DropLast(footprints), Last(footprints);
      GroupSpecKeys(init);
      assert footprints == init + [last];
      forall k ensures k in GroupSpec(footprints).lists <==> exists fp :: fp in footprints && fp.name == k {
        if k in GroupSpec(init).lists {
          var fp :| fp in init && fp.name == k;
          assert fp in footprints;
        }
      }
    }
  }

  /** Each key's list is exactly the positions of the footprints with that
      name, in input order. */
  lemma {:induction false} GroupSpecLists(footprints: seq<Footprint>)
    ensures forall k :: GroupSpec(footprints).Get(k) == PositionsNamed(footprints, k)
  {
    if footprints != [] {
      GroupSpecLists(DropLast(footprints));
    }
  }

  /** The total of `lists[k]`'s lengths over the keys `ks`. */
  function SumLengths(ks: seq<string>, lists: map<string, seq<Pos>>): nat
  {
    if ks == [] then 0
    else SumLengths(DropLast(ks), lists) + (if Last(ks) in lists then |lists[Last(ks)]| else 0)
  }

  lemma {:induction false} SumLengthsUpdate(ks: seq<string>, lists: map<string, seq<Pos>>, k: string, v: seq<Pos>)
    requires forall i, j :: 0 <= i < j < |ks| ==> ks[i] != ks[j]
    ensures k in ks && k in lists ==> SumLengths(ks, lists[k := v]) + |lists[k]| == SumLengths(ks, lists) + |v|
    ensures k !in ks ==> SumLengths(ks, lists[k := v]) == SumLengths(ks, lists)
  {
    if ks != [] {
      SumLengthsUpdate(DropLast(ks), lists, k, v);
      DropLastThenLast(ks);
    }
  }

  /** Grouping loses and duplicates nothing: the lists' lengths add up to
      the number of annotation footprints. */
  lemma {:induction false} GroupSpecTotal(footprints: seq<Footprint>)
    ensures SumLengths(GroupSpec(footprints).order, GroupSpec(footprints).lists) == |footprints|
  {
    if footprints != [] {
      var g := GroupSpec(DropLast(footprints));
      var fp := Last(footprints);
      var updated := g.lists[fp.name := g.Get(fp.name) + [fp.position]];
      assert GroupSpec(footprints).lists == updated;
      GroupSpecTotal(DropLast(footprints));
      SumLengthsUpdate(g.order, g.lists, fp.name, g.Get(fp.name) + [fp.position]);
      if fp.name in g.lists {
        assert fp.name in g.order;
        assert GroupSpec(footprints).order == g.order;
      } else {
        assert fp.name !in g.order;
        assert GroupSpec(footprints).order == g.order + [fp.name];
        assert DropLast(g.order + [fp.name]) == g.order;
        assert SumLengths(g.order + [fp.name], updated) == SumLengths(g.order, updated) + 1;
      }
    }
  }
}
