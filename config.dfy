/** The configuration schema of src/kitfg/config.py and the parser that
    turns the raw `annotations` table into one hole spec per plate. */
module Config {
  import opened Wrappers
  import opened Seqs

  /** What one plate does at one annotation: nothing (Python's `None`), a
      plain hole, or a counterbore hole. In the source `CounterboreHole` is a
      subclass of `SimpleHole` and so also carries `diameter_mm`. */
  datatype HoleSpec =
    | NoHole
    | SimpleHole(diameterMm: real)
    | CounterboreHole(diameterMm: real, counterboreDiameterMm: real, counterboreDepthMm: real)

  /** `isinstance(h, SimpleHole)`: true of a counterbore hole as well. */
  predicate IsInstanceOfSimpleHole(h: HoleSpec)
  {
    h.SimpleHole? || h.CounterboreHole?
  }

  /** `isinstance(h, CounterboreHole)`. */
  predicate IsInstanceOfCounterboreHole(h: HoleSpec)
  {
    h.CounterboreHole?
  }

  /** One hole spec per plate: A for the first plate, B the second, C the third. */
  datatype Annotation = Annotation(A: HoleSpec, B: HoleSpec, C: HoleSpec)
  {
    /** Tuple indexing `annotation[i]`. */
    function At(i: nat): (h: HoleSpec)
      requires i < 3
      ensures i == 0 ==> h == A
      ensures i == 1 ==> h == B
      ensures i == 2 ==> h == C
    {
      if i == 0 then A else if i == 1 then B else C
    }
  }

  datatype PlateSize = PlateSize(widthMm: real, heightMm: real)
  {
    function w(): real { widthMm }
    function h(): real { heightMm }
  }

  datatype Location = Location(xMm: real, yMm: real)
  {
    function x(): real { xMm }
    function y(): real { yMm }
  }

  /** The `w`/`h` and `x`/`y` properties are plain aliases of the fields. */
  lemma AliasesReadFields(size: PlateSize, location: Location)
    ensures size.w() == size.widthMm && size.h() == size.heightMm
    ensures location.x() == location.xMm && location.y() == location.yMm
  {
  }

  datatype PlateConfig = PlateConfig(size: PlateSize, thicknessesMm: seq<real>)

  datatype PcbConfig = PcbConfig(thicknessMm: real, topClearanceMm: real, bottomClearanceMm: real)

  datatype PlateAlignmentPins = PlateAlignmentPins(
    alignmentPinCornerOffset: Location,
    pressurePinCornerOffset: Location,
    plateAlignmentPinType: string,
    pressurePinType: string)

  datatype TesterBoard = TesterBoard(
    offsetMm: real,
    mountPillarType: string,
    mountPillarLocations: seq<Location>)

  /** The validated configuration; `projectName` is `project.name`. */
  datatype Config = Config(
    projectName: string,
    plate: PlateConfig,
    pcb: PcbConfig,
    plateAlignmentPins: PlateAlignmentPins,
    testerBoard: TesterBoard,
    annotations: map<string, Annotation>)

  // ---------------------------------------------------------------------
  // Raw TOML input of the `annotations` validator

  /** A value in a raw TOML hole table: the tag is text, dimensions are numbers. */
  datatype Field = Text(text: string) | Number(x: real)

  /** One raw hole table, `{"type": ..., "diameter_mm": ..., ...}`. */
  type Table = map<string, Field>

  /** The three ways the validator fails: `assert len(annotation) == 3`, a
      table without `"type"` (KeyError), and pydantic rejecting the fields
      of a hole model (listing the offending fields in declaration order). */
  datatype ParseError =
    | AssertionError(length: nat)
    | KeyError(key: string)
    | ValidationError(fields: seq<string>)

  const TypeKey := "type"
  const SimpleHoleTag := "SimpleHole"
  const CounterboreHoleTag := "CounterboreHole"

  /** Declared fields of the two hole models, parent class first. */
  const SimpleHoleFields := ["diameter_mm"]
  const CounterboreHoleFields := ["diameter_mm", "counterbore_diameter_mm", "counterbore_depth_mm"]

  predicate IsNumberField(t: Table, name: string)
  {
    name in t && t[name].Number?
  }

  /** The declared fields that pydantic rejects: missing or not numeric.
      Keys the model does not declare are ignored. */
  function InvalidFields(t: Table, names: seq<string>): (bad: seq<string>)
    ensures forall f :: f in bad <==> f in names && !IsNumberField(t, f)
  {
    if names == [] then []
    else InvalidFields(t, DropLast(names)) +
         (if IsNumberField(t, Last(names)) then [] else [Last(names)])
  }

  /** `SimpleHole(**hole)` or `CounterboreHole(**hole)` chosen by the tag,
      and `None` for any other tag. */
  function BuildHole(tag: Field, t: Table): (r: Result<HoleSpec, ParseError>)
    ensures r.Success? && r.value.SimpleHole? <==>
              tag == Text(SimpleHoleTag) && InvalidFields(t, SimpleHoleFields) == []
    ensures r.Success? && r.value.CounterboreHole? <==>
              tag == Text(CounterboreHoleTag) && InvalidFields(t, CounterboreHoleFields) == []
    ensures r == Success(NoHole) <==> tag != Text(SimpleHoleTag) && tag != Text(CounterboreHoleTag)
    ensures r.Success? && r.value.SimpleHole? ==>
              IsNumberField(t, "diameter_mm") && r.value.diameterMm == t["diameter_mm"].x
    ensures r.Success? && r.value.CounterboreHole? ==>
              && IsNumberField(t, "diameter_mm")
              && IsNumberField(t, "counterbore_diameter_mm")
              && IsNumberField(t, "counterbore_depth_mm")
              && r.value.diameterMm == t["diameter_mm"].x
              && r.value.counterboreDiameterMm == t["counterbore_diameter_mm"].x
              && r.value.counterboreDepthMm == t["counterbore_depth_mm"].x
    ensures r.Failure? ==> r.error.ValidationError? && r.error.fields != []
    ensures r.Failure? ==>
              r.error == ValidationError(InvalidFields(t, if tag == Text(SimpleHoleTag) then SimpleHoleFields
                                                          else CounterboreHoleFields))
  {
    if tag == Text(SimpleHoleTag) then
      var bad := InvalidFields(t, SimpleHoleFields);
      if bad != [] then Failure(ValidationError(bad))
      else
        assert "diameter_mm" in SimpleHoleFields;
        Success(SimpleHole(t["diameter_mm"].x))
    else if tag == Text(CounterboreHoleTag) then
      var bad := InvalidFields(t, CounterboreHoleFields);
      if bad != [] then Failure(ValidationError(bad))
      else
        assert "diameter_mm" in CounterboreHoleFields;
        assert "counterbore_diameter_mm" in CounterboreHoleFields;
        assert "counterbore_depth_mm" in CounterboreHoleFields;
        Success(CounterboreHole(t["diameter_mm"].x, t["counterbore_diameter_mm"].x,
                                t["counterbore_depth_mm"].x))
    else Success(NoHole)
  }

  /** One iteration of the loop in `_parse_annotation`: read the tag (a
      missing tag is a KeyError), delete it, build the hole from the rest. */
  function ParseHole(entry: Table): Result<HoleSpec, ParseError>
  {
    if TypeKey !in entry then Failure(KeyError(TypeKey))
    else BuildHole(entry[TypeKey], entry - {TypeKey})
  }

  /** The holes of a list of entries, stopping at the first entry that fails. */
  function ParseHoles(entries: seq<Table>): Result<seq<HoleSpec>, ParseError>
  {
    if entries == [] then Success([])
    else
      match ParseHoles(DropLast(entries))
      case Failure(e) => Failure(e)
      case Success(hs) =>
        match ParseHole(Last(entries))
        case Failure(e) => Failure(e)
        case Success(h) => Success(hs + [h])
  }

  /** The loop succeeds iff every entry parses, and then hole i is entry
      i's hole. */
  lemma {:induction false} ParseHolesContents(entries: seq<Table>)
    ensures ParseHoles(entries).Success? <==> forall i :: 0 <= i < |entries| ==> ParseHole(entries[i]).Success?
    ensures ParseHoles(entries).Success? ==> |ParseHoles(entries).value| == |entries|
    ensures ParseHoles(entries).Success? ==>
              forall i :: 0 <= i < |entries| ==> ParseHoles(entries).value[i] == ParseHole(entries[i]).value
  {
    if entries != [] {
      ParseHolesContents(DropLast(entries));
      assert forall i :: 0 <= i < |entries| - 1 ==> DropLast(entries)[i] == entries[i];
    }
  }

  /** `_parse_annotation`: exactly three entries, entry i giving field i. */
  function ParseAnnotation(entries: seq<Table>): (r: Result<Annotation, ParseError>)
  {
    if |entries| != 3 then Failure(AssertionError(|entries|))
    else
      ParseHolesContents(entries);
      match ParseHoles(entries)
      case Failure(e) => Failure(e)
      case Success(hs) => Success(Annotation(hs[0], hs[1], hs[2]))
  }

  /** Parsing a prefix succeeds iff each of its entries parses. */
  lemma PrefixParses(s: seq<Table>, k: nat)
    requires k <= |s|
    ensures ParseHoles(s[..k]).Success? <==> forall j :: 0 <= j < k ==> ParseHole(s[j]).Success?
  {
    ParseHolesContents(s[..k]);
    assert forall j :: 0 <= j < k ==> s[..k][j] == s[j];
  }

  /** The loop stops at the first entry that fails, with that entry's
      error. */
  lemma {:induction false} ParseHolesStops(s: seq<Table>, i: nat)
    requires i < |s|
    requires ParseHoles(s[..i]).Success? && ParseHole(s[i]).Failure?
    ensures ParseHoles(s) == Failure(ParseHole(s[i]).error)
    decreases |s|
  {
    if |s| == i + 1 {
      assert DropLast(s) == s[..i];
    } else {
      assert DropLast(s)[..i] == s[..i];
      ParseHolesStops(DropLast(s), i);
    }
  }

  /** The entries as `_parse_annotation` leaves them: an entry loses its
      `"type"` key exactly when every entry before it parsed, i.e. when
      the loop reached it and read its tag. (Deleting an absent key models
      the KeyError that stops the loop before `del`.) */
  function AfterParse(entries: seq<Table>): (r: seq<Table>)
    ensures |r| == |entries|
  {
    seq(|entries|, k requires 0 <= k < |entries| =>
      if ParseHoles(entries[..k]).Success? then entries[k] - {TypeKey} else entries[k])
  }

  /** The loop of `_parse_annotation` over the list of hole tables, which it
      changes in place: each table it reaches loses its `"type"` key. */
  method ParseAnnotationInPlace(entries: array<Table>) returns (r: Result<Annotation, ParseError>)
    modifies entries
    ensures r == ParseAnnotation(old(entries[..]))
    ensures entries[..] == if entries.Length == 3 then AfterParse(old(entries[..])) else old(entries[..])
  {
    if entries.Length != 3 {
      return Failure(AssertionError(entries.Length));
    }
    ghost var input := entries[..];
    var holes: seq<HoleSpec> := [];
    var i := 0;
    while i < 3
      invariant 0 <= i <= 3
      invariant ParseHoles(input[..i]) == Success(holes) && |holes| == i
      invariant forall k :: 0 <= k < i ==> entries[k] == input[k] - {TypeKey}
      invariant forall k :: i <= k < 3 ==> entries[k] == input[k]
    {
      var hole := entries[i];
      if TypeKey !in hole {
        assert input[i] - {TypeKey} == input[i];
        AfterParseFailure(input, i);
        assert forall k :: 0 <= k < 3 ==> entries[..][k] == AfterParse(input)[k];
        return Failure(KeyError(TypeKey));
      }
      var tag := hole[TypeKey];
      hole := hole - {TypeKey};
      entries[i] := hole;
      var built := BuildHole(tag, hole);
      if built.Failure? {
        AfterParseFailure(input, i);
        assert forall k :: 0 <= k < 3 ==> entries[..][k] == AfterParse(input)[k];
        return Failure(built.error);
      }
      assert DropLast(input[..i + 1]) == input[..i];
      holes := holes + [built.value];
      i := i + 1;
    }
    assert input[..3] == input;
    AfterParseRemovesTags(input);
    assert forall k :: 0 <= k < 3 ==> entries[..][k] == AfterParse(input)[k];
    r := Success(Annotation(holes[0], holes[1], holes[2]));
  }

  /** Where the loop stops at entry `i`: the parse fails with entry `i`'s
      error, entries up to `i` have lost their tag and later ones keep it. */
  lemma AfterParseFailure(s: seq<Table>, i: nat)
    requires i < |s|
    requires ParseHoles(s[..i]).Success? && ParseHole(s[i]).Failure?
    ensures ParseHoles(s) == Failure(ParseHole(s[i]).error)
    ensures forall k :: 0 <= k <= i ==> AfterParse(s)[k] == s[k] - {TypeKey}
    ensures forall k :: i < k < |s| ==> AfterParse(s)[k] == s[k]
  {
    ParseHolesStops(s, i);
    PrefixParses(s, i);
    forall k | 0 <= k < |s|
      ensures AfterParse(s)[k] == if k <= i then s[k] - {TypeKey} else s[k]
    {
      PrefixParses(s, k);
    }
  }

  /** After a successful parse, every entry has lost exactly its `"type"` key. */
  lemma AfterParseRemovesTags(s: seq<Table>)
    requires ParseHoles(s).Success?
    ensures forall i :: 0 <= i < |s| ==> AfterParse(s)[i] == s[i] - {TypeKey}
  {
    PrefixParses(s, |s|);
    assert s[..|s|] == s;
    forall k | 0 <= k < |s|
      ensures AfterParse(s)[k] == s[k] - {TypeKey}
    {
      PrefixParses(s, k);
    }
  }

  /** `_parse_annotation` succeeds exactly on three entries that each parse,
      and fields A, B and C come from entries 0, 1 and 2. */
  lemma ParseAnnotationCharacterised(entries: seq<Table>)
    ensures ParseAnnotation(entries).Success? <==>
              |entries| == 3 && forall i :: 0 <= i < 3 ==> ParseHole(entries[i]).Success?
    ensures |entries| != 3 ==> ParseAnnotation(entries) == Failure(AssertionError(|entries|))
    ensures ParseAnnotation(entries).Success? ==>
              && ParseAnnotation(entries).value.A == ParseHole(entries[0]).value
              && ParseAnnotation(entries).value.B == ParseHole(entries[1]).value
              && ParseAnnotation(entries).value.C == ParseHole(entries[2]).value
  {
    ParseHolesContents(entries);
  }

  /** An entry's tag alone decides the variant; an unrecognised tag is "no
      hole", never an error. */
  lemma TagDecidesVariant(entry: Table)
    requires TypeKey in entry
    ensures ParseHole(entry).Success? && ParseHole(entry).value.SimpleHole? ==>
              entry[TypeKey] == Text(SimpleHoleTag)
    ensures ParseHole(entry).Success? && ParseHole(entry).value.CounterboreHole? ==>
              entry[TypeKey] == Text(CounterboreHoleTag)
    ensures entry[TypeKey] != Text(SimpleHoleTag) && entry[TypeKey] != Text(CounterboreHoleTag) ==>
              ParseHole(entry) == Success(NoHole)
  {
  }

  /** A hole table without a `"type"` key, reached after every earlier
      entry parsed, makes the whole annotation fail with KeyError. */
  lemma MissingTypeFails(entries: seq<Table>, i: nat)
    requires |entries| == 3 && i < 3
    requires forall j :: 0 <= j < i ==> ParseHole(entries[j]).Success?
    requires TypeKey !in entries[i]
    ensures ParseAnnotation(entries) == Failure(KeyError(TypeKey))
  {
    PrefixParses(entries, i);
    ParseHolesStops(entries, i);
  }

  predicate KeysDistinct<V>(kvs: seq<(string, V)>)
  {
    forall i, j :: 0 <= i < j < |kvs| ==> kvs[i].0 != kvs[j].0
  }

  /** The keys of an association list. */
  function KeysOf<V>(kvs: seq<(string, V)>): set<string>
  {
    if kvs == [] then {} else KeysOf(DropLast(kvs)) + {Last(kvs).0}
  }

  lemma {:induction false} KeysOfMembership<V>(kvs: seq<(string, V)>, k: string)
    ensures k in KeysOf(kvs) <==> exists i :: 0 <= i < |kvs| && kvs[i].0 == k
  {
    if kvs != [] {
      KeysOfMembership(DropLast(kvs), k);
      if k in KeysOf(DropLast(kvs)) {
        var i :| 0 <= i < |kvs| - 1 && DropLast(kvs)[i].0 == k;
        assert kvs[i].0 == k;
      }
    }
  }

  /** The `parse_annotations` validator: the dict comprehension applying
      `_parse_annotation` to each value in the table's order. The result
      has exactly the input's keys, and fails iff some value fails. */
  function ParseAnnotations(kvs: seq<(string, seq<Table>)>): (r: Result<map<string, Annotation>, ParseError>)
    ensures r.Success? <==> forall i :: 0 <= i < |kvs| ==> ParseAnnotation(kvs[i].1).Success?
    ensures r.Success? ==> r.value.Keys == KeysOf(kvs)
  {
    if kvs == [] then Success(map[])
    else
      var rest := ParseAnnotations(DropLast(kvs));
      var last := ParseAnnotation(Last(kvs).1);
      assert forall i :: 0 <= i < |kvs| - 1 ==> DropLast(kvs)[i] == kvs[i];
      if rest.Failure? then Failure(rest.error)
      else if last.Failure? then Failure(last.error)
      else Success(rest.value[Last(kvs).0 := last.value])
  }

  /** Each key of the input table maps to the parse of its own value. */
  lemma {:induction false} ParseAnnotationsValues(kvs: seq<(string, seq<Table>)>, i: nat)
    requires KeysDistinct(kvs)
    requires i < |kvs|
    requires ParseAnnotations(kvs).Success?
    ensures kvs[i].0 in ParseAnnotations(kvs).value &&
            ParseAnnotations(kvs).value[kvs[i].0] == ParseAnnotation(kvs[i].1).value
  {
    KeysOfMembership(kvs, kvs[i].0);
    if i < |kvs| - 1 {
      ParseAnnotationsValues(DropLast(kvs), i);
      KeysOfMembership(DropLast(kvs), kvs[i].0);
    }
  }
}
