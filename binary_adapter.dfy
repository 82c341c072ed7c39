/** The BinaryFileAdapter object of BinaryFileAdapter.cpp: its writers and its two id
    counters. Each output file is the sequence of values written to it so far; a call
    appends one or more records. The counters are static in the source and shared by
    every adapter; the program has one adapter, which owns them here. */
module BinaryAdapter {
  import opened Foreign
  import opened SolarisTypes
  import opened BodyModel
  import opened BinaryRecords

  datatype FileKind = Phases | Integrals | TwoBodyAffairs | ConstantProperties | VariableProperties | CompositionProperties

  /** An output file: the binary file named in Output, or its ".txt" counterpart. */
  datatype Stream = Stream(kind: FileKind, outputType: OutputType)

  /** The phases record SavePhases writes. In text mode the placeholders come from the
      slots 0..removed-1, as the loop of the source indexes them (see RemovedAsWritten). */
  function PhasesRecord(time: real, n: nat, y: seq<real>, id: seq<int>, t: OutputType, removed: int): seq<Item>
    requires n <= |id| && 6 * n <= |y| && (t == TextOutput ==> removed <= |id|)
  {
    if t == BinaryOutput then BinaryPhases(time, n, y, id)
    else TextPhases(time, n, y, id, RemovedAsWritten(id, removed))
  }

  /** A reader of the phases file gets back the live entries and, in text mode, the
      placeholders of slots 0..removed-1. */
  lemma PhasesRecordReadsBack(time: real, n: nat, y: seq<real>, id: seq<int>, t: OutputType, removed: int)
    requires n <= |id| && 6 * n <= |y| && (t == TextOutput ==> removed <= |id|)
    ensures t == BinaryOutput ==>
      DecodeBinaryPhases(PhasesRecord(time, n, y, id, t, removed)) == Some(Snapshot(time, id[..n], y[..6 * n], []))
    ensures t == TextOutput ==>
      DecodeTextPhases(PhasesRecord(time, n, y, id, t, removed)) ==
        Some(Snapshot(time, id[..n], y[..6 * n], if removed > 0 then id[..removed] else []))
  {
    if t == BinaryOutput {
      BinaryPhasesRoundTrip(time, n, y, id);
    } else {
      TextPhasesRoundTrip(time, n, y, id, RemovedAsWritten(id, removed));
    }
  }

  function IntegralsRecord(time: real, n: nat, integrals: seq<real>, t: OutputType): seq<Item>
    requires if t == BinaryOutput then n <= |integrals| else 16 <= |integrals|
  {
    if t == BinaryOutput then BinaryIntegrals(time, n, integrals) else TextIntegrals(time, integrals)
  }

  function ConstantRecordOf(b: Body, t: OutputType, toGuid: string -> Guid): seq<Item>
  {
    if t == BinaryOutput then BinaryConstant(b, toGuid(b.guid)) else TextConstant(b)
  }

  /** The records of xs, one after the other. */
  function Concat<T>(f: T -> seq<Item>, xs: seq<T>): seq<Item>
  {
    if xs == [] then [] else Concat(f, xs[..|xs| - 1]) + f(xs[|xs| - 1])
  }

  /** One more element adds its record r. */
  lemma ConcatSnoc<T>(f: T -> seq<Item>, xs: seq<T>, i: nat, r: seq<Item>)
    requires i < |xs| && r == f(xs[i])
    ensures Concat(f, xs[..i + 1]) == Concat(f, xs[..i]) + r
  {
    assert xs[..i + 1][..i] == xs[..i];
  }

  lemma NumberedSnoc<T>(f: (int, T) -> seq<Item>, first: int, xs: seq<T>, i: nat, r: seq<Item>)
    requires i < |xs| && r == f(first + i, xs[i])
    ensures Numbered(f, first, xs[..i + 1]) == Numbered(f, first, xs[..i]) + r
  {
    assert xs[..i + 1][..i] == xs[..i];
  }

  function ConstantOf(t: OutputType, toGuid: string -> Guid): Body -> seq<Item>
  {
    (b: Body) => ConstantRecordOf(b, t, toGuid)
  }

  function VariableOf(time: real, t: OutputType): (int, Body) -> seq<Item>
  {
    (k: int, b: Body) => VariableRecord(k, b, time, t)
  }

  /** The constant property records of a list of bodies, in list order. */
  function ConstantRecords(bodies: seq<Body>, t: OutputType, toGuid: string -> Guid): seq<Item>
  {
    Concat(ConstantOf(t, toGuid), bodies)
  }

  /** The variable property records of a list of bodies, numbered from the first property id. */
  function VariableRecords(propertyId: int, bodies: seq<Body>, time: real, t: OutputType): seq<Item>
  {
    Numbered(VariableOf(time, t), propertyId, bodies)
  }

  /** The sum of size over xs. */
  function SizeSum<T>(size: T -> nat, xs: seq<T>): nat
  {
    if xs == [] then 0 else SizeSum(size, xs[..|xs| - 1]) + size(xs[|xs| - 1])
  }

  /** The records of xs, where element k gets the k-th number from p on and c plus the
      sizes of the elements before it. */
  function Running<T>(f: (int, int, T) -> seq<Item>, size: T -> nat, p: int, c: int, xs: seq<T>): seq<Item>
  {
    if xs == [] then []
    else
      var init := xs[..|xs| - 1];
      Running(f, size, p, c, init) + f(p + |init|, c + SizeSum(size, init), xs[|xs| - 1])
  }

  lemma SizeSumSnoc<T>(size: T -> nat, xs: seq<T>, i: nat, n: nat)
    requires i < |xs| && n == size(xs[i])
    ensures SizeSum(size, xs[..i + 1]) == SizeSum(size, xs[..i]) + n
  {
    assert xs[..i + 1][..i] == xs[..i];
  }

  lemma RunningSnoc<T>(f: (int, int, T) -> seq<Item>, size: T -> nat, p: int, c: int, xs: seq<T>, i: nat, r: seq<Item>)
    requires i < |xs| && r == f(p + i, c + SizeSum(size, xs[..i]), xs[i])
    ensures Running(f, size, p, c, xs[..i + 1]) == Running(f, size, p, c, xs[..i]) + r
  {
    assert xs[..i + 1][..i] == xs[..i];
  }

  function ComponentNumber(): Body -> nat
  {
    (b: Body) => |ComponentsOf(b)|
  }

  function CompositionsOf(t: OutputType): (int, int, Body) -> seq<Item>
  {
    (p: int, c: int, b: Body) => CompositionRecords(c, p, ComponentsOf(b), t)
  }

  /** How many composition ids the bodies use up. */
  function ComponentCount(bodies: seq<Body>): nat
  {
    SizeSum(ComponentNumber(), bodies)
  }

  /** The composition records of a list of bodies: body k owns property id propertyId + k,
      and the composition ids run on from body to body. */
  function BodiesCompositions(propertyId: int, compositionId: int, bodies: seq<Body>, t: OutputType): seq<Item>
  {
    Running(CompositionsOf(t), ComponentNumber(), propertyId, compositionId, bodies)
  }

  /** The three files SaveBodyProperties writes to. */
  predicate IsPropertyStream(u: Stream, t: OutputType)
  {
    u.outputType == t && (u.kind == ConstantProperties || u.kind == VariableProperties || u.kind == CompositionProperties)
  }

  class BinaryFileAdapter {
    var propertyId: int
    var compositionId: int
    var files: map<Stream, seq<Item>>

    /** What has been written to a file; a file not yet written is empty. */
    function Contents(s: Stream): seq<Item>
      reads this
    {
      if s in files then files[s] else []
    }

    /** Both counters start at 0 (BinaryFileAdapter.cpp, lines 27-28); no file is written. */
    constructor ()
      ensures propertyId == 0 && compositionId == 0
      ensures forall s :: Contents(s) == []
    {
      propertyId := 0;
      compositionId := 0;
      files := map[];
    }

    /** Writing to one file: its contents grow by items, nothing else changes. */
    method Append(s: Stream, items: seq<Item>)
      modifies this
      ensures Contents(s) == old(Contents(s)) + items
      ensures forall u :: u != s ==> Contents(u) == old(Contents(u))
      ensures propertyId == old(propertyId) && compositionId == old(compositionId)
    {
      files := files[s := Contents(s) + items];
    }

    /** SavePhases: appends the phases record to the phases file. */
    method SavePhases(time: real, n: nat, y: seq<real>, id: seq<int>, t: OutputType, removed: int)
      requires n <= |id| && 6 * n <= |y|
      requires t == TextOutput ==> removed <= |id|
      modifies this
      ensures Contents(Stream(Phases, t)) == old(Contents(Stream(Phases, t))) + PhasesRecord(time, n, y, id, t, removed)
      ensures forall u :: u != Stream(Phases, t) ==> Contents(u) == old(Contents(u))
      ensures propertyId == old(propertyId) && compositionId == old(compositionId)
    {
      var w := WritePhases(time, n, y, id, t, removed);
      Append(Stream(Phases, t), w);
    }

    /** SaveIntegrals: in binary mode the count n + 1, the time and n values in one write;
        in text mode the time and 16 values, then the end of the line. */
    method SaveIntegrals(time: real, n: nat, integrals: seq<real>, t: OutputType)
      requires if t == BinaryOutput then n <= |integrals| else 16 <= |integrals|
      modifies this
      ensures Contents(Stream(Integrals, t)) == old(Contents(Stream(Integrals, t))) + IntegralsRecord(time, n, integrals, t)
      ensures forall u :: u != Stream(Integrals, t) ==> Contents(u) == old(Contents(u))
      ensures propertyId == old(propertyId) && compositionId == old(compositionId)
    {
      var w: seq<Item>;
      if t == BinaryOutput {
        var nElement := n + 1;
        w := [Int(nElement), Double(time)] + Doubles(integrals[..n]);
      } else {
        w := [Double(time)];
        var i := 0;
        while i < 16
          invariant 0 <= i <= 16
          invariant w == [Double(time)] + Doubles(integrals[..i])
        {
          assert Doubles(integrals[..i + 1]) == Doubles(integrals[..i]) + [Double(integrals[i])];
          w := w + [Double(integrals[i])];
          i := i + 1;
        }
        w := w + [Newline];
      }
      Append(Stream(Integrals, t), w);
    }

    /** SaveTwoBodyAffairs: SaveTwoBodyAffair for each affair of the list, in order. */
    method SaveTwoBodyAffairs(list: seq<TwoBodyAffair>, t: OutputType)
      modifies this
      ensures Contents(Stream(TwoBodyAffairs, t)) == old(Contents(Stream(TwoBodyAffairs, t))) + AffairRecords(list, t)
      ensures forall u :: u != Stream(TwoBodyAffairs, t) ==> Contents(u) == old(Contents(u))
      ensures propertyId == old(propertyId) && compositionId == old(compositionId)
    {
      var w: seq<Item> := [];
      var i := 0;
      while i < |list|
        invariant 0 <= i <= |list|
        invariant w == AffairRecords(list[..i], t)
      {
        assert list[..i + 1][..i] == list[..i];
        w := w + AffairRecord(list[i], t);
        i := i + 1;
      }
      assert list[..i] == list;
      Append(Stream(TwoBodyAffairs, t), w);
    }

    /** SaveConstantProperty on its own: one record appended to the constant property file. */
    method SaveConstantProperty(body: Body, t: OutputType, toGuid: string -> Guid)
      modifies this
      ensures Contents(Stream(ConstantProperties, t)) == old(Contents(Stream(ConstantProperties, t))) + ConstantRecordOf(body, t, toGuid)
      ensures forall u :: u != Stream(ConstantProperties, t) ==> Contents(u) == old(Contents(u))
      ensures propertyId == old(propertyId) && compositionId == old(compositionId)
    {
      var w := WriteConstantProperty([], body, t, toGuid);
      Append(Stream(ConstantProperties, t), w);
    }

    /** SaveVariableProperty on its own: one record appended to the variable property
        file, and the body's composition records to the composition file. */
    method SaveVariableProperty(body: Body, time: real, t: OutputType)
      modifies this
      ensures propertyId == old(propertyId) + 1
      ensures compositionId == old(compositionId) + |ComponentsOf(body)|
      ensures Contents(Stream(VariableProperties, t)) == old(Contents(Stream(VariableProperties, t))) + VariableRecord(old(propertyId), body, time, t)
      ensures Contents(Stream(CompositionProperties, t)) ==
        old(Contents(Stream(CompositionProperties, t))) + CompositionRecords(old(compositionId), old(propertyId), ComponentsOf(body), t)
      ensures forall u :: u != Stream(VariableProperties, t) && u != Stream(CompositionProperties, t) ==> Contents(u) == old(Contents(u))
    {
      var w, compPropWriter := WriteVariableProperty([], [], body, time, t);
      Append(Stream(CompositionProperties, t), compPropWriter);
      Append(Stream(VariableProperties, t), w);
    }

    /** The SaveVariableProperty that writes to an open writer: it takes the current
        property id and advances the counter; a body with components also gets its
        composition records, on the composition writer. */
    method WriteVariableProperty(w0: seq<Item>, cw0: seq<Item>, body: Body, time: real, t: OutputType) returns (w: seq<Item>, cw: seq<Item>)
      modifies this
      ensures w == w0 + VariableRecord(old(propertyId), body, time, t)
      ensures cw == cw0 + CompositionRecords(old(compositionId), old(propertyId), ComponentsOf(body), t)
      ensures propertyId == old(propertyId) + 1
      ensures compositionId == old(compositionId) + |ComponentsOf(body)|
      ensures files == old(files)
    {
      var id := propertyId;
      propertyId := propertyId + 1;
      w := w0 + [Int(id), Int(body.id), Double(time)] + Doubles(VariableDoubles(body));
      cw := cw0;
      if body.characteristics.Some? && |body.characteristics.value.componentList| > 0 {
        var records := WriteCompositionProperty(body, id, t);
        cw := cw + records;
      } else {
        assert CompositionRecords(old(compositionId), id, ComponentsOf(body), t) == [];
      }
      if t == TextOutput {
        w := w + [Newline];
      }
    }

    /** SaveCompositionProperty: one record per component, each with a fresh composition id
        and the owning property id; w is what it writes. */
    method WriteCompositionProperty(body: Body, propertyId': int, t: OutputType) returns (w: seq<Item>)
      requires body.characteristics.Some?
      modifies this
      ensures w == CompositionRecords(old(compositionId), propertyId', ComponentsOf(body), t)
      ensures compositionId == old(compositionId) + |ComponentsOf(body)|
      ensures propertyId == old(propertyId) && files == old(files)
    {
      var cs := body.characteristics.value.componentList;
      ghost var c0 := compositionId;
      w := [];
      var i := 0;
      while i < |cs|
        invariant 0 <= i <= |cs|
        invariant compositionId == c0 + i && propertyId == old(propertyId) && files == old(files)
        invariant w == CompositionRecords(c0, propertyId', cs[..i], t)
      {
        var id := compositionId;
        compositionId := compositionId + 1;
        ComponentRecordsStep(c0, propertyId', cs, i, t);
        w := w + CompositionRecord(id, propertyId', cs[i], t);
        i := i + 1;
      }
      assert cs[..i] == cs;
    }

    /** The second half of one pass of the loop of SaveBodyProperties: the variable
        property record of body i goes to the open writer, its composition records to the
        composition writer. */
    method WriteVariableStep(time: real, bodies: seq<Body>, i: nat, t: OutputType,
                             vw: seq<Item>, mw: seq<Item>, ghost p0: int, ghost c0: int)
      returns (vw': seq<Item>, mw': seq<Item>)
      requires i < |bodies|
      requires propertyId == p0 + i && compositionId == c0 + ComponentCount(bodies[..i])
      requires vw == VariableRecords(p0, bodies[..i], time, t)
      requires mw == BodiesCompositions(p0, c0, bodies[..i], t)
      modifies this
      ensures propertyId == p0 + i + 1 && compositionId == c0 + ComponentCount(bodies[..i + 1])
      ensures vw' == VariableRecords(p0, bodies[..i + 1], time, t)
      ensures mw' == BodiesCompositions(p0, c0, bodies[..i + 1], t)
      ensures files == old(files)
    {
      ComponentCountStep(bodies, i);
      vw', mw' := WriteVariableProperty(vw, mw, bodies[i], time, t);
      VariableStepClose(time, bodies, i, t, p0, c0, vw, vw', mw, mw');
    }

    /** SaveBodyProperties: opens the constant and the variable property writers and, for
        each body of the list, writes its constant and then its variable property record. */
    method SaveBodyProperties(time: real, bodies: seq<Body>, t: OutputType, toGuid: string -> Guid)
      modifies this
      ensures propertyId == old(propertyId) + |bodies|
      ensures compositionId == old(compositionId) + ComponentCount(bodies)
      ensures Contents(Stream(ConstantProperties, t)) == old(Contents(Stream(ConstantProperties, t))) + ConstantRecords(bodies, t, toGuid)
      ensures Contents(Stream(VariableProperties, t)) ==
        old(Contents(Stream(VariableProperties, t))) + VariableRecords(old(propertyId), bodies, time, t)
      ensures Contents(Stream(CompositionProperties, t)) ==
        old(Contents(Stream(CompositionProperties, t))) + BodiesCompositions(old(propertyId), old(compositionId), bodies, t)
      ensures forall u :: !IsPropertyStream(u, t) ==> Contents(u) == old(Contents(u))
    {
      var constPropWriter, varPropWriter, compPropWriter := WriteBodyProperties(time, bodies, t, toGuid);
      Append(Stream(ConstantProperties, t), constPropWriter);
      Append(Stream(VariableProperties, t), varPropWriter);
      Append(Stream(CompositionProperties, t), compPropWriter);
    }

    /** The loop of SaveBodyProperties, over the three open writers. */
    method WriteBodyProperties(time: real, bodies: seq<Body>, t: OutputType, toGuid: string -> Guid)
      returns (constPropWriter: seq<Item>, varPropWriter: seq<Item>, compPropWriter: seq<Item>)
      modifies this
      ensures propertyId == old(propertyId) + |bodies|
      ensures compositionId == old(compositionId) + ComponentCount(bodies)
      ensures constPropWriter == ConstantRecords(bodies, t, toGuid)
      ensures varPropWriter == VariableRecords(old(propertyId), bodies, time, t)
      ensures compPropWriter == BodiesCompositions(old(propertyId), old(compositionId), bodies, t)
      ensures files == old(files)
    {
      ghost var p0, c0 := propertyId, compositionId;
      constPropWriter, varPropWriter, compPropWriter := [], [], [];
      var i := 0;
      while i < |bodies|
        invariant 0 <= i <= |bodies|
        invariant propertyId == p0 + i
        invariant compositionId == c0 + ComponentCount(bodies[..i])
        invariant constPropWriter == ConstantRecords(bodies[..i], t, toGuid)
        invariant varPropWriter == VariableRecords(p0, bodies[..i], time, t)
        invariant compPropWriter == BodiesCompositions(p0, c0, bodies[..i], t)
        invariant files == old(files)
      {
        constPropWriter := WriteConstantStep(bodies, i, t, toGuid, constPropWriter);
        varPropWriter, compPropWriter := WriteVariableStep(time, bodies, i, t, varPropWriter, compPropWriter, p0, c0);
        i := i + 1;
      }
      assert bodies[..i] == bodies;
    }
  }

  // ----- what one more body adds to each of the property files -----

  lemma ConstantsStep(bodies: seq<Body>, i: nat, t: OutputType, toGuid: string -> Guid)
    requires i < |bodies|
    ensures ConstantRecords(bodies[..i + 1], t, toGuid) == ConstantRecords(bodies[..i], t, toGuid) + ConstantRecordOf(bodies[i], t, toGuid)
  {
    ConcatSnoc(ConstantOf(t, toGuid), bodies, i, ConstantRecordOf(bodies[i], t, toGuid));
  }

  lemma VariablesStep(time: real, bodies: seq<Body>, i: nat, t: OutputType, p0: int)
    requires i < |bodies|
    ensures VariableRecords(p0, bodies[..i + 1], time, t) == VariableRecords(p0, bodies[..i], time, t) + VariableRecord(p0 + i, bodies[i], time, t)
  {
    NumberedSnoc(VariableOf(time, t), p0, bodies, i, VariableRecord(p0 + i, bodies[i], time, t));
  }

  lemma ComponentRecordsStep(c0: int, p: int, cs: seq<Component>, i: nat, t: OutputType)
    requires i < |cs|
    ensures CompositionRecords(c0, p, cs[..i + 1], t) == CompositionRecords(c0, p, cs[..i], t) + CompositionRecord(c0 + i, p, cs[i], t)
  {
    NumberedSnoc(CompositionOf(p, t), c0, cs, i, CompositionRecord(c0 + i, p, cs[i], t));
  }

  lemma ComponentCountStep(bodies: seq<Body>, i: nat)
    requires i < |bodies|
    ensures ComponentCount(bodies[..i + 1]) == ComponentCount(bodies[..i]) + |ComponentsOf(bodies[i])|
  {
    SizeSumSnoc(ComponentNumber(), bodies, i, |ComponentsOf(bodies[i])|);
  }

  /** The records one pass of the loop of SaveBodyProperties adds complete the records
      of the first i + 1 bodies. */
  lemma VariableStepClose(time: real, bodies: seq<Body>, i: nat, t: OutputType, p0: int, c0: int,
                          vw: seq<Item>, vw': seq<Item>, mw: seq<Item>, mw': seq<Item>)
    requires i < |bodies|
    requires vw == VariableRecords(p0, bodies[..i], time, t) && mw == BodiesCompositions(p0, c0, bodies[..i], t)
    requires vw' == vw + VariableRecord(p0 + i, bodies[i], time, t)
    requires mw' == mw + CompositionRecords(c0 + ComponentCount(bodies[..i]), p0 + i, ComponentsOf(bodies[i]), t)
    ensures vw' == VariableRecords(p0, bodies[..i + 1], time, t)
    ensures mw' == BodiesCompositions(p0, c0, bodies[..i + 1], t)
  {
    VariablesStep(time, bodies, i, t, p0);
    CompositionsStep(bodies, i, t, p0, c0);
  }

  lemma CompositionsStep(bodies: seq<Body>, i: nat, t: OutputType, p0: int, c0: int)
    requires i < |bodies|
    ensures BodiesCompositions(p0, c0, bodies[..i + 1], t) ==
      BodiesCompositions(p0, c0, bodies[..i], t) + CompositionRecords(c0 + ComponentCount(bodies[..i]), p0 + i, ComponentsOf(bodies[i]), t)
  {
    RunningSnoc(CompositionsOf(t), ComponentNumber(), p0, c0, bodies, i,
      CompositionRecords(c0 + ComponentCount(bodies[..i]), p0 + i, ComponentsOf(bodies[i]), t));
  }

  /** The writes of SavePhases: time and n, then SavePhase for each of the n bodies; in
      text mode a placeholder for each removed body and the end of the line follow. */
  method WritePhases(time: real, n: nat, y: seq<real>, id: seq<int>, t: OutputType, removed: int) returns (w: seq<Item>)
    requires n <= |id| && 6 * n <= |y|
    requires t == TextOutput ==> removed <= |id|
    ensures w == PhasesRecord(time, n, y, id, t, removed)
  {
    w := WritePhaseEntries([Double(time), Int(n)], n, y, id);
    if t == TextOutput {
      if removed > 0 {
        w := WritePlaceholders(w, id[..removed]);
      } else {
        assert w == w + Placeholders([]);
      }
      w := w + [Newline];
    }
  }

  /** The loop over the n bodies still in the simulation: id and the six coordinates. */
  method WritePhaseEntries(w0: seq<Item>, n: nat, y: seq<real>, id: seq<int>) returns (w: seq<Item>)
    requires n <= |id| && 6 * n <= |y|
    ensures w == w0 + Entries(y, id, 0, n)
  {
    w := w0;
    var i := 0;
    while i < n
      invariant 0 <= i <= n
      invariant w == w0 + Entries(y, id, 0, i)
    {
      EntriesSnoc(y, id, 0, i);
      w := w + PhaseEntry(id[i], y[6 * i..6 * i + 6]);
      i := i + 1;
    }
  }

  /** The loop of the text format over the removed bodies: an id and six zeros each. */
  method WritePlaceholders(w0: seq<Item>, ids: seq<int>) returns (w: seq<Item>)
    ensures w == w0 + Placeholders(ids)
  {
    w := w0;
    var k := 0;
    while k < |ids|
      invariant 0 <= k <= |ids|
      invariant w == w0 + Placeholders(ids[..k])
    {
      PlaceholdersSnoc(ids[..k], ids[k]);
      assert ids[..k + 1] == ids[..k] + [ids[k]];
      w := w + Placeholder(ids[k]);
      k := k + 1;
    }
    assert ids[..k] == ids;
  }

  /** The SaveConstantProperty that writes to an open writer. toGuid is
      Tools::GuidToCharArray, whose code is not part of this model. */
  method WriteConstantProperty(w0: seq<Item>, body: Body, t: OutputType, toGuid: string -> Guid) returns (w: seq<Item>)
    ensures w == w0 + ConstantRecordOf(body, t, toGuid)
  {
    if t == BinaryOutput {
      w := w0 + [Int(body.id)];
      w := WriteGuid(w, toGuid(body.guid));
      w := w + ConstantStrings(body);
      assert w == w0 + BinaryConstant(body, toGuid(body.guid));
    } else {
      w := w0 + TextConstant(body);
    }
  }

  /** The first half of one pass of the loop of SaveBodyProperties: the constant
      property record of body i goes to the open writer. */
  method WriteConstantStep(bodies: seq<Body>, i: nat, t: OutputType, toGuid: string -> Guid, cw: seq<Item>) returns (cw': seq<Item>)
    requires i < |bodies| && cw == ConstantRecords(bodies[..i], t, toGuid)
    ensures cw' == ConstantRecords(bodies[..i + 1], t, toGuid)
  {
    ConstantsStep(bodies, i, t, toGuid);
    cw' := WriteConstantProperty(cw, bodies[i], t, toGuid);
  }

  /** The three loops of SaveConstantProperty that put the GUID's int and short parts in
      reverse byte order, then the single write of the last eight bytes. */
  method WriteGuid(w0: seq<Item>, g: Guid) returns (w: seq<Item>)
    ensures w == w0 + Bytes(GuidOrder(g))
  {
    ghost var r := GuidOrder(g);
    w := w0;
    var j := 3;
    while j >= 0
      invariant -1 <= j <= 3
      invariant w == w0 + Bytes(r[..3 - j])
    {
      BytesSnoc(r, 3 - j);
      w := w + [Byte(g[j])];
      j := j - 1;
    }
    j := 5;
    while j >= 4
      invariant 3 <= j <= 5
      invariant w == w0 + Bytes(r[..9 - j])
    {
      BytesSnoc(r, 9 - j);
      w := w + [Byte(g[j])];
      j := j - 1;
    }
    j := 7;
    while j >= 6
      invariant 5 <= j <= 7
      invariant w == w0 + Bytes(r[..13 - j])
    {
      BytesSnoc(r, 13 - j);
      w := w + [Byte(g[j])];
      j := j - 1;
    }
    assert r[8..16] == g[8..16];
    assert Bytes(r) == Bytes(r[..8]) + Bytes(g[8..16]) by {
      assert r == r[..8] + r[8..16];
    }
    w := w + Bytes(g[8..16]);
    assert r[..16] == r;
  }

  lemma BytesSnoc(g: seq<byte>, m: nat)
    requires m < |g|
    ensures Bytes(g[..m + 1]) == Bytes(g[..m]) + [Byte(g[m])]
  {
  }

  // ----- properties of the counters -----

  /** Each body of a binary SaveBodyProperties call gets its own variable property record
      of six values, whose property id is the counter's value plus the body's position
      and whose second value is the body's id: the ids are consecutive and never reused. */
  lemma {:induction false} VariableRecordsAt(propertyId: int, bodies: seq<Body>, time: real, k: nat)
    requires k < |bodies|
    ensures var items := VariableRecords(propertyId, bodies, time, BinaryOutput);
      |items| == 6 * |bodies| &&
      items[6 * k] == Int(propertyId + k) && items[6 * k + 1] == Int(bodies[k].id) && items[6 * k + 2] == Double(time)
    decreases |bodies|
  {
    var f := (j: int, b: Body) => VariableRecord(j, b, time, BinaryOutput);
    var init := bodies[..|bodies| - 1];
    var items := VariableRecords(propertyId, bodies, time, BinaryOutput);
    assert items == VariableRecords(propertyId, init, time, BinaryOutput) + f(propertyId + |init|, bodies[|bodies| - 1]);
    VariableRecordsLength(propertyId, init, time);
    if k < |init| {
      VariableRecordsAt(propertyId, init, time, k);
      assert init[k] == bodies[k];
    }
  }

  lemma {:induction false} VariableRecordsLength(propertyId: int, bodies: seq<Body>, time: real)
    ensures |VariableRecords(propertyId, bodies, time, BinaryOutput)| == 6 * |bodies|
    decreases |bodies|
  {
    if bodies != [] {
      VariableRecordsLength(propertyId, bodies[..|bodies| - 1], time);
    }
  }

  /** The composition records of the first j bodies begin the composition records of all
      of them. */
  lemma {:induction false} CompositionsPrefix(p0: int, c0: int, bodies: seq<Body>, j: nat, t: OutputType)
    requires j <= |bodies|
    ensures BodiesCompositions(p0, c0, bodies[..j], t) <= BodiesCompositions(p0, c0, bodies, t)
    decreases |bodies| - j
  {
    if j < |bodies| {
      CompositionsPrefix(p0, c0, bodies, j + 1, t);
      CompositionsStep(bodies, j, t, p0, c0);
    } else {
      assert bodies[..j] == bodies;
    }
  }

  /** In the binary composition file of a SaveBodyProperties call, the records between
      the end of body k - 1's and the end of body k's read back as body k's components,
      all owned by the property id body k got and numbered on from the components of the
      bodies before it. */
  lemma CompositionsOfBody(p0: int, c0: int, bodies: seq<Body>, k: nat)
    requires k < |bodies| && PlainNames(ComponentsOf(bodies[k]))
    ensures var all := BodiesCompositions(p0, c0, bodies, BinaryOutput);
      var start := |BodiesCompositions(p0, c0, bodies[..k], BinaryOutput)|;
      var end := |BodiesCompositions(p0, c0, bodies[..k + 1], BinaryOutput)|;
      var cs := ComponentsOf(bodies[k]);
      start <= end <= |all| &&
      var d := DecodeCompositions(all[start..end]);
      d.Some? && |d.value| == |cs| &&
      forall j :: 0 <= j < |cs| ==>
        d.value[j] == CompositionEntry(c0 + ComponentCount(bodies[..k]) + j, p0 + k, cs[j].name, cs[j].ratio)
  {
    var all := BodiesCompositions(p0, c0, bodies, BinaryOutput);
    var before := BodiesCompositions(p0, c0, bodies[..k], BinaryOutput);
    var cs := ComponentsOf(bodies[k]);
    var mine := CompositionRecords(c0 + ComponentCount(bodies[..k]), p0 + k, cs, BinaryOutput);
    var upTo := BodiesCompositions(p0, c0, bodies[..k + 1], BinaryOutput);
    CompositionsStep(bodies, k, BinaryOutput, p0, c0);
    CompositionsPrefix(p0, c0, bodies, k + 1, BinaryOutput);
    MiddleOfPrefix(all, before, mine, upTo);
    DecodeSlice(all, |before|, |upTo|, c0 + ComponentCount(bodies[..k]), p0 + k, cs);
  }

  lemma DecodeSlice(all: seq<Item>, start: nat, end: nat, compositionId: int, propertyId: int, cs: seq<Component>)
    requires PlainNames(cs) && start <= end <= |all|
    requires all[start..end] == CompositionRecords(compositionId, propertyId, cs, BinaryOutput)
    ensures var d := DecodeCompositions(all[start..end]);
      d.Some? && |d.value| == |cs| &&
      forall j :: 0 <= j < |cs| ==> d.value[j] == CompositionEntry(compositionId + j, propertyId, cs[j].name, cs[j].ratio)
  {
    CompositionsRoundTrip(compositionId, propertyId, cs);
  }

  lemma MiddleOfPrefix(all: seq<Item>, before: seq<Item>, mine: seq<Item>, upTo: seq<Item>)
    requires upTo == before + mine && upTo <= all
    ensures |before| <= |upTo| <= |all| && all[|before|..|upTo|] == mine
  {
    assert all[..|upTo|] == upTo;
  }
}
