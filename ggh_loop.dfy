/**
 * The event loop of lhe2rootggH.py (lhe2rootggH.py:180-372): for every event
 * of every input file it picks the process tag, asks the engine for the
 * pseudoscalar probability `pg4`, skips the event when both `pg1` and `pg4`
 * hold 0, and otherwise fills the angles, the Higgs and daughter momenta,
 * the daughter ids and the weight (or, for ggH4lMG, the 30-slot weights
 * array) into one tree entry. There is no cap on the number of events.
 *
 * Two modes never fill an entry as the script is written: ggH4l reads the
 * coupling `g4`, which only the other modes bind (lhe2rootggH.py:169-176,
 * 269), and zh/wh write `mV`, whose declaration is commented out
 * (lhe2rootggH.py:133-134, 284).
 */
module GgHEventLoop {
  import opened Wrappers
  import opened PyErrors
  import opened FsrMerge
  import opened Dispatch
  import opened Branches
  import opened WeightsArray
  import opened Runs
  import EventLoop

  /**
   * An event as the loop sees it: the four daughters, the event weight, the
   * named weights, and whether the engine's `computeP()` returns 0 for it.
   */
  datatype GgHEvent = GgHEvent(daughters: seq<Particle>, weight: string,
                               namedWeights: map<string, string>, pseudoscalarIsZero: bool)

  /** The branch groups the script creates (lhe2rootggH.py:132-152). */
  function Declared(mode: Mode): set<Group> {
    {ProductionAngle, HiggsJetsPz, DecayAngle}
    + (if mode == Vbf then {VbfMass} else {})
    + {PseudoscalarProbability, Probability, LegacyProbability, HiggsMomentum, HiggsJetsRapidity, Bookkeeping,
       JetMomentum, EventWeight, DaughterMomentum,
       DaughterFlavour1, DaughterFlavour2, DaughterFlavour3, DaughterFlavour4}
  }

  /** The probability call of every event: the SM hypothesis on the gluon-fusion tag, whatever `process` holds. */
  const PseudoscalarCalls: seq<Call> := [SetProcess(HSMHiggs, ZZGG), ComputeP]

  /** The angle calls of an event that is not skipped, in order. */
  function AngleCalls(mode: Mode, process: Option<Process>): seq<Call>
    requires mode in {Zh, Wh} ==> process.Some?
  {
    match mode
    case Zh | Wh => [ComputeVHAngles(process.value)]
    case Vbf => [ComputeVBFAngles, ComputeDecayAngles]
    case _ => [ComputeDecayAngles]
  }

  /** The buffers after the angle block (lhe2rootggH.py:282-295); zh/wh raise right after it. */
  function AnglesWritten(mode: Mode, m: Buffers, v: Value): Buffers {
    match mode
    case Zh | Wh => m[ProductionAngle := v]
    case Vbf => m[VbfMass := v][ProductionAngle := v][HiggsJetsPz := v][DecayAngle := v]
    case _ => m[DecayAngle := v]
  }

  /** The buffers of the entry an event fills: angles, Higgs and daughter momenta, ids and the weight. */
  function EntryScalars(mode: Mode, m: Buffers, v: Value, daughters: seq<Particle>, weight: string): Buffers
    requires |daughters| >= 4
  {
    var momenta := EventLoop.WithDaughters(AnglesWritten(mode, m, v)[HiggsMomentum := v], v, daughters);
    if mode == GgH4lMG then momenta else momenta[EventWeight := Number(weight)]
  }

  /** What one event does to the converter's state, or the error it raises. */
  ghost function Step(mode: Mode, s: ConverterState, ev: GgHEvent): Result<ConverterState, Error>
    requires IsGgHScriptMode(mode)
  {
    var process := GgHProcess(mode, s.process);
    var calls := s.calls + PseudoscalarCalls;
    var pg4 := if ev.pseudoscalarIsZero then Initial else Computed(|s.rows|);
    var scalars := s.scalars[PseudoscalarProbability := pg4];
    if mode == GgH4l then Err(UnboundCoupling)
    // `branches["pg1"]` is always declared, so this KeyError of line 273 never fires
    else if Probability !in scalars then Err(MissingKey("pg1"))
    else if scalars[Probability] == Initial && pg4 == Initial then
      Ok(ConverterState(process, scalars, s.slots, calls, s.rows))
    else if mode in {Zh, Wh} then Err(MissingKey("mV"))
    else if |ev.daughters| < 4 then Err(IndexOutOfRange(|ev.daughters|, |ev.daughters|))
    else
      var written := EntryScalars(mode, scalars, Computed(|s.rows|), ev.daughters, ev.weight);
      var slots := if mode == GgH4lMG then AfterFill(s.slots, ev.namedWeights) else Ok(s.slots);
      if slots.Err? then Err(slots.error)
      else Ok(ConverterState(process, written, slots.value, calls + AngleCalls(mode, process),
                             s.rows + [Row(written, slots.value)]))
  }

  /** `step` is `Step` of this mode, at every state and event. */
  ghost predicate ModelStep(mode: Mode, step: StepFunction<GgHEvent>) {
    && IsGgHScriptMode(mode)
    && forall s, ev {:trigger Step(mode, s, ev)} :: step(s, ev) == Step(mode, s, ev)
  }

  // ---------------------------------------------------------------------------
  // What stays true from event to event
  // ---------------------------------------------------------------------------

  /**
   * The buffers and every filled entry hold exactly the declared groups, and
   * `pg1` holds the 0 it was created with: the script never computes it.
   */
  ghost predicate HoldsDeclared(mode: Mode, s: ConverterState) {
    && s.scalars.Keys == Declared(mode)
    && s.scalars[Probability] == Initial
    && forall k | 0 <= k < |s.rows| :: s.rows[k].scalars.Keys == Declared(mode) && s.rows[k].scalars[Probability] == Initial
  }

  /** The entry an event fills writes only declared groups, so it neither adds nor drops one. */
  lemma EntryKeepsGroups(mode: Mode, m: Buffers, v: Value, daughters: seq<Particle>, weight: string)
    requires mode in {Vbf, GgH4lMG} && |daughters| >= 4
    requires m.Keys == Declared(mode)
    ensures EntryScalars(mode, m, v, daughters, weight).Keys == m.Keys
  {
    assert ProductionAngle in m && HiggsJetsPz in m && DecayAngle in m && HiggsMomentum in m;
    assert DaughterMomentum in m && EventWeight in m;
    assert DaughterFlavour1 in m && DaughterFlavour2 in m && DaughterFlavour3 in m && DaughterFlavour4 in m;
    if mode == Vbf {
      assert VbfMass in m;
    }
  }

  /**
   * What the entry holds: the decay angles and the Higgs momentum computed by
   * the event, the daughters' ids, and the weight unless the mode writes the
   * weights array; `pg1` and `pg4` keep what they held.
   */
  lemma EntryValues(mode: Mode, m: Buffers, v: Value, daughters: seq<Particle>, weight: string)
    requires mode in {Vbf, GgH4lMG} && |daughters| >= 4
    requires Probability in m && PseudoscalarProbability in m && EventWeight in m
    ensures var after := EntryScalars(mode, m, v, daughters, weight);
      && after[DecayAngle] == v && after[HiggsMomentum] == v
      && after[Probability] == m[Probability]
      && after[PseudoscalarProbability] == m[PseudoscalarProbability]
      && after[DaughterFlavour1] == Flavour(daughters[0].id)
      && after[DaughterFlavour2] == Flavour(daughters[1].id)
      && after[DaughterFlavour3] == Flavour(daughters[2].id)
      && after[DaughterFlavour4] == Flavour(daughters[3].id)
      && after[EventWeight] == (if mode == GgH4lMG then m[EventWeight] else Number(weight))
  {
  }

  /** An event that raises nothing neither adds nor drops a branch, and leaves `pg1` at 0. */
  lemma StepHoldsDeclared(mode: Mode, s: ConverterState, ev: GgHEvent)
    requires IsGgHScriptMode(mode)
    requires HoldsDeclared(mode, s)
    requires Step(mode, s, ev).Ok?
    ensures HoldsDeclared(mode, Step(mode, s, ev).value)
  {
    var r := Step(mode, s, ev).value;
    SkipIff(mode, s, ev);
    if !ev.pseudoscalarIsZero {
      assert mode in {Vbf, GgH4lMG};
      StepFillsEntry(mode, s, ev);
      var v := Computed(|s.rows|);
      EntryKeepsGroups(mode, s.scalars[PseudoscalarProbability := v], v, ev.daughters, ev.weight);
      EntryValues(mode, s.scalars[PseudoscalarProbability := v], v, ev.daughters, ev.weight);
    }
    AppendHoldsDeclared(mode, s, r);
  }

  /** A state whose buffers hold the declared groups, with at most the buffers appended as an entry. */
  lemma AppendHoldsDeclared(mode: Mode, s: ConverterState, r: ConverterState)
    requires HoldsDeclared(mode, s)
    requires r.scalars.Keys == Declared(mode) && r.scalars[Probability] == Initial
    requires r.rows == s.rows || r.rows == s.rows + [Row(r.scalars, r.slots)]
    ensures HoldsDeclared(mode, r)
  {
  }

  /** A file that raises nothing keeps the buffers and all entries as `HoldsDeclared` says. */
  lemma {:induction false} RunHoldsDeclared(mode: Mode, s: ConverterState, step: StepFunction<GgHEvent>, events: seq<GgHEvent>)
    requires ModelStep(mode, step)
    requires HoldsDeclared(mode, s)
    requires Run(step, s, events).Ok?
    ensures HoldsDeclared(mode, Run(step, s, events).value)
    decreases |events|
  {
    if events != [] {
      var front := events[..|events| - 1];
      RunHoldsDeclared(mode, s, step, front);
      StepHoldsDeclared(mode, Run(step, s, front).value, events[|events| - 1]);
    }
  }

  /** The same over all input files: `pg1` is 0 in every entry the tree ever gets. */
  lemma {:induction false} RunFilesHoldsDeclared(mode: Mode, s: ConverterState, step: StepFunction<GgHEvent>,
                                                 files: seq<seq<GgHEvent>>)
    requires ModelStep(mode, step)
    requires HoldsDeclared(mode, s)
    requires RunFiles(step, None, s, files).Ok?
    ensures HoldsDeclared(mode, RunFiles(step, None, s, files).value)
    decreases |files|
  {
    if files != [] {
      var front := files[..|files| - 1];
      var last := files[|files| - 1];
      assert last[..Taken(None, |last|)] == last;
      RunFilesHoldsDeclared(mode, s, step, front);
      RunHoldsDeclared(mode, RunFiles(step, None, s, front).value, step, last);
    }
  }

  // ---------------------------------------------------------------------------
  // What one event does
  // ---------------------------------------------------------------------------

  /**
   * Since `pg1` is never computed, an event is skipped exactly when the
   * engine's `pg4` is 0; a skipped event still makes the probability call and
   * leaves `pg4` at 0, and fills nothing.
   */
  lemma SkipIff(mode: Mode, s: ConverterState, ev: GgHEvent)
    requires mode in {Zh, Wh, Vbf, GgH4lMG}
    requires HoldsDeclared(mode, s)
    ensures (Step(mode, s, ev).Ok? && Step(mode, s, ev).value.rows == s.rows) <==> ev.pseudoscalarIsZero
    ensures ev.pseudoscalarIsZero ==>
      Step(mode, s, ev) == Ok(ConverterState(GgHProcess(mode, s.process), s.scalars[PseudoscalarProbability := Initial],
                                             s.slots, s.calls + PseudoscalarCalls, s.rows))
  {
  }

  /** In ggH4l mode every event raises NameError for `g4`, skipped or not. */
  lemma StepGgH4lRaises(s: ConverterState, ev: GgHEvent)
    ensures Step(GgH4l, s, ev) == Err(UnboundCoupling)
  {
  }

  /** So a ggH4l run of a file with any event at all raises at its first event. */
  lemma {:induction false} RunGgH4lRaises(s: ConverterState, step: StepFunction<GgHEvent>, events: seq<GgHEvent>)
    requires ModelStep(GgH4l, step)
    requires events != []
    ensures Run(step, s, events) == Err(UnboundCoupling)
    decreases |events|
  {
    var front := events[..|events| - 1];
    if front != [] {
      RunGgH4lRaises(s, step, front);
    } else {
      StepGgH4lRaises(s, events[0]);
    }
  }

  /**
   * In zh and wh mode an event raises KeyError for `mV` exactly when it is not
   * skipped, so these modes never fill an entry.
   */
  lemma VhStepIff(mode: Mode, s: ConverterState, ev: GgHEvent)
    requires mode in {Zh, Wh}
    requires HoldsDeclared(mode, s)
    ensures Step(mode, s, ev) == Err(MissingKey("mV")) <==> !ev.pseudoscalarIsZero
    ensures Step(mode, s, ev).Ok? ==> Step(mode, s, ev).value.rows == s.rows
  {
  }

  /** A zh or wh file that raises nothing leaves the tree as it was. */
  lemma {:induction false} RunVhFillsNothing(mode: Mode, s: ConverterState, step: StepFunction<GgHEvent>, events: seq<GgHEvent>)
    requires mode in {Zh, Wh} && ModelStep(mode, step)
    requires HoldsDeclared(mode, s)
    requires Run(step, s, events).Ok?
    ensures Run(step, s, events).value.rows == s.rows
    decreases |events|
  {
    if events != [] {
      var front := events[..|events| - 1];
      RunVhFillsNothing(mode, s, step, front);
      RunHoldsDeclared(mode, s, step, front);
      VhStepIff(mode, Run(step, s, front).value, events[|events| - 1]);
    }
  }

  /**
   * In vbf and ggH4lMG mode an event that is not skipped raises exactly when
   * it has fewer than four daughters, or, for ggH4lMG, more named weights
   * than the array has slots.
   */
  lemma StepFailsIff(mode: Mode, s: ConverterState, ev: GgHEvent)
    requires mode in {Vbf, GgH4lMG}
    requires HoldsDeclared(mode, s) && |s.slots| == SlotCount
    requires !ev.pseudoscalarIsZero
    ensures Step(mode, s, ev).Err? <==>
      |ev.daughters| < 4 || (mode == GgH4lMG && |ev.namedWeights| > SlotCount)
  {
    FillFailsIffTooMany(s.slots, ev.namedWeights);
  }

  /**
   * An event that is not skipped and raises nothing fills exactly one entry,
   * holding the buffers `EntryScalars` gives for a `pg4` computed by that
   * event (see `EntryValues`), and the weights array the sorted fill gives
   * in ggH4lMG mode; the engine calls are the probability call and the
   * angle calls of the mode.
   */
  lemma StepFillsEntry(mode: Mode, s: ConverterState, ev: GgHEvent)
    requires mode in {Vbf, GgH4lMG}
    requires HoldsDeclared(mode, s)
    requires !ev.pseudoscalarIsZero && Step(mode, s, ev).Ok?
    ensures |ev.daughters| >= 4
    ensures var r := Step(mode, s, ev).value;
      && r.rows == s.rows + [Row(r.scalars, r.slots)]
      && r.process == GgHProcess(mode, s.process)
      && r.calls == s.calls + PseudoscalarCalls + AngleCalls(mode, r.process)
      && (mode == Vbf ==> r.slots == s.slots)
      && (mode == GgH4lMG ==> AfterFill(s.slots, ev.namedWeights) == Ok(r.slots))
    ensures var v := Computed(|s.rows|);
      Step(mode, s, ev).value.scalars == EntryScalars(mode, s.scalars[PseudoscalarProbability := v], v, ev.daughters, ev.weight)
  {
  }

  /** `process` is never assigned in ggH4lMG mode: a run keeps what it started with. */
  lemma {:induction false} RunKeepsProcess(s: ConverterState, step: StepFunction<GgHEvent>, events: seq<GgHEvent>)
    requires ModelStep(GgH4lMG, step)
    requires Run(step, s, events).Ok?
    ensures Run(step, s, events).value.process == s.process
    decreases |events|
  {
    if events != [] {
      var front := events[..|events| - 1];
      RunKeepsProcess(s, step, front);
      assert Step(GgH4lMG, Run(step, s, front).value, events[|events| - 1]).Ok?;
    }
  }

  // ---------------------------------------------------------------------------
  // The converter
  // ---------------------------------------------------------------------------

  /** The state the event loop of lhe2rootggH.py keeps across events and files. */
  class GgHConverter {
    const mode: Mode
    var process: Option<Process>
    /** `branches`: the scalar buffers, one per declared group. */
    var scalars: Buffers
    /** `branches["weights"]`, the 30-slot float array of a ggH4lMG run. */
    const weightSlots: array<Value>
    var calls: seq<Call>
    var rows: seq<Row>
    /** `Step` of this mode, as a value the runs fold over the events. */
    ghost const step: StepFunction<GgHEvent>

    ghost predicate Valid()
      reads this
    {
      weightSlots.Length == SlotCount && ModelStep(mode, step)
    }

    ghost function Current(): ConverterState
      reads this, weightSlots
    {
      ConverterState(process, scalars, weightSlots[..], calls, rows)
    }

    /** The buffers as created, before the first event: every branch holds 0 and `process` is unbound. */
    constructor(mode: Mode)
      requires IsGgHScriptMode(mode)
      ensures Valid() && this.mode == mode
      ensures HoldsDeclared(mode, Current())
      ensures process == None && calls == [] && rows == []
      ensures forall g | g in scalars :: scalars[g] == Initial
      ensures forall j | 0 <= j < weightSlots.Length :: weightSlots[j] == Initial
    {
      this.mode := mode;
      step := (s, ev) => Step(mode, s, ev);
      process := None;
      scalars := map g | g in Declared(mode) :: Initial;
      weightSlots := new Value[SlotCount](_ => Initial);
      calls := [];
      rows := [];
    }

    /** `for inputfile in args.inputfile`: every input file in turn, into the same tree. */
    method ConvertFiles(files: seq<seq<GgHEvent>>) returns (failure: Option<Error>)
      requires Valid()
      modifies this, weightSlots
      ensures failure.None? ==> Valid() && RunFiles(step, None, old(Current()), files) == Ok(Current())
      ensures failure.Some? ==> RunFiles(step, None, old(Current()), files) == Err(failure.value)
    {
      ghost var start := Current();
      for n := 0 to |files|
        invariant Valid()
        invariant RunFiles(step, None, start, files[..n]) == Ok(Current())
      {
        assert files[..n + 1][..n] == files[..n];
        assert files[n][..Taken(None, |files[n]|)] == files[n];
        failure := ConvertFile(files[n]);
        if failure.Some? {
          RunFilesKeepsError(step, None, start, files, n + 1);
          return;
        }
        if n == 0 && files[0] == [] {
          failure := Some(UnboundEventIndex);
          RunFilesKeepsError(step, None, start, files, 1);
          return;
        }
      }
      assert files[..|files|] == files;
      return None;
    }

    /** `for i, event in enumerate(f)`: every event of one file, in order. */
    method ConvertFile(events: seq<GgHEvent>) returns (failure: Option<Error>)
      requires Valid()
      modifies this, weightSlots
      ensures failure.None? ==> Valid() && Run(step, old(Current()), events) == Ok(Current())
      ensures failure.Some? ==> Run(step, old(Current()), events) == Err(failure.value)
    {
      ghost var start := Current();
      for i := 0 to |events|
        invariant Valid()
        invariant Run(step, start, events[..i]) == Ok(Current())
      {
        RunAppends(step, start, events, i);
        failure := ProcessEvent(events[i]);
        if failure.Some? {
          RunKeepsError(step, start, events, i + 1);
          return;
        }
      }
      assert events[..|events|] == events;
      return None;
    }

    /** One iteration of the loop over the events of a file. */
    method ProcessEvent(ev: GgHEvent) returns (failure: Option<Error>)
      requires Valid()
      modifies this, weightSlots
      ensures failure.None? ==> Valid() && step(old(Current()), ev) == Ok(Current())
      ensures failure.Some? ==> step(old(Current()), ev) == Err(failure.value)
    {
      ghost var start := Current();
      assert step(start, ev) == Step(mode, start, ev);
      process := GgHProcess(mode, process);
      calls := calls + PseudoscalarCalls;
      var pg4 := if ev.pseudoscalarIsZero then Initial else Computed(|rows|);
      scalars := scalars[PseudoscalarProbability := pg4];
      if mode == GgH4l {
        return Some(UnboundCoupling);
      }
      // never taken: `pg1` is always declared (see HoldsDeclared)
      if Probability !in scalars {
        return Some(MissingKey("pg1"));
      }
      // `pg1 == pg4 == 0`
      if scalars[Probability] == Initial && pg4 == Initial {
        return None;
      }
      var v := Computed(|rows|);
      failure := WriteAngles(v);
      if failure.Some? {
        return;
      }
      failure := WriteMomenta(ev.daughters, v);
      if failure.Some? {
        return;
      }
      ghost var written := EntryScalars(mode, start.scalars[PseudoscalarProbability := pg4], v, ev.daughters, ev.weight);
      assert weightSlots[..] == start.slots;
      failure := FillEntry(ev);
      assert failure.None? ==> scalars == written;
    }

    /** The angle block of the mode: the engine calls and the branches they fill. */
    method WriteAngles(v: Value) returns (failure: Option<Error>)
      requires mode in {Zh, Wh} ==> process.Some?
      modifies this
      ensures rows == old(rows) && process == old(process)
      ensures failure == (if mode in {Zh, Wh} then Some(MissingKey("mV")) else None)
      ensures calls == old(calls) + AngleCalls(mode, process)
      ensures failure.None? ==> scalars == AnglesWritten(mode, old(scalars), v)
    {
      match mode {
        case Zh | Wh =>
          calls := calls + [ComputeVHAngles(process.value)];
          scalars := scalars[ProductionAngle := v];
          return Some(MissingKey("mV"));
        case Vbf =>
          calls := calls + [ComputeVBFAngles];
          scalars := scalars[VbfMass := v][ProductionAngle := v];
          scalars := scalars[HiggsJetsPz := v];
          calls := calls + [ComputeDecayAngles];
          scalars := scalars[DecayAngle := v];
        case _ =>
          calls := calls + [ComputeDecayAngles];
          scalars := scalars[DecayAngle := v];
      }
      return None;
    }

    /** The Higgs candidate's momentum, then each daughter's momentum and id. */
    method WriteMomenta(daughters: seq<Particle>, v: Value) returns (failure: Option<Error>)
      modifies this
      ensures rows == old(rows) && process == old(process) && calls == old(calls)
      ensures failure == (if |daughters| < 4 then Some(IndexOutOfRange(|daughters|, |daughters|)) else None)
      ensures failure.None? ==> scalars == EventLoop.WithDaughters(old(scalars)[HiggsMomentum := v], v, daughters)
    {
      scalars := scalars[HiggsMomentum := v];
      if |daughters| < 4 {
        return Some(IndexOutOfRange(|daughters|, |daughters|));
      }
      scalars := scalars[DaughterMomentum := v];
      scalars := scalars[DaughterFlavour1 := Flavour(daughters[0].id)][DaughterFlavour2 := Flavour(daughters[1].id)];
      scalars := scalars[DaughterFlavour3 := Flavour(daughters[2].id)][DaughterFlavour4 := Flavour(daughters[3].id)];
      return None;
    }

    /** The weights array (ggH4lMG) or the weight, then `t.Fill()`. */
    method FillEntry(ev: GgHEvent) returns (failure: Option<Error>)
      modifies this, weightSlots
      ensures process == old(process) && calls == old(calls)
      ensures var slots := if mode == GgH4lMG then AfterFill(old(weightSlots[..]), ev.namedWeights)
                           else Ok(old(weightSlots[..]));
        && (failure.Some? ==> slots == Err(failure.value))
        && (failure.None? ==> slots == Ok(weightSlots[..]))
      ensures failure.None? ==>
        scalars == (if mode == GgH4lMG then old(scalars) else old(scalars)[EventWeight := Number(ev.weight)])
      ensures failure.None? ==> rows == old(rows) + [Row(scalars, weightSlots[..])]
    {
      if mode == GgH4lMG {
        failure := FillWeights(weightSlots, ev.namedWeights);
        if failure.Some? {
          return;
        }
      } else {
        scalars := scalars[EventWeight := Number(ev.weight)];
      }
      rows := rows + [Row(scalars, weightSlots[..])];
      return None;
    }
  }
}
