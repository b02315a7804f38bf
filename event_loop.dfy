/**
 * The event loop of lhe2root.py: for every event of every input file it
 * picks the process tag, merges FSR photons, asks the engine for
 * probabilities and angles, copies momenta and ids into the branch buffers
 * and fills one tree entry (lhe2root.py:146-189, 199-589).
 *
 * The buffers are shared by all events and never reset, so a branch an
 * event does not write keeps the value of an earlier event.
 */
module EventLoop {
  import opened Wrappers
  import opened PyErrors
  import opened FsrMerge
  import opened Dispatch
  import opened Branches
  import opened WeightsArray
  import opened Runs
  import opened Discriminants

  /**
   * An event as the LHE reader hands it over: collections, the event weight
   * and the named weights, with the engine's probabilities for it.
   */
  datatype Event = Event(daughters: seq<Particle>, associated: seq<Particle>,
                         centralWeight: string, namedWeights: map<string, string>,
                         engine: EngineResults)

  /** The command-line switches that change what an event does. */
  datatype Options = Options(mode: Mode, mergePhoton: bool, calcProdProb: bool, calcDecayProb: bool)

  /** `if i > 10000: break`: the largest index of an event that is still processed. */
  const LastEventIndex: nat := 10000

  /** At most `LastEventIndex + 1` events of each file are processed. */
  const EventCap: Option<nat> := Some(LastEventIndex + 1)

  // ---------------------------------------------------------------------------
  // The mode table
  // ---------------------------------------------------------------------------

  /** The modes whose engine call is `computeVHAngles(process)`. */
  predicate IsVhMode(mode: Mode) {
    mode in {Zh, Wh, ZhWithDecay, WhWithDecay, ZhLep, WhLep, ZhLepHawk}
  }

  /** The modes that copy the four daughters into `*dau1` .. `*dau4`. */
  predicate WritesDaughters(mode: Mode) {
    mode !in {Vbf, Zh, Wh, ZhLep, WhLep, ZhLepHawk}
  }

  /** The modes that copy the two leading associated particles into `*j1`, `*j2`. */
  predicate WritesJets(mode: Mode) {
    mode in {Vbf, Zh, Wh, ZhLepHawk}
  }

  /** The branch groups a run creates (lhe2root.py:149-176). */
  function Declared(opts: Options): set<Group> {
    {ProductionAngle, HiggsJetsPz, DecayAngle}
    + (if opts.calcProdProb || opts.calcDecayProb
       then {PseudoscalarProbability, Probability, ScalarProbability, ZGammaProbability} else {})
    + (if IsVhMode(opts.mode) then {VMass, JetMomentum} else {})
    + (if opts.mode in {Vbf, VbfWithDecay} then {VbfMass, JetAzimuth} else {})
    + {HiggsMomentum, HiggsJetsRapidity, Bookkeeping, JetMomentum, PhotonMomentum, EventWeight,
       DaughterMomentum, DaughterFlavour1, DaughterFlavour2, DaughterFlavour3, DaughterFlavour4}
  }

  /** The branch groups the engine's angle calls and the vbf jet sums fill. */
  function RoutedAngles(mode: Mode): set<Group> {
    match mode
    case Zh | Wh | ZhLep | WhLep | ZhLepHawk => {VMass, ProductionAngle}
    case ZhWithDecay | WhWithDecay => {VMass, ProductionAngle, DecayAngle}
    case Vbf => {VbfMass, ProductionAngle, HiggsJetsPz, JetAzimuth}
    case VbfWithDecay => {VbfMass, ProductionAngle, HiggsJetsPz, DecayAngle}
    case GgH4l | GgH4lMG => {DecayAngle}
  }

  /** The angle calls an event makes, in order. */
  function AngleCalls(mode: Mode, process: Option<Process>): seq<Call>
    requires IsVhMode(mode) ==> process.Some?
  {
    match mode
    case Zh | Wh | ZhLep | WhLep | ZhLepHawk => [ComputeVHAngles(process.value)]
    case ZhWithDecay | WhWithDecay => [ComputeVHAngles(process.value), ComputeDecayAngles]
    case Vbf => [ComputeVBFAngles]
    case VbfWithDecay => [ComputeVBFAngles, ComputeDecayAngles]
    case GgH4l | GgH4lMG => [ComputeDecayAngles]
  }

  /** The five couplings of one probability block, each set up with `setProcess` and evaluated. */
  function ProbabilityCalls(compute: Call, process: Process): seq<Call> {
    [SetProcess(SelfDefineSpin0, process), compute,
     SetProcess(HSMHiggs, process), compute,
     SetProcess(SelfDefineSpin0, process), compute,
     SetProcess(SelfDefineSpin0, process), compute,
     SetProcess(SelfDefineSpin0, process), compute]
  }

  /** The groups each probability block writes. */
  const ProbabilityOutputs: set<Group> := {PseudoscalarProbability, Probability, ScalarProbability}

  /** The groups the momentum copies fill, given how many associated particles remain after the merge. */
  function MomentumGroups(mode: Mode, associatedCount: nat): set<Group> {
    HeadGroups(mode, associatedCount) + (if WritesJets(mode) then {JetMomentum, HiggsJetsRapidity} else {})
  }

  /**
   * Every branch group an event computes a float for, given how many
   * associated particles it has after the merge.
   */
  function Computes(opts: Options, associatedCount: nat): set<Group> {
    (if opts.calcProdProb || opts.calcDecayProb then ProbabilityOutputs else {})
    + RoutedAngles(opts.mode)
    + MomentumGroups(opts.mode, associatedCount)
  }

  /** The groups an event copies an id or a weight text into. */
  function Copies(opts: Options): set<Group> {
    FlavourCopies(opts.mode) + (if opts.mode != GgH4lMG then {EventWeight} else {})
  }

  /** Every branch an event writes was declared, so no event raises KeyError. */
  lemma WritesAreDeclared(opts: Options, associatedCount: nat)
    ensures Computes(opts, associatedCount) + Copies(opts) <= Declared(opts)
  {
    match opts.mode {
      case Vbf | VbfWithDecay =>
      case Zh | Wh | ZhLep | WhLep | ZhLepHawk =>
      case ZhWithDecay | WhWithDecay =>
      case GgH4l | GgH4lMG =>
    }
  }

  /**
   * The bookkeeping branches, and the z-gamma probabilities when declared,
   * keep the 0 they were created with: no event writes them.
   */
  lemma NeverWritten(opts: Options, associatedCount: nat)
    ensures Bookkeeping in Declared(opts)
    ensures Bookkeeping !in Computes(opts, associatedCount) && Bookkeeping !in Copies(opts)
    ensures opts.calcProdProb || opts.calcDecayProb ==> ZGammaProbability in Declared(opts)
    ensures ZGammaProbability !in Computes(opts, associatedCount) && ZGammaProbability !in Copies(opts)
  {
    NotRoutedNorCopied(opts.mode, associatedCount, Bookkeeping);
    NotRoutedNorCopied(opts.mode, associatedCount, ZGammaProbability);
  }

  /** Neither the angle block nor the momentum and id copies touch the bookkeeping or z-gamma groups. */
  lemma NotRoutedNorCopied(mode: Mode, associatedCount: nat, g: Group)
    requires g == Bookkeeping || g == ZGammaProbability
    ensures g !in RoutedAngles(mode) && g !in MomentumGroups(mode, associatedCount) && g !in FlavourCopies(mode)
  {
  }

  // ---------------------------------------------------------------------------
  // One event, as a function of the state it starts from
  // ---------------------------------------------------------------------------

  /** The collections after the FSR merge of the mode, or the error it raises. */
  function Merged(opts: Options, dr: (FourVector, FourVector) -> real, ev: Event): Result<(seq<Particle>, seq<Particle>), Error> {
    var associated := if opts.mode == ZhLepHawk then HawkFrom(ev.associated, 0, dr) else Ok(ev.associated);
    if associated.Err? then Err(associated.error)
    else
      var daughters :=
        if opts.mergePhoton && opts.mode == GgH4l
        then ProphecyPrefix(ev.daughters, associated.value, |associated.value|, dr)
        else Ok(ev.daughters);
      if daughters.Err? then Err(daughters.error) else Ok((daughters.value, associated.value))
  }

  /** `process` as the probability and angle blocks see it. */
  function ProcessAfterDecay(opts: Options, process: Option<Process>): Option<Process> {
    if opts.calcDecayProb then Some(ZZINDEPENDENT) else process
  }

  /**
   * The first error of the probability blocks: a discriminant of the decay
   * block, the NameError of the production block when `process` was never
   * bound, or a discriminant of the production block.
   */
  function ProbabilityFailure(opts: Options, process: Option<Process>, engine: EngineResults): Option<Error> {
    var decay := DiscriminantFailure(DecayConstants, engine.decay);
    if opts.calcDecayProb && decay.Some? then decay
    else if !opts.calcProdProb then None
    else if process.None? then Some(UndefinedProcess)
    else DiscriminantFailure(ProductionConstants(process.value), engine.production)
  }

  /** The errors the angle block raises: an unbound `process`, or `associated[1]` of a short list. */
  function AngleFailure(mode: Mode, process: Option<Process>, associated: seq<Particle>): Option<Error> {
    if IsVhMode(mode) && process.None? then Some(UndefinedProcess)
    else if mode == Vbf && |associated| < 2 then Some(IndexOutOfRange(|associated|, |associated|))
    else None
  }

  /** The IndexErrors of the momentum copies: `daughters[3]` or `associated[1]` of a short list. */
  function MomentumFailure(mode: Mode, daughters: seq<Particle>, associated: seq<Particle>): Option<Error> {
    if WritesDaughters(mode) && |daughters| < 4 then Some(IndexOutOfRange(|daughters|, |daughters|))
    else if WritesJets(mode) && |associated| < 2 then Some(IndexOutOfRange(|associated|, |associated|))
    else None
  }

  /** The first error raised after the merge, in statement order. */
  function RoutingFailure(opts: Options, process: Option<Process>, engine: EngineResults,
                          daughters: seq<Particle>, associated: seq<Particle>): Option<Error> {
    var probability := ProbabilityFailure(opts, process, engine);
    var angle := AngleFailure(opts.mode, process, associated);
    if probability.Some? then probability
    else if angle.Some? then angle
    else MomentumFailure(opts.mode, daughters, associated)
  }

  /** The engine calls of the probability blocks, in order. */
  function ProbabilityEngineCalls(opts: Options, process: Option<Process>): seq<Call>
    requires opts.calcProdProb ==> process.Some?
  {
    (if opts.calcDecayProb then ProbabilityCalls(ComputeP, ZZINDEPENDENT) else [])
    + (if opts.calcProdProb then ProbabilityCalls(ComputeProdP, process.value) else [])
  }

  /** The engine calls of an event that raises nothing, in order. */
  function EngineCalls(opts: Options, process: Option<Process>): seq<Call>
    requires opts.calcProdProb || IsVhMode(opts.mode) ==> process.Some?
  {
    ProbabilityEngineCalls(opts, process) + AngleCalls(opts.mode, process)
  }

  /** The nine outputs of one probability block. */
  function WithProbabilities(m: Buffers, v: Value): Buffers {
    m[Probability := v][PseudoscalarProbability := v][ScalarProbability := v]
  }

  /** The buffers after the decay and production probability blocks (lhe2root.py:331-456). */
  function ProbabilitiesWritten(opts: Options, m: Buffers, v: Value): Buffers {
    var m1 := if opts.calcDecayProb then WithProbabilities(m, v) else m;
    if opts.calcProdProb then WithProbabilities(m1, v) else m1
  }

  /** The buffers after the angle block of the mode (lhe2root.py:474-498). */
  function AnglesWritten(mode: Mode, m: Buffers, v: Value): Buffers {
    match mode
    case Zh | Wh | ZhLep | WhLep | ZhLepHawk => m[VMass := v][ProductionAngle := v]
    case ZhWithDecay | WhWithDecay => m[VMass := v][ProductionAngle := v][DecayAngle := v]
    case Vbf => m[VbfMass := v][ProductionAngle := v][HiggsJetsPz := v][JetAzimuth := v]
    case VbfWithDecay => m[VbfMass := v][ProductionAngle := v][HiggsJetsPz := v][DecayAngle := v]
    case GgH4l | GgH4lMG => m[DecayAngle := v]
  }

  /** The four daughters' momenta and ids (lhe2root.py:518-551). */
  function WithDaughters(m: Buffers, v: Value, daughters: seq<Particle>): Buffers
    requires |daughters| >= 4
  {
    m[DaughterMomentum := v]
     [DaughterFlavour1 := Flavour(daughters[0].id)][DaughterFlavour2 := Flavour(daughters[1].id)]
     [DaughterFlavour3 := Flavour(daughters[2].id)][DaughterFlavour4 := Flavour(daughters[3].id)]
  }

  /** The buffers after the Higgs or photon, daughter, photon and jet copies (lhe2root.py:500-576). */
  function MomentaWritten(mode: Mode, m: Buffers, v: Value, daughters: seq<Particle>, associated: seq<Particle>): Buffers
    requires WritesDaughters(mode) ==> |daughters| >= 4
  {
    var m5 := HeadWritten(mode, m, v, daughters, associated);
    var m6 := if mode == GgH4l && |associated| > 0 then m5[PhotonMomentum := v] else m5;
    if WritesJets(mode) then m6[JetMomentum := v][HiggsJetsRapidity := v] else m6
  }

  /** The branch buffers after the blocks of lhe2root.py:331-587, written in statement order. */
  function ScalarsAfter(opts: Options, m: Buffers, row: nat,
                        daughters: seq<Particle>, associated: seq<Particle>, centralWeight: string): Buffers
    requires WritesDaughters(opts.mode) ==> |daughters| >= 4
  {
    var v := Computed(row);
    var momenta := MomentaWritten(opts.mode, AnglesWritten(opts.mode, ProbabilitiesWritten(opts, m, v), v), v,
                                  daughters, associated);
    if opts.mode == GgH4lMG then momenta else momenta[EventWeight := Number(centralWeight)]
  }

  /** What one event does to the converter's state, or the error it raises. */
  ghost function Step(opts: Options, dr: (FourVector, FourVector) -> real, s: ConverterState, ev: Event): Result<ConverterState, Error> {
    var process := NextProcess(opts.mode, LastFlavour(ev.associated), s.process);
    var merged := Merged(opts, dr, ev);
    if merged.Err? then Err(merged.error)
    else
      var (daughters, associated) := merged.value;
      var process' := ProcessAfterDecay(opts, process);
      var failure := RoutingFailure(opts, process', ev.engine, daughters, associated);
      if failure.Some? then Err(failure.value)
      else
        var scalars := ScalarsAfter(opts, s.scalars, |s.rows|, daughters, associated, ev.centralWeight);
        var slots := if opts.mode == GgH4lMG then AfterFill(s.slots, ev.namedWeights) else Ok(s.slots);
        if slots.Err? then Err(slots.error)
        else
          Ok(ConverterState(process', scalars, slots.value, s.calls + EngineCalls(opts, process'),
                            s.rows + [Row(scalars, slots.value)]))
  }

  /** Once the merge succeeded, the event fails with the first routing error, if any. */
  lemma StepFailsOnRouting(opts: Options, dr: (FourVector, FourVector) -> real, s: ConverterState, ev: Event,
                           daughters: seq<Particle>, associated: seq<Particle>)
    requires Merged(opts, dr, ev) == Ok((daughters, associated))
    ensures var process := ProcessAfterDecay(opts, NextProcess(opts.mode, LastFlavour(ev.associated), s.process));
      var failure := RoutingFailure(opts, process, ev.engine, daughters, associated);
      failure.Some? ==> Step(opts, dr, s, ev) == Err(failure.value)
  {
  }

  /** Once the merge and the routing succeeded, the event ends with the weights and the fill. */
  lemma StepFillsEntry(opts: Options, dr: (FourVector, FourVector) -> real, s: ConverterState, ev: Event,
                       daughters: seq<Particle>, associated: seq<Particle>, process: Option<Process>)
    requires Merged(opts, dr, ev) == Ok((daughters, associated))
    requires process == ProcessAfterDecay(opts, NextProcess(opts.mode, LastFlavour(ev.associated), s.process))
    requires RoutingFailure(opts, process, ev.engine, daughters, associated).None?
    ensures WritesDaughters(opts.mode) ==> |daughters| >= 4
    ensures opts.calcProdProb || IsVhMode(opts.mode) ==> process.Some?
    ensures var scalars := ScalarsAfter(opts, s.scalars, |s.rows|, daughters, associated, ev.centralWeight);
      var slots := if opts.mode == GgH4lMG then AfterFill(s.slots, ev.namedWeights) else Ok(s.slots);
      Step(opts, dr, s, ev) ==
        if slots.Err? then Err(slots.error)
        else Ok(ConverterState(process, scalars, slots.value, s.calls + EngineCalls(opts, process),
                               s.rows + [Row(scalars, slots.value)]))
  {
  }

  /** The writes of an event only touch declared groups, so the buffers keep their groups. */
  lemma ScalarsAfterKeepsGroups(opts: Options, m: Buffers, row: nat,
                                daughters: seq<Particle>, associated: seq<Particle>, centralWeight: string)
    requires WritesDaughters(opts.mode) ==> |daughters| >= 4
    requires m.Keys == Declared(opts)
    ensures ScalarsAfter(opts, m, row, daughters, associated, centralWeight).Keys == Declared(opts)
  {
  }

  /** The buffers and every filled entry hold exactly the declared groups. */
  ghost predicate HoldsDeclared(opts: Options, s: ConverterState) {
    && s.scalars.Keys == Declared(opts)
    && forall k | 0 <= k < |s.rows| :: s.rows[k].scalars.Keys == Declared(opts)
  }

  /** An event that raises nothing neither adds nor drops a branch. */
  lemma StepHoldsDeclared(opts: Options, dr: (FourVector, FourVector) -> real, s: ConverterState, ev: Event)
    requires HoldsDeclared(opts, s)
    requires Step(opts, dr, s, ev).Ok?
    ensures HoldsDeclared(opts, Step(opts, dr, s, ev).value)
  {
    var (daughters, associated) := Merged(opts, dr, ev).value;
    var process := ProcessAfterDecay(opts, NextProcess(opts.mode, LastFlavour(ev.associated), s.process));
    StepFillsEntry(opts, dr, s, ev, daughters, associated, process);
    ScalarsAfterKeepsGroups(opts, s.scalars, |s.rows|, daughters, associated, ev.centralWeight);
    AppendHoldsDeclared(opts, s, Step(opts, dr, s, ev).value);
  }

  /** A state whose buffers hold the declared groups, appended to the entries of one that holds them. */
  lemma AppendHoldsDeclared(opts: Options, s: ConverterState, r: ConverterState)
    requires HoldsDeclared(opts, s)
    requires r.scalars.Keys == Declared(opts)
    requires r.rows == s.rows + [Row(r.scalars, r.slots)]
    ensures HoldsDeclared(opts, r)
  {
  }

  /** `step` is `Step` of these options, at every state and event. */
  ghost predicate ModelStep(opts: Options, dr: (FourVector, FourVector) -> real, step: StepFunction<Event>) {
    forall s, ev {:trigger Step(opts, dr, s, ev)} :: step(s, ev) == Step(opts, dr, s, ev)
  }

  /** A file that raises nothing leaves the buffers and all entries with the declared groups. */
  lemma {:induction false} RunHoldsDeclared(opts: Options, dr: (FourVector, FourVector) -> real, s: ConverterState,
                                            step: StepFunction<Event>, events: seq<Event>)
    requires ModelStep(opts, dr, step)
    requires HoldsDeclared(opts, s)
    requires Run(step, s, events).Ok?
    ensures HoldsDeclared(opts, Run(step, s, events).value)
    decreases |events|
  {
    if events != [] {
      var front := events[..|events| - 1];
      RunHoldsDeclared(opts, dr, s, step, front);
      StepHoldsDeclared(opts, dr, Run(step, s, front).value, events[|events| - 1]);
    }
  }

  /**
   * No event of any file raises KeyError: starting from the buffers as
   * created, every entry of a run that raises nothing holds exactly the
   * declared branches.
   */
  lemma {:induction false} RunFilesHoldsDeclared(opts: Options, dr: (FourVector, FourVector) -> real, s: ConverterState,
                                                 step: StepFunction<Event>, files: seq<seq<Event>>)
    requires ModelStep(opts, dr, step)
    requires HoldsDeclared(opts, s)
    requires RunFiles(step, EventCap, s, files).Ok?
    ensures HoldsDeclared(opts, RunFiles(step, EventCap, s, files).value)
    decreases |files|
  {
    if files != [] {
      var front := files[..|files| - 1];
      var last := files[|files| - 1];
      RunFilesHoldsDeclared(opts, dr, s, step, front);
      RunHoldsDeclared(opts, dr, RunFiles(step, EventCap, s, front).value, step, last[..Taken(EventCap, |last|)]);
    }
  }

  // ---------------------------------------------------------------------------
  // What an event leaves in the buffers
  // ---------------------------------------------------------------------------

  /** The probability blocks set their outputs, when enabled, and leave every other group alone. */
  lemma ProbabilitiesWrittenMeaning(opts: Options, m: Buffers, v: Value, g: Group)
    ensures var after := ProbabilitiesWritten(opts, m, v);
      var writes := if opts.calcProdProb || opts.calcDecayProb then ProbabilityOutputs else {};
      && (g in after <==> g in m || g in writes)
      && (g in writes ==> after[g] == v)
      && (g !in writes && g in m ==> after[g] == m[g])
  {
  }

  /** The angle block sets the groups its mode routes and leaves every other group alone. */
  lemma AnglesWrittenMeaning(mode: Mode, m: Buffers, v: Value, g: Group)
    ensures var after := AnglesWritten(mode, m, v);
      && (g in after <==> g in m || g in RoutedAngles(mode))
      && (g in RoutedAngles(mode) ==> after[g] == v)
      && (g !in RoutedAngles(mode) && g in m ==> after[g] == m[g])
  {
    match mode {
      case Vbf =>
      case VbfWithDecay =>
      case Zh =>
      case ZhWithDecay =>
      case ZhLep =>
      case ZhLepHawk =>
      case WhWithDecay =>
      case WhLep =>
      case Wh =>
      case GgH4l =>
      case GgH4lMG =>
    }
  }

  /** The four flavour groups `*dau1id` .. `*dau4id`. */
  const DaughterFlavours: set<Group> := {DaughterFlavour1, DaughterFlavour2, DaughterFlavour3, DaughterFlavour4}

  /** The flavour groups, which the daughter copy fills when its mode writes daughters. */
  function FlavourCopies(mode: Mode): set<Group> {
    if WritesDaughters(mode) then DaughterFlavours else {}
  }

  /** The daughter copy sets the daughter momenta and ids and leaves every other group alone. */
  lemma WithDaughtersMeaning(m: Buffers, v: Value, daughters: seq<Particle>, g: Group)
    requires |daughters| >= 4
    ensures var after := WithDaughters(m, v, daughters);
      && (g in after <==> g in m || g == DaughterMomentum || g in DaughterFlavours)
      && (g == DaughterMomentum ==> after[g] == v)
      && (g != DaughterMomentum && g !in DaughterFlavours && g in m ==> after[g] == m[g])
  {
  }

  /** The buffers after the Higgs or photon copy and the daughter copy, the first two momentum blocks. */
  function HeadWritten(mode: Mode, m: Buffers, v: Value, daughters: seq<Particle>, associated: seq<Particle>): Buffers
    requires WritesDaughters(mode) ==> |daughters| >= 4
  {
    var m4 :=
      if mode == GgH4l then (if |associated| > 0 then m[PhotonMomentum := v] else m)
      else m[HiggsMomentum := v];
    if WritesDaughters(mode) then WithDaughters(m4, v, daughters) else m4
  }

  /** The groups the first two momentum blocks set to the event's value. */
  function HeadGroups(mode: Mode, associatedCount: nat): set<Group> {
    (if mode != GgH4l then {HiggsMomentum} else if associatedCount > 0 then {PhotonMomentum} else {})
    + (if WritesDaughters(mode) then {DaughterMomentum} else {})
  }

  /** The Higgs or photon copy and the daughter copy set their groups and leave every other group alone. */
  lemma HeadWrittenMeaning(mode: Mode, m: Buffers, v: Value, daughters: seq<Particle>, associated: seq<Particle>, g: Group)
    requires WritesDaughters(mode) ==> |daughters| >= 4
    ensures var after := HeadWritten(mode, m, v, daughters, associated);
      var writes := HeadGroups(mode, |associated|);
      && (g in after <==> g in m || g in writes || g in FlavourCopies(mode))
      && (g in writes ==> after[g] == v)
      && (g !in writes && g !in FlavourCopies(mode) && g in m ==> after[g] == m[g])
  {
    var m4 :=
      if mode == GgH4l then (if |associated| > 0 then m[PhotonMomentum := v] else m)
      else m[HiggsMomentum := v];
    if WritesDaughters(mode) {
      WithDaughtersMeaning(m4, v, daughters, g);
    }
  }

  /** The momentum copies set their groups, copy the ids, and leave every other group alone. */
  lemma MomentaWrittenMeaning(mode: Mode, m: Buffers, v: Value, daughters: seq<Particle>, associated: seq<Particle>, g: Group)
    requires WritesDaughters(mode) ==> |daughters| >= 4
    ensures var after := MomentaWritten(mode, m, v, daughters, associated);
      var writes := MomentumGroups(mode, |associated|);
      && (g in after <==> g in m || g in writes || g in FlavourCopies(mode))
      && (g in writes ==> after[g] == v)
      && (g !in writes && g !in FlavourCopies(mode) && g in m ==> after[g] == m[g])
  {
    HeadWrittenMeaning(mode, m, v, daughters, associated, g);
  }

  /** Every group an event computes holds a value computed by that event. */
  lemma ScalarsAfterComputed(opts: Options, m: Buffers, row: nat,
                             daughters: seq<Particle>, associated: seq<Particle>, centralWeight: string, g: Group)
    requires WritesDaughters(opts.mode) ==> |daughters| >= 4
    requires g in Computes(opts, |associated|)
    ensures var after := ScalarsAfter(opts, m, row, daughters, associated, centralWeight);
      g in after && after[g] == Computed(row)
  {
    var v := Computed(row);
    var m1 := ProbabilitiesWritten(opts, m, v);
    var m2 := AnglesWritten(opts.mode, m1, v);
    ProbabilitiesWrittenMeaning(opts, m, v, g);
    AnglesWrittenMeaning(opts.mode, m1, v, g);
    MomentaWrittenMeaning(opts.mode, m2, v, daughters, associated, g);
    ComputedNotCopied(opts, |associated|, g);
  }

  /** No group is both computed and copied by an event. */
  lemma ComputedNotCopied(opts: Options, associatedCount: nat, g: Group)
    requires g in Computes(opts, associatedCount)
    ensures g != EventWeight && g !in FlavourCopies(opts.mode)
  {
    match opts.mode {
      case Vbf =>
      case VbfWithDecay =>
      case Zh =>
      case ZhWithDecay =>
      case ZhLep =>
      case ZhLepHawk =>
      case WhWithDecay =>
      case WhLep =>
      case Wh =>
      case GgH4l =>
      case GgH4lMG =>
    }
  }

  /** The ids of the four daughters and the event weight are copied as they are. */
  lemma ScalarsAfterCopied(opts: Options, m: Buffers, row: nat,
                           daughters: seq<Particle>, associated: seq<Particle>, centralWeight: string)
    requires WritesDaughters(opts.mode) ==> |daughters| >= 4
    ensures var after := ScalarsAfter(opts, m, row, daughters, associated, centralWeight);
      WritesDaughters(opts.mode) ==>
        && after[DaughterFlavour1] == Flavour(daughters[0].id)
        && after[DaughterFlavour2] == Flavour(daughters[1].id)
        && after[DaughterFlavour3] == Flavour(daughters[2].id)
        && after[DaughterFlavour4] == Flavour(daughters[3].id)
    ensures var after := ScalarsAfter(opts, m, row, daughters, associated, centralWeight);
      opts.mode != GgH4lMG ==> after[EventWeight] == Number(centralWeight)
  {
  }

  /** A group the event neither computes nor copies keeps what an earlier event left in it. */
  lemma ScalarsAfterKeepsOthers(opts: Options, m: Buffers, row: nat,
                                daughters: seq<Particle>, associated: seq<Particle>, centralWeight: string, g: Group)
    requires WritesDaughters(opts.mode) ==> |daughters| >= 4
    requires g !in Computes(opts, |associated|) && g !in Copies(opts)
    ensures var after := ScalarsAfter(opts, m, row, daughters, associated, centralWeight);
      (g in after <==> g in m) && (g in m ==> after[g] == m[g])
  {
    var v := Computed(row);
    var m1 := ProbabilitiesWritten(opts, m, v);
    var m2 := AnglesWritten(opts.mode, m1, v);
    ProbabilitiesWrittenMeaning(opts, m, v, g);
    AnglesWrittenMeaning(opts.mode, m1, v, g);
    MomentaWrittenMeaning(opts.mode, m2, v, daughters, associated, g);
  }

  // ---------------------------------------------------------------------------
  // What an event does, as a whole
  // ---------------------------------------------------------------------------

  /**
   * An event fails exactly when a merge fails, when a routing block raises
   * (a discriminant, an unbound tag, a short collection), or when a ggH4lMG
   * event has more named weights than the array has slots.
   */
  lemma StepFailsIff(opts: Options, dr: (FourVector, FourVector) -> real, s: ConverterState, ev: Event)
    requires |s.slots| == SlotCount
    ensures Step(opts, dr, s, ev).Err? <==>
      || Merged(opts, dr, ev).Err?
      || RoutingFailure(opts, ProcessAfterDecay(opts, NextProcess(opts.mode, LastFlavour(ev.associated), s.process)), ev.engine,
                        Merged(opts, dr, ev).value.0, Merged(opts, dr, ev).value.1).Some?
      || (opts.mode == GgH4lMG && |ev.namedWeights| > SlotCount)
  {
    var merged := Merged(opts, dr, ev);
    if merged.Ok? {
      var (daughters, associated) := merged.value;
      var process := ProcessAfterDecay(opts, NextProcess(opts.mode, LastFlavour(ev.associated), s.process));
      if RoutingFailure(opts, process, ev.engine, daughters, associated).None? {
        StepFillsEntry(opts, dr, s, ev, daughters, associated, process);
        FillFailsIffTooMany(s.slots, ev.namedWeights);
      }
    }
  }

  /**
   * With decay probabilities on, an event the engine gives `pg1 == 0` in the
   * decay block raises ZeroDivisionError once its merge succeeded.
   */
  lemma ZeroDecayProbabilityRaises(opts: Options, dr: (FourVector, FourVector) -> real, s: ConverterState, ev: Event)
    requires opts.calcDecayProb && ev.engine.decay.pg1 == 0.0
    requires Merged(opts, dr, ev).Ok?
    ensures Step(opts, dr, s, ev) == Err(DivisionByZero)
  {
    ZeroScalarRaises(DecayConstants, ev.engine.decay);
  }

  /** When the engine's probabilities are all positive, the blocks raise only the NameError of an unbound tag. */
  lemma PositiveProbabilitiesOnlyUnboundTag(opts: Options, process: Option<Process>, engine: EngineResults)
    requires engine.decay.pg1 > 0.0 && engine.decay.pg2 > 0.0 && engine.decay.pg4 > 0.0
    requires engine.production.pg1 > 0.0 && engine.production.pg2 > 0.0 && engine.production.pg4 > 0.0
    ensures ProbabilityFailure(opts, process, engine) ==
      if opts.calcProdProb && process.None? then Some(UndefinedProcess) else None
  {
    PositiveProbabilitiesPass(DecayConstants, engine.decay);
    if process.Some? {
      PositiveProbabilitiesPass(ProductionConstants(process.value), engine.production);
    }
  }

  /** An event that raises nothing appends exactly one entry: the buffers and the array as it left them. */
  lemma StepAppendsRow(opts: Options, dr: (FourVector, FourVector) -> real, s: ConverterState, ev: Event)
    requires Step(opts, dr, s, ev).Ok?
    ensures var r := Step(opts, dr, s, ev).value;
      r.rows == s.rows + [Row(r.scalars, r.slots)] && |r.slots| == |s.slots|
  {
    var (daughters, associated) := Merged(opts, dr, ev).value;
    var process := ProcessAfterDecay(opts, NextProcess(opts.mode, LastFlavour(ev.associated), s.process));
    StepFillsEntry(opts, dr, s, ev, daughters, associated, process);
    if opts.mode == GgH4lMG {
      FillFailsIffTooMany(s.slots, ev.namedWeights);
    }
  }

  /**
   * The ids in `flavdau1` .. `flavdau4` are those of the event's daughters:
   * the photon merges change momenta and never ids.
   */
  lemma StepRecordsOriginalIds(opts: Options, dr: (FourVector, FourVector) -> real, s: ConverterState, ev: Event)
    requires Step(opts, dr, s, ev).Ok?
    requires WritesDaughters(opts.mode)
    ensures |ev.daughters| >= 4
    ensures var r := Step(opts, dr, s, ev).value;
      && r.scalars[DaughterFlavour1] == Flavour(ev.daughters[0].id)
      && r.scalars[DaughterFlavour2] == Flavour(ev.daughters[1].id)
      && r.scalars[DaughterFlavour3] == Flavour(ev.daughters[2].id)
      && r.scalars[DaughterFlavour4] == Flavour(ev.daughters[3].id)
  {
    var (daughters, associated) := Merged(opts, dr, ev).value;
    var process := ProcessAfterDecay(opts, NextProcess(opts.mode, LastFlavour(ev.associated), s.process));
    StepFillsEntry(opts, dr, s, ev, daughters, associated, process);
    if opts.mergePhoton && opts.mode == GgH4l {
      ProphecyKeepsIds(ev.daughters, associated, |associated|, dr);
    }
    ScalarsAfterCopied(opts, s.scalars, |s.rows|, daughters, associated, ev.centralWeight);
  }

  /**
   * A ggH4l event without associated particles leaves the photon branches
   * with the momentum of the last photon an earlier event wrote.
   */
  lemma StepKeepsStalePhoton(opts: Options, dr: (FourVector, FourVector) -> real, s: ConverterState, ev: Event)
    requires opts.mode == GgH4l && ev.associated == []
    requires Step(opts, dr, s, ev).Ok?
    requires PhotonMomentum in s.scalars
    ensures Step(opts, dr, s, ev).value.scalars[PhotonMomentum] == s.scalars[PhotonMomentum]
  {
    var (daughters, associated) := Merged(opts, dr, ev).value;
    var process := ProcessAfterDecay(opts, NextProcess(opts.mode, LastFlavour(ev.associated), s.process));
    StepFillsEntry(opts, dr, s, ev, daughters, associated, process);
    ScalarsAfterKeepsOthers(opts, s.scalars, |s.rows|, daughters, associated, ev.centralWeight, PhotonMomentum);
  }

  /**
   * With the decay probabilities switched on, `process` is ZZINDEPENDENT
   * after every event, whatever the dispatch chose, and the event's engine
   * calls are those of that tag.
   */
  lemma DecayProbabilityOverridesTag(opts: Options, dr: (FourVector, FourVector) -> real, s: ConverterState, ev: Event)
    requires opts.calcDecayProb
    requires Step(opts, dr, s, ev).Ok?
    ensures var r := Step(opts, dr, s, ev).value;
      r.process == Some(ZZINDEPENDENT) && r.calls == s.calls + EngineCalls(opts, Some(ZZINDEPENDENT))
  {
    var (daughters, associated) := Merged(opts, dr, ev).value;
    var process := ProcessAfterDecay(opts, NextProcess(opts.mode, LastFlavour(ev.associated), s.process));
    StepFillsEntry(opts, dr, s, ev, daughters, associated, process);
  }

  /**
   * Every `setProcess` and `computeVHAngles` call of an event uses one tag;
   * with the decay probabilities on it can only be ZZINDEPENDENT.
   */
  lemma EngineCallsUseTag(opts: Options, process: Process)
    requires opts.calcDecayProb ==> process == ZZINDEPENDENT
    ensures var calls := EngineCalls(opts, Some(process));
      forall k | 0 <= k < |calls| :: calls[k].SetProcess? || calls[k].ComputeVHAngles? ==> calls[k].process == process
  {
    var decay := if opts.calcDecayProb then ProbabilityCalls(ComputeP, ZZINDEPENDENT) else [];
    var production := if opts.calcProdProb then ProbabilityCalls(ComputeProdP, process) else [];
    var angles := AngleCalls(opts.mode, Some(process));
    ProbabilityCallsUseTag(ComputeP, ZZINDEPENDENT);
    ProbabilityCallsUseTag(ComputeProdP, process);
    var calls := EngineCalls(opts, Some(process));
    assert calls == decay + production + angles;
    forall k | 0 <= k < |calls| && (calls[k].SetProcess? || calls[k].ComputeVHAngles?)
      ensures calls[k].process == process
    {
      if k < |decay| {
        assert calls[k] == decay[k];
      } else if k < |decay| + |production| {
        assert calls[k] == production[k - |decay|];
      } else {
        assert calls[k] == angles[k - |decay| - |production|];
      }
    }
  }

  /** The five `setProcess` calls of a probability block all pass its tag. */
  lemma ProbabilityCallsUseTag(compute: Call, process: Process)
    requires compute == ComputeP || compute == ComputeProdP
    ensures var calls := ProbabilityCalls(compute, process);
      forall k | 0 <= k < |calls| :: calls[k].SetProcess? ==> calls[k].process == process
  {
  }

  /**
   * In zh and wh modes without decay probabilities, an event raises NameError
   * exactly when no event so far had a quark or lepton as its last
   * associated particle, this one included.
   */
  lemma UnboundTagIff(opts: Options, dr: (FourVector, FourVector) -> real, s: ConverterState, ev: Event)
    requires opts.mode in {Zh, ZhWithDecay, Wh, WhWithDecay} && !opts.calcDecayProb
    ensures Step(opts, dr, s, ev) == Err(UndefinedProcess) <==>
      s.process == None && !RuleFires(opts.mode, LastFlavour(ev.associated))
  {
    assert Merged(opts, dr, ev) == Ok((ev.daughters, ev.associated));
  }

  /** A file that raises nothing appends one entry per event, after the entries already there. */
  lemma {:induction false} RunAppendsRows(opts: Options, dr: (FourVector, FourVector) -> real, s: ConverterState,
                                          step: StepFunction<Event>, events: seq<Event>)
    requires ModelStep(opts, dr, step)
    requires Run(step, s, events).Ok?
    ensures var r := Run(step, s, events).value;
      |r.rows| == |s.rows| + |events| && r.rows[..|s.rows|] == s.rows && |r.slots| == |s.slots|
    decreases |events|
  {
    if events != [] {
      var front := events[..|events| - 1];
      RunAppendsRows(opts, dr, s, step, front);
      var before := Run(step, s, front).value;
      StepAppendsRow(opts, dr, before, events[|events| - 1]);
      var r := Run(step, s, events).value;
      assert r.rows[..|s.rows|] == before.rows[..|s.rows|];
    }
  }

  /** A run that raises nothing fills one tree entry per processed event. */
  lemma {:induction false} RunFilesRowCount(opts: Options, dr: (FourVector, FourVector) -> real, s: ConverterState,
                                            step: StepFunction<Event>, files: seq<seq<Event>>)
    requires ModelStep(opts, dr, step)
    requires RunFiles(step, EventCap, s, files).Ok?
    ensures |RunFiles(step, EventCap, s, files).value.rows| == |s.rows| + TotalTaken(EventCap, files)
    decreases |files|
  {
    if files != [] {
      var front := files[..|files| - 1];
      var last := files[|files| - 1];
      RunFilesRowCount(opts, dr, s, step, front);
      RunAppendsRows(opts, dr, RunFiles(step, EventCap, s, front).value, step, last[..Taken(EventCap, |last|)]);
    }
  }

  // ---------------------------------------------------------------------------
  // The converter
  // ---------------------------------------------------------------------------

  /** The state the event loop of lhe2root.py keeps across events and files. */
  class Converter {
    const options: Options
    /** The Delta R of `TLorentzVector.DeltaR`, as `dr(photon, candidate)`. */
    const dr: (FourVector, FourVector) -> real
    var process: Option<Process>
    /** `branches`: the scalar buffers, one per declared group. */
    var scalars: Buffers
    /** `branches["weights"]`, the 30-slot float array of a ggH4lMG run. */
    const weightSlots: array<Value>
    var calls: seq<Call>
    var rows: seq<Row>
    /** `Step` of these options, as a value the runs fold over the events. */
    ghost const step: StepFunction<Event>

    ghost predicate Valid()
      reads this
    {
      weightSlots.Length == SlotCount && ModelStep(options, dr, step)
    }

    ghost function Current(): ConverterState
      reads this, weightSlots
    {
      ConverterState(process, scalars, weightSlots[..], calls, rows)
    }

    /** The buffers as created, before the first event: every branch holds 0 and `process` is unbound. */
    constructor(options: Options, dr: (FourVector, FourVector) -> real)
      ensures Valid()
      ensures scalars.Keys == Declared(options)
      ensures this.options == options && this.dr == dr
      ensures process == None && calls == [] && rows == []
      ensures forall g | g in scalars :: scalars[g] == Initial
      ensures forall j | 0 <= j < weightSlots.Length :: weightSlots[j] == Initial
    {
      this.options := options;
      this.dr := dr;
      step := (s, ev) => Step(options, dr, s, ev);
      process := None;
      scalars := map g | g in Declared(options) :: Initial;
      weightSlots := new Value[SlotCount](_ => Initial);
      calls := [];
      rows := [];
    }

    /** `for inputfile in args.inputfile`: every input file in turn, into the same tree. */
    method ConvertFiles(files: seq<seq<Event>>) returns (failure: Option<Error>)
      requires Valid()
      modifies this, weightSlots
      ensures failure.None? ==> Valid() && RunFiles(step, EventCap, old(Current()), files) == Ok(Current())
      ensures failure.Some? ==> RunFiles(step, EventCap, old(Current()), files) == Err(failure.value)
    {
      ghost var start := Current();
      for n := 0 to |files|
        invariant Valid()
        invariant RunFiles(step, EventCap, start, files[..n]) == Ok(Current())
      {
        assert files[..n + 1][..n] == files[..n];
        failure := ConvertFile(files[n]);
        if failure.Some? {
          RunFilesKeepsError(step, EventCap, start, files, n + 1);
          return;
        }
        if n == 0 && files[0] == [] {
          failure := Some(UnboundEventIndex);
          RunFilesKeepsError(step, EventCap, start, files, 1);
          return;
        }
      }
      assert files[..|files|] == files;
      return None;
    }

    /**
     * `for i, event in enumerate(f)`: the events of one file in order, leaving
     * the loop before the event whose index exceeds `LastEventIndex`.
     */
    method ConvertFile(events: seq<Event>) returns (failure: Option<Error>)
      requires Valid()
      modifies this, weightSlots
      ensures failure.None? ==> Valid() && Run(step, old(Current()), events[..Taken(EventCap, |events|)]) == Ok(Current())
      ensures failure.Some? ==> Run(step, old(Current()), events[..Taken(EventCap, |events|)]) == Err(failure.value)
    {
      ghost var start := Current();
      var i := 0;
      while i < |events|
        invariant i <= |events| && i <= LastEventIndex + 1
        invariant Valid()
        invariant Run(step, start, events[..i]) == Ok(Current())
      {
        if i > LastEventIndex {
          break;
        }
        RunAppends(step, start, events, i);
        failure := ProcessEvent(events[i]);
        if failure.Some? {
          assert events[..Taken(EventCap, |events|)][..i + 1] == events[..i + 1];
          RunKeepsError(step, start, events[..Taken(EventCap, |events|)], i + 1);
          return;
        }
        i := i + 1;
      }
      assert i == Taken(EventCap, |events|);
      return None;
    }

    /** One iteration of the loop over the events of a file. */
    method ProcessEvent(ev: Event) returns (failure: Option<Error>)
      requires Valid()
      modifies this, weightSlots
      ensures failure.None? ==> Valid() && step(old(Current()), ev) == Ok(Current())
      ensures failure.Some? ==> step(old(Current()), ev) == Err(failure.value)
    {
      ghost var start := Current();
      assert step(start, ev) == Step(options, dr, start, ev);
      var flavour := AssociatedFlavour(ev.associated);
      process := NextProcess(options.mode, flavour, process);

      var daughters, associated;
      daughters, associated, failure := MergePhotons(options, dr, ev);
      if failure.Some? {
        return;
      }
      failure := ProcessMerged(start, ev, daughters, associated);
    }

    /** The rest of an iteration, once the FSR merge succeeded: routing, weights and the fill. */
    method ProcessMerged(ghost start: ConverterState, ev: Event, daughters: seq<Particle>, associated: seq<Particle>)
        returns (failure: Option<Error>)
      requires Valid()
      requires Merged(options, dr, ev) == Ok((daughters, associated))
      requires Current() == start.(process := NextProcess(options.mode, LastFlavour(ev.associated), start.process))
      modifies this, weightSlots
      ensures failure.None? ==> Valid() && Step(options, dr, start, ev) == Ok(Current())
      ensures failure.Some? ==> Step(options, dr, start, ev) == Err(failure.value)
    {
      StepFailsOnRouting(options, dr, start, ev, daughters, associated);
      failure := Route(ev.engine, daughters, associated, Computed(|rows|));
      if failure.Some? {
        return;
      }
      ghost var written := ScalarsAfter(options, start.scalars, |start.rows|, daughters, associated, ev.centralWeight);
      StepFillsEntry(options, dr, start, ev, daughters, associated, process);
      assert weightSlots[..] == start.slots;
      failure := FillEntry(ev);
      assert failure.None? ==> scalars == written;
    }

    /** The FSR merge of the mode, on a fresh `Mela.Event` built from the event's collections. */
    static method MergePhotons(options: Options, dr: (FourVector, FourVector) -> real, ev: Event)
        returns (daughters: seq<Particle>, associated: seq<Particle>, failure: Option<Error>)
      ensures failure.None? ==> Merged(options, dr, ev) == Ok((daughters, associated))
      ensures failure.Some? ==> Merged(options, dr, ev) == Err(failure.value)
    {
      var mela := new MelaEvent(ev.daughters, ev.associated);
      if options.mode == ZhLepHawk {
        failure := mela.MergeHawk(dr);
        if failure.Some? {
          return [], [], failure;
        }
      }
      if options.mergePhoton && options.mode == GgH4l {
        failure := mela.MergeProphecy(dr);
        if failure.Some? {
          return [], [], failure;
        }
      }
      return mela.daughters, mela.associated, None;
    }

    /** The probability, angle and momentum blocks, stopping at the first error. */
    method Route(engine: EngineResults, daughters: seq<Particle>, associated: seq<Particle>, v: Value)
        returns (failure: Option<Error>)
      modifies this
      ensures rows == old(rows)
      ensures process == ProcessAfterDecay(options, old(process))
      ensures failure == RoutingFailure(options, process, engine, daughters, associated)
      ensures failure.None? ==> calls == old(calls) + EngineCalls(options, process)
      ensures failure.None? ==>
        scalars == MomentaWritten(options.mode, AnglesWritten(options.mode, ProbabilitiesWritten(options, old(scalars), v), v), v,
                                  daughters, associated)
    {
      failure := WriteProbabilities(engine, v);
      if failure.Some? {
        return;
      }
      failure := WriteAngles(associated, v);
      if failure.Some? {
        return;
      }
      failure := WriteMomenta(daughters, associated, v);
    }

    /**
     * The decay and production probability blocks, each ending with its four
     * discriminants; the production block needs a bound `process`.
     */
    method WriteProbabilities(engine: EngineResults, v: Value) returns (failure: Option<Error>)
      modifies this
      ensures rows == old(rows)
      ensures process == ProcessAfterDecay(options, old(process))
      ensures failure == ProbabilityFailure(options, process, engine)
      ensures failure.None? ==> calls == old(calls) + ProbabilityEngineCalls(options, process)
      ensures failure.None? ==> scalars == ProbabilitiesWritten(options, old(scalars), v)
    {
      ghost var start := calls;
      if options.calcDecayProb {
        process := Some(ZZINDEPENDENT);
        calls := calls + ProbabilityCalls(ComputeP, ZZINDEPENDENT);
        scalars := scalars[Probability := v][PseudoscalarProbability := v][ScalarProbability := v];
        failure := DiscriminantFailure(DecayConstants, engine.decay);
        if failure.Some? {
          return;
        }
      }
      if options.calcProdProb {
        if process.None? {
          return Some(UndefinedProcess);
        }
        calls := calls + ProbabilityCalls(ComputeProdP, process.value);
        scalars := scalars[Probability := v][PseudoscalarProbability := v][ScalarProbability := v];
        failure := DiscriminantFailure(ProductionConstants(process.value), engine.production);
        if failure.Some? {
          return;
        }
      }
      assert calls == start + ProbabilityEngineCalls(options, process);
      return None;
    }

    /** The angle block: the engine calls of the mode and the branches they fill. */
    method WriteAngles(associated: seq<Particle>, v: Value) returns (failure: Option<Error>)
      modifies this
      ensures rows == old(rows) && process == old(process)
      ensures failure == AngleFailure(options.mode, process, associated)
      ensures failure.None? ==> calls == old(calls) + AngleCalls(options.mode, process)
      ensures failure.None? ==> scalars == AnglesWritten(options.mode, old(scalars), v)
    {
      match options.mode {
        case Zh | Wh | ZhLep | WhLep | ZhLepHawk =>
          if process.None? {
            return Some(UndefinedProcess);
          }
          calls := calls + [ComputeVHAngles(process.value)];
          scalars := scalars[VMass := v][ProductionAngle := v];
        case ZhWithDecay | WhWithDecay =>
          if process.None? {
            return Some(UndefinedProcess);
          }
          calls := calls + [ComputeVHAngles(process.value), ComputeDecayAngles];
          scalars := scalars[VMass := v][ProductionAngle := v][DecayAngle := v];
        case Vbf =>
          calls := calls + [ComputeVBFAngles];
          scalars := scalars[VbfMass := v][ProductionAngle := v][HiggsJetsPz := v];
          if |associated| < 2 {
            return Some(IndexOutOfRange(|associated|, |associated|));
          }
          scalars := scalars[JetAzimuth := v];
        case VbfWithDecay =>
          calls := calls + [ComputeVBFAngles, ComputeDecayAngles];
          scalars := scalars[VbfMass := v][ProductionAngle := v][HiggsJetsPz := v][DecayAngle := v];
        case GgH4l | GgH4lMG =>
          calls := calls + [ComputeDecayAngles];
          scalars := scalars[DecayAngle := v];
      }
      return None;
    }

    /** The copies of the Higgs candidate or photon, the daughters, the photon again and the jets. */
    method WriteMomenta(daughters: seq<Particle>, associated: seq<Particle>, v: Value) returns (failure: Option<Error>)
      modifies this
      ensures rows == old(rows) && process == old(process) && calls == old(calls)
      ensures failure == MomentumFailure(options.mode, daughters, associated)
      ensures failure.None? ==> scalars == MomentaWritten(options.mode, old(scalars), v, daughters, associated)
    {
      var mode := options.mode;
      if mode == GgH4l {
        if |associated| > 0 {
          scalars := scalars[PhotonMomentum := v];
        }
      } else {
        scalars := scalars[HiggsMomentum := v];
      }
      if WritesDaughters(mode) {
        if |daughters| < 4 {
          return Some(IndexOutOfRange(|daughters|, |daughters|));
        }
        scalars := scalars[DaughterMomentum := v];
        scalars := scalars[DaughterFlavour1 := Flavour(daughters[0].id)][DaughterFlavour2 := Flavour(daughters[1].id)];
        scalars := scalars[DaughterFlavour3 := Flavour(daughters[2].id)][DaughterFlavour4 := Flavour(daughters[3].id)];
      }
      if mode == GgH4l && |associated| > 0 {
        scalars := scalars[PhotonMomentum := v];
      }
      if WritesJets(mode) {
        if |associated| < 2 {
          return Some(IndexOutOfRange(|associated|, |associated|));
        }
        scalars := scalars[JetMomentum := v][HiggsJetsRapidity := v];
      }
      return None;
    }

    /** The weights, then `t.Fill()`: the tree gains an entry holding every buffer. */
    method FillEntry(ev: Event) returns (failure: Option<Error>)
      modifies this, weightSlots
      ensures process == old(process) && calls == old(calls)
      ensures var slots := if options.mode == GgH4lMG then AfterFill(old(weightSlots[..]), ev.namedWeights)
                           else Ok(old(weightSlots[..]));
        && (failure.Some? ==> slots == Err(failure.value))
        && (failure.None? ==> slots == Ok(weightSlots[..]))
      ensures failure.None? ==>
        scalars == (if options.mode == GgH4lMG then old(scalars) else old(scalars)[EventWeight := Number(ev.centralWeight)])
      ensures failure.None? ==> rows == old(rows) + [Row(scalars, weightSlots[..])]
    {
      if options.mode == GgH4lMG {
        failure := FillWeights(weightSlots, ev.namedWeights);
        if failure.Some? {
          return;
        }
      } else {
        scalars := scalars[EventWeight := Number(ev.centralWeight)];
      }
      rows := rows + [Row(scalars, weightSlots[..])];
      return None;
    }
  }
}
