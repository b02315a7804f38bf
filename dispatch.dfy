/**
 * The per-event choice of the MELA process tag (`TVar.*`) in both converter
 * scripts. `process` is a variable of the event loop: when no rule fires for
 * an event it keeps the value of the previous event, and before the first
 * rule ever fires it is unbound (`None` here).
 */
module Dispatch {
  import opened Wrappers
  import opened PyNum
  import opened FsrMerge

  /** The mutually exclusive production-mode flags of the command line. */
  datatype Mode =
    | Vbf | VbfWithDecay
    | Zh | ZhWithDecay | ZhLep | ZhLepHawk
    | WhWithDecay | WhLep | Wh
    | GgH4l | GgH4lMG

  /** The `TVar` production tags the scripts hand to the engine. */
  datatype Process = HadZH | HadWH | LepZH | LepWH | JJVBF | ZZGG | ZZINDEPENDENT

  /** The modes of lhe2rootggH.py, a subset of those of lhe2root.py. */
  predicate IsGgHScriptMode(mode: Mode) {
    mode in {Vbf, Zh, Wh, GgH4l, GgH4lMG}
  }

  /** `abs(id)` of the last associated particle, or 0 when there is none. */
  function LastFlavour(associated: seq<Particle>): nat {
    if associated == [] then 0 else Abs(associated[|associated| - 1].id)
  }

  /** The loop that leaves `associated_flavor` at the flavour of the last associated particle. */
  method AssociatedFlavour(associated: seq<Particle>) returns (flavour: nat)
    ensures associated == [] ==> flavour == 0
    ensures associated != [] ==> flavour == Abs(associated[|associated| - 1].id)
  {
    flavour := 0;
    for i := 0 to |associated|
      invariant i == 0 ==> flavour == 0
      invariant i > 0 ==> flavour == Abs(associated[i - 1].id)
    {
      flavour := Abs(associated[i].id);
    }
  }

  predicate IsQuarkFlavour(flavour: nat) {
    1 <= flavour <= 6
  }

  predicate IsLeptonFlavour(flavour: nat) {
    11 <= flavour <= 16
  }

  /** Whether some dispatch rule of lhe2root.py assigns `process` for this event. */
  predicate RuleFires(mode: Mode, flavour: nat) {
    match mode
    case Zh | ZhWithDecay | Wh | WhWithDecay => IsQuarkFlavour(flavour) || IsLeptonFlavour(flavour)
    case GgH4lMG => false
    case _ => true
  }

  /** The tag the firing rule assigns, as a table over mode and flavour. */
  function Tag(mode: Mode, flavour: nat): Process
    requires RuleFires(mode, flavour)
  {
    match mode
    case Vbf | VbfWithDecay => JJVBF
    case ZhLep | ZhLepHawk => LepZH
    case WhLep => LepWH
    case GgH4l => ZZGG
    case Zh | ZhWithDecay => if IsQuarkFlavour(flavour) then HadZH else LepZH
    case Wh | WhWithDecay => if IsQuarkFlavour(flavour) then HadWH else LepWH
  }

  /**
   * The six `if` statements of lhe2root.py, applied in order to the value of
   * `process` left by the previous event.
   */
  function NextProcess(mode: Mode, flavour: nat, previous: Option<Process>): (r: Option<Process>)
    ensures RuleFires(mode, flavour) ==> r == Some(Tag(mode, flavour))
    ensures !RuleFires(mode, flavour) ==> r == previous
  {
    var afterQuark :=
      if IsQuarkFlavour(flavour) then
        if mode == Zh || mode == ZhWithDecay then Some(HadZH)
        else if mode == Wh || mode == WhWithDecay then Some(HadWH)
        else previous
      else previous;
    var afterLepton :=
      if IsLeptonFlavour(flavour) then
        if mode == Zh || mode == ZhWithDecay then Some(LepZH)
        else if mode == Wh || mode == WhWithDecay then Some(LepWH)
        else afterQuark
      else afterQuark;
    var afterVbf := if mode == Vbf || mode == VbfWithDecay then Some(JJVBF) else afterLepton;
    var afterZhLep := if mode == ZhLep || mode == ZhLepHawk then Some(LepZH) else afterVbf;
    var afterWhLep := if mode == WhLep then Some(LepWH) else afterZhLep;
    if mode == GgH4l then Some(ZZGG) else afterWhLep
  }

  /**
   * A rule fires exactly when the previous value cannot show through: two
   * runs that differ only in the carried value agree after this event for
   * every carried value iff a rule fires.
   */
  lemma CarriedValueShowsThroughIff(mode: Mode, flavour: nat)
    ensures RuleFires(mode, flavour) <==>
              NextProcess(mode, flavour, None) == NextProcess(mode, flavour, Some(ZZINDEPENDENT))
  {
  }

  /** The only mode that never assigns `process` is ggH4lMG. */
  lemma OnlyMadGraphNeverAssigns(mode: Mode)
    ensures (forall flavour: nat :: !RuleFires(mode, flavour)) <==> mode == GgH4lMG
  {
    if mode != GgH4lMG {
      assert RuleFires(mode, 1);
    }
  }

  /**
   * An event in zh or wh mode whose last associated particle is neither a
   * quark nor a lepton (a photon, a gluon, or no associated particle at all)
   * keeps the previous tag, including the ZZINDEPENDENT that the decay
   * probabilities leave behind.
   */
  lemma ZZIndependentCarriesOver(mode: Mode, associated: seq<Particle>)
    requires mode in {Zh, ZhWithDecay, Wh, WhWithDecay}
    requires associated == [] || Abs(associated[|associated| - 1].id) in {21, 22}
    ensures NextProcess(mode, LastFlavour(associated), Some(ZZINDEPENDENT)) == Some(ZZINDEPENDENT)
  {
  }

  /**
   * The if/elif of lhe2rootggH.py: zh, wh and vbf choose the tag lhe2root.py
   * gives a hadronically decaying associated boson, and the ggH modes never
   * assign it.
   */
  function GgHProcess(mode: Mode, previous: Option<Process>): (r: Option<Process>)
    requires IsGgHScriptMode(mode)
    ensures mode in {Zh, Wh, Vbf} ==> r == NextProcess(mode, 1, previous)
    ensures mode in {GgH4l, GgH4lMG} ==> r == previous
  {
    if mode == Zh then Some(HadZH)
    else if mode == Wh then Some(HadWH)
    else if mode == Vbf then Some(JJVBF)
    else previous
  }
}
