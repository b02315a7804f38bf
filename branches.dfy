/**
 * The output tree of both converter scripts: the scalar branches by name,
 * what a branch can hold, the snapshot `t.Fill()` appends, and the engine
 * calls an event makes.
 *
 * Values are abstract: a number the vector arithmetic or the engine computed
 * while an event was processed is `Computed(row)`, with `row` the index of
 * the tree entry that event fills; integers and weight texts copied from the
 * event are kept as they are.
 *
 * The scripts always write the branches of one group together, with values
 * computed by the same event, so the buffers are kept per group: a branch
 * holds what its group holds.
 */
module Branches {
  import opened Wrappers
  import opened Dispatch

  /** The scalar float branches, spelled as in the scripts. */
  datatype Branch =
    | costheta1 | costheta2 | Phi1 | costhetastar | Phi | HJJpz
    | M4L | MZ1 | MZ2 | costheta1d | costheta2d | Phid | costhetastard | Phi1d
    | pg1 | pg4 | pg2 | pg1g2 | pg1g4 | pg2za | pg4za | pg1g2za | pg1g4za
    | D0minus | D0hplus | DCP | Dint | D0minus_za | D0hplus_za | Dint_za | DCP_za
    | pg4pd | DCP_old
    | mV | mVstar | q2V1 | q2V2 | Dphijj
    | ptH | pxH | pyH | pzH | EH | rapH | rapHJJ
    | decayMode | qfl1 | qfl2 | qfl1mom | qfl2mom
    | pxj1 | pyj1 | pzj1 | Ej1 | pxj2 | pyj2 | pzj2 | Ej2
    | pxph1 | pyph1 | pzph1 | Eph1
    | weight
    | ptdau1 | pxdau1 | pydau1 | pzdau1 | Edau1 | flavdau1
    | ptdau2 | pxdau2 | pydau2 | pzdau2 | Edau2 | flavdau2
    | ptdau3 | pxdau3 | pydau3 | pzdau3 | Edau3 | flavdau3
    | ptdau4 | pxdau4 | pydau4 | pzdau4 | Edau4 | flavdau4

  /** What a branch buffer holds. */
  datatype Value =
    /** the `0` a buffer is created with */
    | Initial
    /** a float computed while processing the event that fills tree entry `row` */
    | Computed(row: nat)
    /** a PDG id copied from a particle */
    | Flavour(id: int)
    /** a weight copied from the event, kept as its text */
    | Number(text: string)

  /** The hypothesis argument of `setProcess`. */
  datatype Hypothesis = SelfDefineSpin0 | HSMHiggs

  /** A call into the MELA engine, in the order the event makes them. */
  datatype Call =
    | SetProcess(hypothesis: Hypothesis, process: Process)
    | ComputeP
    | ComputeProdP
    | ComputeVHAngles(process: Process)
    | ComputeVBFAngles
    | ComputeDecayAngles

  // ---------------------------------------------------------------------------
  // Groups of branches, as the scripts declare and write them
  // ---------------------------------------------------------------------------

  /** Branches that the scripts always write together, with values of the same event. */
  datatype Group =
    /** `costheta1`, `costheta2`, `Phi`, `costhetastar`, `Phi1`: production angles */
    | ProductionAngle
    /** `HJJpz` */
    | HiggsJetsPz
    /** `M4L`, `MZ1`, `MZ2` and the decay angles */
    | DecayAngle
    /** `pg4`: the pseudoscalar probability, the only one lhe2rootggH.py computes */
    | PseudoscalarProbability
    /** `pg1`, `pg1g4`, `D0minus`, `DCP`: declared by both scripts */
    | Probability
    /** `pg2`, `pg1g2`, `D0hplus`, `Dint`: declared by lhe2root.py only */
    | ScalarProbability
    /** the `*za` probabilities and discriminants, declared and never written */
    | ZGammaProbability
    /** `pg4pd`, `DCP_old`: declared by lhe2rootggH.py only, never written */
    | LegacyProbability
    /** `mV`, `mVstar` */
    | VMass
    /** `q2V1`, `q2V2` */
    | VbfMass
    /** `Dphijj` */
    | JetAzimuth
    /** `ptH` .. `rapH` */
    | HiggsMomentum
    /** `rapHJJ` */
    | HiggsJetsRapidity
    /** `decayMode`, `qfl1`, `qfl2`, `qfl1mom`, `qfl2mom`: declared and never written */
    | Bookkeeping
    /** `pxj1` .. `Ej2` */
    | JetMomentum
    /** `pxph1` .. `Eph1` */
    | PhotonMomentum
    /** `weight` */
    | EventWeight
    /** `ptdau1` .. `Edau4` */
    | DaughterMomentum
    /** `flavdau1`, `flavdau2`, `flavdau3`, `flavdau4`, one id each */
    | DaughterFlavour1 | DaughterFlavour2 | DaughterFlavour3 | DaughterFlavour4

  function GroupOf(b: Branch): Group {
    match b
    case costheta1 | costheta2 | Phi1 | costhetastar | Phi => ProductionAngle
    case HJJpz => HiggsJetsPz
    case M4L | MZ1 | MZ2 | costheta1d | costheta2d | Phid | costhetastard | Phi1d => DecayAngle
    case pg4 => PseudoscalarProbability
    case pg1 | pg1g4 | D0minus | DCP => Probability
    case pg2 | pg1g2 | D0hplus | Dint => ScalarProbability
    case pg2za | pg4za | pg1g2za | pg1g4za | D0minus_za | D0hplus_za | Dint_za | DCP_za => ZGammaProbability
    case pg4pd | DCP_old => LegacyProbability
    case mV | mVstar => VMass
    case q2V1 | q2V2 => VbfMass
    case Dphijj => JetAzimuth
    case ptH | pxH | pyH | pzH | EH | rapH => HiggsMomentum
    case rapHJJ => HiggsJetsRapidity
    case decayMode | qfl1 | qfl2 | qfl1mom | qfl2mom => Bookkeeping
    case pxj1 | pyj1 | pzj1 | Ej1 | pxj2 | pyj2 | pzj2 | Ej2 => JetMomentum
    case pxph1 | pyph1 | pzph1 | Eph1 => PhotonMomentum
    case weight => EventWeight
    case ptdau1 | pxdau1 | pydau1 | pzdau1 | Edau1
       | ptdau2 | pxdau2 | pydau2 | pzdau2 | Edau2
       | ptdau3 | pxdau3 | pydau3 | pzdau3 | Edau3
       | ptdau4 | pxdau4 | pydau4 | pzdau4 | Edau4 => DaughterMomentum
    case flavdau1 => DaughterFlavour1
    case flavdau2 => DaughterFlavour2
    case flavdau3 => DaughterFlavour3
    case flavdau4 => DaughterFlavour4
  }

  /** The buffers, one per declared group. */
  type Buffers = map<Group, Value>

  /** `branches[b][0]`: what branch `b` holds, or None when the run never declared it. */
  function Lookup(buffers: Buffers, b: Branch): (r: Option<Value>)
    ensures r.Some? <==> GroupOf(b) in buffers
  {
    if GroupOf(b) in buffers then Some(buffers[GroupOf(b)]) else None
  }

  /** One tree entry: every scalar buffer and the contents of the weights array. */
  datatype Row = Row(scalars: Buffers, weights: seq<Value>)
}
