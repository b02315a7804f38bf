/**
 * Merging of final-state-radiation photons (PDG id 22) into the closest
 * particle, done in place on the event's collections before any angle or
 * probability is computed (lhe2root.py:262-326).
 *
 * Four-vectors are kept as values with componentwise addition; the angular
 * distance Delta R is a parameter `dr`, called as `dr(photon, candidate)`,
 * so only the nearest-neighbour choice and the updates are modelled.
 */
module FsrMerge {
  import opened Wrappers
  import opened PyErrors

  datatype FourVector = FourVector(px: real, py: real, pz: real, e: real)

  /** A default-constructed `TLorentzVector`. */
  const Zero: FourVector := FourVector(0.0, 0.0, 0.0, 0.0)

  /** `a + b` on `TLorentzVector`. */
  function Add(a: FourVector, b: FourVector): FourVector {
    FourVector(a.px + b.px, a.py + b.py, a.pz + b.pz, a.e + b.e)
  }

  /** A `SimpleParticle_t`: PDG id and momentum. */
  datatype Particle = Particle(id: int, p: FourVector)

  const Photon: int := 22

  /** The initial `mindr`. */
  const Sentinel: real := 9999.0

  /** Whether an entry takes part in the scan: HAWK skips photons, the ggH4l merge takes every daughter. */
  predicate Eligible(q: Particle, skipPhotons: bool) {
    !(skipPhotons && q.id == Photon)
  }

  /** The scan's state: chosen index, copied momentum (`lepp`) and `mindr`. */
  datatype Scan = Scan(index: nat, lep: FourVector, mindr: real)

  /** The scan's state after the first `n` entries of `coll`. */
  function ScanPrefix(coll: seq<Particle>, photon: FourVector, skipPhotons: bool,
                      dr: (FourVector, FourVector) -> real, n: nat): (s: Scan)
    requires n <= |coll|
    ensures s.index < |coll| || s.index == 0
    decreases n
  {
    if n == 0 then Scan(0, Zero, Sentinel)
    else
      var s := ScanPrefix(coll, photon, skipPhotons, dr, n - 1);
      var q := coll[n - 1];
      if Eligible(q, skipPhotons) && dr(photon, q.p) < s.mindr then Scan(n - 1, q.p, dr(photon, q.p)) else s
  }

  /** The chosen index and the momentum copied from it, after the whole collection. */
  function Closest(coll: seq<Particle>, photon: FourVector, skipPhotons: bool,
                   dr: (FourVector, FourVector) -> real): (nat, FourVector)
  {
    var s := ScanPrefix(coll, photon, skipPhotons, dr, |coll|);
    (s.index, s.lep)
  }

  /** No eligible entry comes closer than the sentinel. */
  predicate NoneQualifies(coll: seq<Particle>, photon: FourVector, skipPhotons: bool,
                          dr: (FourVector, FourVector) -> real, n: nat)
    requires n <= |coll|
  {
    forall j | 0 <= j < n :: Eligible(coll[j], skipPhotons) ==> dr(photon, coll[j].p) >= Sentinel
  }

  /**
   * The scan picks the first eligible entry with the strictly smallest
   * distance below the sentinel, copying its momentum; when there is none it
   * keeps index 0 and the zero vector.
   */
  lemma {:induction false} ScanIsFirstMinimum(coll: seq<Particle>, photon: FourVector, skipPhotons: bool,
                                              dr: (FourVector, FourVector) -> real, n: nat)
    requires n <= |coll|
    ensures var s := ScanPrefix(coll, photon, skipPhotons, dr, n);
      if NoneQualifies(coll, photon, skipPhotons, dr, n) then
        s == Scan(0, Zero, Sentinel)
      else
        s.index < n && Eligible(coll[s.index], skipPhotons)
        && s.lep == coll[s.index].p && s.mindr == dr(photon, coll[s.index].p) && s.mindr < Sentinel
        && (forall j | 0 <= j < s.index :: Eligible(coll[j], skipPhotons) ==> dr(photon, coll[j].p) > s.mindr)
        && (forall j | s.index < j < n :: Eligible(coll[j], skipPhotons) ==> dr(photon, coll[j].p) >= s.mindr)
    decreases n
  {
    if n > 0 {
      ScanIsFirstMinimum(coll, photon, skipPhotons, dr, n - 1);
    }
  }

  /** The nearest-neighbour loop (`for ilep, d in enumerate(...)`). */
  method ClosestCandidate(coll: seq<Particle>, photon: FourVector, skipPhotons: bool,
                          dr: (FourVector, FourVector) -> real) returns (index: nat, lep: FourVector)
    ensures (index, lep) == Closest(coll, photon, skipPhotons, dr)
  {
    var mindr := Sentinel;
    index, lep := 0, Zero;
    for ilep := 0 to |coll|
      invariant Scan(index, lep, mindr) == ScanPrefix(coll, photon, skipPhotons, dr, ilep)
    {
      var d := coll[ilep];
      if Eligible(d, skipPhotons) {
        var dist := dr(photon, d.p);
        if dist < mindr {
          lep := d.p;
          mindr := dist;
          index := ilep;
        }
      }
    }
  }

  // ---------------------------------------------------------------------------
  // HAWK ZH: photons among the associated particles
  // ---------------------------------------------------------------------------

  /**
   * One HAWK merge for the photon at `ipho`: remove the last entry, then set
   * the chosen entry's momentum to the copied momentum plus the photon's.
   * The assignment fails when the chosen entry was the one removed.
   */
  function HawkStep(assoc: seq<Particle>, ipho: nat, dr: (FourVector, FourVector) -> real): (r: Result<seq<Particle>, Error>)
    requires ipho < |assoc|
    ensures r.Ok? ==> |r.value| == |assoc| - 1
  {
    var photon := assoc[ipho].p;
    var (k, lep) := Closest(assoc, photon, true, dr);
    var popped := assoc[..|assoc| - 1];
    if k >= |popped| then Err(IndexOutOfRange(k, |popped|))
    else Ok(popped[k := Particle(popped[k].id, Add(lep, photon))])
  }

  /**
   * The outer loop from position `i`: every photon met merges; positions are
   * compared against the current length after each removal.
   */
  function HawkFrom(assoc: seq<Particle>, i: nat, dr: (FourVector, FourVector) -> real): Result<seq<Particle>, Error>
    decreases |assoc| - i
  {
    if i >= |assoc| then Ok(assoc)
    else if assoc[i].id != Photon then HawkFrom(assoc, i + 1, dr)
    else
      match HawkStep(assoc, i, dr)
      case Err(e) => Err(e)
      case Ok(next) => HawkFrom(next, i + 1, dr)
  }

  /**
   * A HAWK merge removes exactly one entry and changes only the momentum of
   * the chosen entry; every other entry that survives is untouched.
   */
  lemma HawkStepChanges(assoc: seq<Particle>, ipho: nat, dr: (FourVector, FourVector) -> real)
    requires ipho < |assoc|
    ensures var (k, lep) := Closest(assoc, assoc[ipho].p, true, dr);
      HawkStep(assoc, ipho, dr).Ok? <==> k < |assoc| - 1
    ensures var (k, lep) := Closest(assoc, assoc[ipho].p, true, dr);
      HawkStep(assoc, ipho, dr).Ok? ==>
        var next := HawkStep(assoc, ipho, dr).value;
        next[k] == Particle(assoc[k].id, Add(lep, assoc[ipho].p))
        && forall j | 0 <= j < |next| && j != k :: next[j] == assoc[j]
  {
  }

  /**
   * In the usual HAWK event the photon is the last associated entry and the
   * closest charged lepton comes before it: the photon is removed and its
   * momentum added to that lepton.
   */
  lemma HawkPhotonLastMerges(assoc: seq<Particle>, dr: (FourVector, FourVector) -> real)
    requires |assoc| >= 2 && assoc[|assoc| - 1].id == Photon
    requires forall j | 0 <= j < |assoc| - 1 :: assoc[j].id != Photon
    requires !NoneQualifies(assoc, assoc[|assoc| - 1].p, true, dr, |assoc|)
    ensures var n := |assoc| - 1;
      var k := Closest(assoc, assoc[n].p, true, dr).0;
      k < n
      && HawkFrom(assoc, 0, dr) == Ok(assoc[..n][k := Particle(assoc[k].id, Add(assoc[k].p, assoc[n].p))])
  {
    var n := |assoc| - 1;
    ScanIsFirstMinimum(assoc, assoc[n].p, true, dr, |assoc|);
    HawkSkipsTo(assoc, 0, n, dr);
  }

  lemma {:induction false} HawkSkipsTo(assoc: seq<Particle>, i: nat, n: nat, dr: (FourVector, FourVector) -> real)
    requires i <= n <= |assoc|
    requires forall j | i <= j < n :: assoc[j].id != Photon
    ensures HawkFrom(assoc, i, dr) == HawkFrom(assoc, n, dr)
    decreases n - i
  {
    if i < n {
      HawkSkipsTo(assoc, i + 1, n, dr);
    }
  }

  /** A photon with no eligible entry within the sentinel lands on entry 0 (the zero vector plus the photon). */
  lemma FallbackToFirst(coll: seq<Particle>, photon: FourVector, skipPhotons: bool, dr: (FourVector, FourVector) -> real)
    requires NoneQualifies(coll, photon, skipPhotons, dr, |coll|)
    ensures Closest(coll, photon, skipPhotons, dr) == (0, Zero)
    ensures Add(Zero, photon) == photon
  {
    ScanIsFirstMinimum(coll, photon, skipPhotons, dr, |coll|);
  }

  // ---------------------------------------------------------------------------
  // ggH4l (JHUGen / Prophecy): photons among the associated, merged into daughters
  // ---------------------------------------------------------------------------

  /** One ggH4l merge: the chosen daughter's momentum becomes the copied momentum plus the photon's. */
  function ProphecyStep(daughters: seq<Particle>, photon: FourVector, dr: (FourVector, FourVector) -> real): (r: Result<seq<Particle>, Error>)
    ensures r.Ok? ==> |r.value| == |daughters|
  {
    var (k, lep) := Closest(daughters, photon, false, dr);
    if k >= |daughters| then Err(IndexOutOfRange(k, |daughters|))
    else Ok(daughters[k := Particle(daughters[k].id, Add(lep, photon))])
  }

  /** The daughters after merging every photon among the first `n` associated entries, in order. */
  function ProphecyPrefix(daughters: seq<Particle>, assoc: seq<Particle>, n: nat, dr: (FourVector, FourVector) -> real): (r: Result<seq<Particle>, Error>)
    requires n <= |assoc|
    ensures r.Ok? ==> |r.value| == |daughters|
    decreases n
  {
    if n == 0 then Ok(daughters)
    else
      match ProphecyPrefix(daughters, assoc, n - 1, dr)
      case Err(e) => Err(e)
      case Ok(ds) =>
        if assoc[n - 1].id != Photon then Ok(ds) else ProphecyStep(ds, assoc[n - 1].p, dr)
  }

  /**
   * A ggH4l merge fails only without daughters; otherwise it changes the
   * momentum of exactly the chosen daughter, which is the first closest one.
   */
  lemma ProphecyStepChanges(daughters: seq<Particle>, photon: FourVector, dr: (FourVector, FourVector) -> real)
    ensures ProphecyStep(daughters, photon, dr).Ok? <==> daughters != []
    ensures ProphecyStep(daughters, photon, dr).Ok? ==>
      var (k, lep) := Closest(daughters, photon, false, dr);
      var next := ProphecyStep(daughters, photon, dr).value;
      next[k] == Particle(daughters[k].id, Add(lep, photon))
      && forall j | 0 <= j < |next| && j != k :: next[j] == daughters[j]
  {
  }

  /** Ids never change in a ggH4l merge: only momenta do. */
  lemma {:induction false} ProphecyKeepsIds(daughters: seq<Particle>, assoc: seq<Particle>, n: nat, dr: (FourVector, FourVector) -> real)
    requires n <= |assoc|
    requires ProphecyPrefix(daughters, assoc, n, dr).Ok?
    ensures forall j | 0 <= j < |daughters| :: ProphecyPrefix(daughters, assoc, n, dr).value[j].id == daughters[j].id
    decreases n
  {
    if n > 0 {
      ProphecyKeepsIds(daughters, assoc, n - 1, dr);
    }
  }

  // ---------------------------------------------------------------------------
  // The event whose collections are updated in place
  // ---------------------------------------------------------------------------

  /** The collections of the event being processed. */
  class MelaEvent {
    var daughters: seq<Particle>
    var associated: seq<Particle>

    constructor(daughters: seq<Particle>, associated: seq<Particle>)
      ensures this.daughters == daughters && this.associated == associated
    {
      this.daughters := daughters;
      this.associated := associated;
    }

    /** The HAWK block (lhe2root.py:262-292): `None` on success, else the error raised. */
    method MergeHawk(dr: (FourVector, FourVector) -> real) returns (failure: Option<Error>)
      modifies this
      ensures daughters == old(daughters)
      ensures failure.None? ==> HawkFrom(old(associated), 0, dr) == Ok(associated)
      ensures failure.Some? ==> HawkFrom(old(associated), 0, dr) == Err(failure.value)
    {
      var ipho := 0;
      while ipho < |associated|
        invariant daughters == old(daughters)
        invariant HawkFrom(old(associated), 0, dr) == HawkFrom(associated, ipho, dr)
        decreases |associated| - ipho
      {
        var p := associated[ipho];
        if p.id == Photon {
          var photon := p.p;
          var k, lep := ClosestCandidate(associated, photon, true, dr);
          associated := associated[..|associated| - 1];
          if k >= |associated| {
            return Some(IndexOutOfRange(k, |associated|));
          }
          associated := associated[k := Particle(associated[k].id, Add(lep, photon))];
        }
        ipho := ipho + 1;
      }
      return None;
    }

    /** The ggH4l block (lhe2root.py:297-326): `None` on success, else the error raised. */
    method MergeProphecy(dr: (FourVector, FourVector) -> real) returns (failure: Option<Error>)
      modifies this
      ensures associated == old(associated)
      ensures failure.None? ==> ProphecyPrefix(old(daughters), associated, |associated|, dr) == Ok(daughters)
      ensures failure.Some? ==> ProphecyPrefix(old(daughters), associated, |associated|, dr) == Err(failure.value)
    {
      for ipho := 0 to |associated|
        invariant associated == old(associated)
        invariant ProphecyPrefix(old(daughters), associated, ipho, dr) == Ok(daughters)
      {
        var p := associated[ipho];
        if p.id == Photon {
          var photon := p.p;
          var k, lep := ClosestCandidate(daughters, photon, false, dr);
          if k >= |daughters| {
            ProphecyErrorPersists(old(daughters), associated, ipho + 1, dr);
            return Some(IndexOutOfRange(k, |daughters|));
          }
          daughters := daughters[k := Particle(daughters[k].id, Add(lep, photon))];
        }
      }
      return None;
    }
  }

  lemma {:induction false} ProphecyErrorPersists(daughters: seq<Particle>, assoc: seq<Particle>, n: nat, dr: (FourVector, FourVector) -> real)
    requires n <= |assoc|
    requires ProphecyPrefix(daughters, assoc, n, dr).Err?
    ensures ProphecyPrefix(daughters, assoc, |assoc|, dr) == ProphecyPrefix(daughters, assoc, n, dr)
    decreases |assoc| - n
  {
    if n < |assoc| {
      ProphecyErrorPersists(daughters, assoc, n + 1, dr);
    }
  }
}
