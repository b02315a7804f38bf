/**
 * `remove_diag` of the MadGraph VH filter (MadGraph_Filters/user_filter_VH.py:3-105):
 * a diagram is removed when one of its vertices has more than three lines,
 * when the ordered scan of a vertex's lines meets an exotic particle or a
 * forbidden Higgs coupling, or when a vertex joins a Higgs and a Z.
 *
 * A diagram is given by what the drawing library makes of it: the list of its
 * vertices, each the PDG ids of its lines in order.
 */
module VhFilter {

  /** The PDG ids of the lines at one vertex, in the order of `v.lines`. */
  type Vertex = seq<int>

  /** The three switches of the coupling loop (user_filter_VH.py:49-51). */
  const RemoveHZZ: bool := true
  const RemoveHZgam: bool := true
  const RemoveHgamgam: bool := false

  const Higgs: int := 25
  const ZPrime: int := 32
  const NewHiggs: int := 9000005
  const NewZPrime: int := 9000008

  /** `abs()`; the filter runs inside MadGraph and shares no module with the converters. */
  function Abs(x: int): nat {
    if x < 0 then -x else x
  }

  /** An electron or a muon, of either charge. */
  predicate IsLepton(id: int) {
    Abs(id) == 11 || Abs(id) == 13
  }

  /** A d, u, s or c quark or antiquark. */
  predicate IsLightQuark(id: int) {
    1 <= Abs(id) <= 4
  }

  // ---------------------------------------------------------------------------
  // Which vertices remove a diagram
  // ---------------------------------------------------------------------------

  /** A vertex of four or more lines (the first loop). */
  predicate TooManyLines(v: Vertex) {
    |v| > 3
  }

  /** Some line before position `i` is a lepton: `hasL` when the scan reaches line `i`. */
  predicate LeptonBefore(v: Vertex, i: nat)
    requires i <= |v|
  {
    exists j | 0 <= j < i :: IsLepton(v[j])
  }

  /** Some line before position `i` is a Higgs: `hasH` when the scan reaches line `i`. */
  predicate HiggsBefore(v: Vertex, i: nat)
    requires i <= |v|
  {
    exists j | 0 <= j < i :: v[j] == Higgs
  }

  /**
   * Line `i` makes the second loop return True, given the lines before it:
   * a lepton after a Higgs and a lepton, a light quark after a Higgs, a Higgs
   * after a lepton, or a Z', a new Higgs or a new Z' anywhere.
   */
  predicate FiresAt(v: Vertex, i: nat)
    requires i < |v|
  {
    var id := v[i];
    || (IsLepton(id) && HiggsBefore(v, i) && LeptonBefore(v, i))
    || (IsLightQuark(id) && HiggsBefore(v, i))
    || (id == Higgs && LeptonBefore(v, i))
    || id == ZPrime || id == NewHiggs || id == NewZPrime
  }

  /** The ordered scan of the second loop returns True somewhere in this vertex. */
  predicate ScanFires(v: Vertex) {
    exists i | 0 <= i < |v| :: FiresAt(v, i)
  }

  /** The vertex has a line whose |id| is `a`. */
  predicate HasAbs(v: Vertex, a: nat) {
    exists j | 0 <= j < |v| :: Abs(v[j]) == a
  }

  /** The vertex has a Higgs line (id 25 exactly). */
  predicate HasHiggs(v: Vertex) {
    exists j | 0 <= j < |v| :: v[j] == Higgs
  }

  /** The third loop returns True for this vertex: HZZ, HZgamma or (switched off) Hgammagamma. */
  predicate CouplingFires(v: Vertex) {
    var hasZ := HasAbs(v, 23);
    var hasH := HasHiggs(v);
    var hasGam := HasAbs(v, 22);
    || (hasZ && hasH && !hasGam && RemoveHZZ)
    || (hasZ && hasH && hasGam && RemoveHZgam)
    || (hasGam && hasH && !hasZ && RemoveHgamgam)
  }

  /** One of the three loops returns True at this vertex. */
  predicate VertexRemoves(v: Vertex) {
    TooManyLines(v) || ScanFires(v) || CouplingFires(v)
  }

  /** `remove_diag` returns True: some vertex removes the diagram. */
  predicate Removed(vertices: seq<Vertex>) {
    exists k | 0 <= k < |vertices| :: VertexRemoves(vertices[k])
  }

  // ---------------------------------------------------------------------------
  // The filter as written: three loops over the vertices, with early returns
  // ---------------------------------------------------------------------------

  method RemoveDiag(vertices: seq<Vertex>) returns (remove: bool)
    ensures remove == Removed(vertices)
  {
    for k := 0 to |vertices|
      invariant forall m | 0 <= m < k :: !TooManyLines(vertices[m])
    {
      if |vertices[k]| > 3 {
        return true;
      }
    }
    for k := 0 to |vertices|
      invariant forall m | 0 <= m < k :: !ScanFires(vertices[m])
    {
      var fires := ScanVertex(vertices[k]);
      if fires {
        return true;
      }
    }
    for k := 0 to |vertices|
      invariant forall m | 0 <= m < k :: !CouplingFires(vertices[m])
    {
      var fires := CouplingVertex(vertices[k]);
      if fires {
        return true;
      }
    }
    return false;
  }

  /** The body of the second loop for one vertex: the flags `hasL`, `hasH` and the checks in line order. */
  method ScanVertex(v: Vertex) returns (fires: bool)
    ensures fires == ScanFires(v)
  {
    var hasL := false;
    var hasH := false;
    for i := 0 to |v|
      invariant hasL == LeptonBefore(v, i)
      invariant hasH == HiggsBefore(v, i)
      invariant forall j | 0 <= j < i :: !FiresAt(v, j)
    {
      var id := v[i];
      if IsLepton(id) && hasH && hasL {
        assert FiresAt(v, i);
        return true;
      }
      if IsLightQuark(id) && hasH {
        assert FiresAt(v, i);
        return true;
      }
      if id == Higgs && hasL {
        assert FiresAt(v, i);
        return true;
      }
      if id == ZPrime {
        assert FiresAt(v, i);
        return true;
      }
      if IsLepton(id) {
        hasL := true;
      }
      if id == Higgs {
        hasH := true;
      }
      if id == NewHiggs {
        assert FiresAt(v, i);
        return true;
      }
      if id == NewZPrime {
        assert FiresAt(v, i);
        return true;
      }
    }
    return false;
  }

  /** The body of the third loop for one vertex: the flags `HasZ`, `HasH`, `HasGam`, then the switches. */
  method CouplingVertex(v: Vertex) returns (fires: bool)
    ensures fires == CouplingFires(v)
  {
    var hasZ := false;
    var hasH := false;
    var hasGam := false;
    for i := 0 to |v|
      invariant hasGam == exists j | 0 <= j < i :: Abs(v[j]) == 22
      invariant hasH == exists j | 0 <= j < i :: v[j] == Higgs
      invariant hasZ == exists j | 0 <= j < i :: Abs(v[j]) == 23
    {
      if Abs(v[i]) == 22 {
        hasGam := true;
      }
      if v[i] == Higgs {
        hasH := true;
      }
      if Abs(v[i]) == 23 {
        hasZ := true;
      }
    }
    if hasZ && hasH && !hasGam {
      if RemoveHZZ {
        return true;
      }
    }
    if hasZ && hasH && hasGam {
      if RemoveHZgam {
        return true;
      }
    }
    if hasGam && hasH && !hasZ {
      if RemoveHgamgam {
        return true;
      }
    }
    return false;
  }

  // ---------------------------------------------------------------------------
  // Properties
  // ---------------------------------------------------------------------------

  /** The verdict is per vertex: a diagram made of two parts is removed exactly when one part is. */
  lemma RemovedConcat(a: seq<Vertex>, b: seq<Vertex>)
    ensures Removed(a + b) <==> Removed(a) || Removed(b)
  {
    if Removed(a + b) {
      var k :| 0 <= k < |a + b| && VertexRemoves((a + b)[k]);
      if k < |a| {
        assert (a + b)[k] == a[k];
      } else {
        assert (a + b)[k] == b[k - |a|];
      }
    }
    if Removed(a) {
      var k :| 0 <= k < |a| && VertexRemoves(a[k]);
      assert (a + b)[k] == a[k];
    }
    if Removed(b) {
      var k :| 0 <= k < |b| && VertexRemoves(b[k]);
      assert (a + b)[|a| + k] == b[k];
    }
  }

  /** The order of the vertices never matters, only the order of lines within a vertex. */
  lemma RemovedIgnoresVertexOrder(vertices: seq<Vertex>, reordered: seq<Vertex>)
    requires multiset(vertices) == multiset(reordered)
    ensures Removed(vertices) <==> Removed(reordered)
  {
    forall xs: seq<Vertex>, ys: seq<Vertex> | multiset(xs) == multiset(ys) && Removed(xs)
      ensures Removed(ys)
    {
      var k :| 0 <= k < |xs| && VertexRemoves(xs[k]);
      assert xs[k] in multiset(ys);
      var m :| 0 <= m < |ys| && ys[m] == xs[k];
    }
  }

  /** Any vertex with more than three lines removes the diagram. */
  lemma FourLinesRemoved(vertices: seq<Vertex>, k: nat)
    requires k < |vertices| && |vertices[k]| > 3
    ensures Removed(vertices)
  {
    assert VertexRemoves(vertices[k]);
  }

  /** A Z', a new Higgs or a new Z' line anywhere in a vertex removes the diagram. */
  lemma ExoticRemoved(vertices: seq<Vertex>, k: nat, i: nat)
    requires k < |vertices| && i < |vertices[k]|
    requires vertices[k][i] in {ZPrime, NewHiggs, NewZPrime}
    ensures Removed(vertices)
  {
    assert FiresAt(vertices[k], i);
    assert VertexRemoves(vertices[k]);
  }

  /** A vertex joining a Higgs and a Z removes the diagram, with or without a photon. */
  lemma HiggsZRemoved(vertices: seq<Vertex>, k: nat)
    requires k < |vertices| && HasHiggs(vertices[k]) && HasAbs(vertices[k], 23)
    ensures Removed(vertices)
  {
    assert CouplingFires(vertices[k]);
    assert VertexRemoves(vertices[k]);
  }

  /** A Higgs and a photon without a Z never fire the third loop: the Hgammagamma switch is off. */
  lemma HiggsPhotonKept(v: Vertex)
    requires HasHiggs(v) && HasAbs(v, 22) && !HasAbs(v, 23)
    ensures !CouplingFires(v)
  {
  }

  /** A lepton then a Higgs is removed, a Higgs then a lepton is not: the scan is order-sensitive. */
  lemma LeptonHiggsOrder()
    ensures Removed([[11, 25]])
    ensures !Removed([[25, 11]])
  {
    assert FiresAt([11, 25], 1) by {
      assert LeptonBefore([11, 25], 1) by { assert IsLepton([11, 25][0]); }
    }
    var d: seq<Vertex> := [[11, 25]];
    assert VertexRemoves(d[0]);
    var v: Vertex := [25, 11];
    assert !LeptonBefore(v, 1);
    assert !FiresAt(v, 0) && !FiresAt(v, 1);
    assert !HasAbs(v, 23);
    assert !VertexRemoves(v);
  }

  /** A light quark after a Higgs is removed; before it, it is not. */
  lemma QuarkHiggsOrder()
    ensures Removed([[25, 2]])
    ensures !Removed([[2, 25]])
  {
    assert FiresAt([25, 2], 1) by {
      assert HiggsBefore([25, 2], 1) by { assert [25, 2][0] == Higgs; }
    }
    var d: seq<Vertex> := [[25, 2]];
    assert VertexRemoves(d[0]);
    var v: Vertex := [2, 25];
    assert !LeptonBefore(v, 1) && !HiggsBefore(v, 1);
    assert !FiresAt(v, 0) && !FiresAt(v, 1);
    assert !HasAbs(v, 23);
    assert !VertexRemoves(v);
  }

  /**
   * A lepton after a Higgs removes the diagram only when another lepton came
   * before it: `[25, 11, 13]` is removed, `[25, 13]` is not.
   */
  lemma SecondLeptonAfterHiggs()
    ensures Removed([[25, 11, 13]])
    ensures !Removed([[25, 13]])
  {
    var w: Vertex := [25, 11, 13];
    assert FiresAt(w, 2) by {
      assert HiggsBefore(w, 2) by { assert w[0] == Higgs; }
      assert LeptonBefore(w, 2) by { assert IsLepton(w[1]); }
    }
    var d: seq<Vertex> := [w];
    assert VertexRemoves(d[0]);
    var v: Vertex := [25, 13];
    assert !LeptonBefore(v, 1);
    assert !FiresAt(v, 0) && !FiresAt(v, 1);
    assert !HasAbs(v, 23);
    assert !VertexRemoves(v);
  }
}
