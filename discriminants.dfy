/**
 * The discriminants each probability block of lhe2root.py computes from the
 * engine's results (lhe2root.py:363-374 and 437-456). Their values are not
 * modelled, but the exceptions they raise are: a zero denominator raises
 * ZeroDivisionError, and `x ** 0.5` of a negative float raises ValueError in
 * Python 2. Floats are modelled as reals.
 */
module Discriminants {
  import opened Wrappers
  import opened PyErrors
  import opened Dispatch

  /** The engine's `pg1`, `pg2` and `pg4` of one probability block for one event. */
  datatype Probabilities = Probabilities(pg1: real, pg2: real, pg4: real)

  /** The engine's results for one event: the decay block's and the production block's. */
  datatype EngineResults = EngineResults(decay: Probabilities, production: Probabilities)

  /** `c_0minus` and `c_0hplus` of a block. */
  datatype Constants = Constants(minus: real, plus: real)

  /**
   * The decay block's constants. The block sets `process` to ZZINDEPENDENT just
   * before, so its test `process == TVar.ZZINDEPENDENT` always holds.
   */
  const DecayConstants: Constants := Constants(2.55497301342, 1.66326995046)

  /** The production block's constants, chosen by the process tag (lhe2root.py:437-449). */
  function ProductionConstants(process: Process): (c: Constants)
    ensures c.minus > 0.0 && c.plus > 0.0
    ensures process !in {HadZH, JJVBF, ZZGG} ==> c == Constants(1.0, 1.0)
  {
    match process
    case HadZH => Constants(0.104503154335, 0.130395173298)
    case JJVBF => Constants(0.297979440554, 0.271880048944)
    case ZZGG => Constants(2.55497301342, 1.66326995046)
    case _ => Constants(1.0, 1.0)
  }

  /** `num / (2 * x ** 0.5)`: ValueError for a negative `x`, ZeroDivisionError for zero. */
  function RootFailure(x: real): Option<Error> {
    if x < 0.0 then Some(NegativeRoot)
    else if x == 0.0 then Some(DivisionByZero)
    else None
  }

  /** The first exception of `D0minus`, `D0hplus`, `DCP` and `Dint`, in that order. */
  function DiscriminantFailure(c: Constants, p: Probabilities): Option<Error> {
    if p.pg1 + c.minus * c.minus * p.pg4 == 0.0 then Some(DivisionByZero)
    else if p.pg1 + c.plus * c.plus * p.pg2 == 0.0 then Some(DivisionByZero)
    else if RootFailure(p.pg1 * p.pg4).Some? then RootFailure(p.pg1 * p.pg4)
    else RootFailure(p.pg1 * p.pg2)
  }

  /** With three positive probabilities the four discriminants are all defined. */
  lemma PositiveProbabilitiesPass(c: Constants, p: Probabilities)
    requires p.pg1 > 0.0 && p.pg2 > 0.0 && p.pg4 > 0.0
    ensures DiscriminantFailure(c, p).None?
  {
    assert c.minus * c.minus * p.pg4 >= 0.0 && c.plus * c.plus * p.pg2 >= 0.0;
    assert p.pg1 * p.pg4 > 0.0 && p.pg1 * p.pg2 > 0.0;
  }

  /** An event the engine gives `pg1 == 0` raises ZeroDivisionError, whatever the other results. */
  lemma ZeroScalarRaises(c: Constants, p: Probabilities)
    requires p.pg1 == 0.0
    ensures DiscriminantFailure(c, p) == Some(DivisionByZero)
  {
    assert p.pg1 * p.pg4 == 0.0;
  }

  /**
   * For non-negative probabilities and non-zero constants, the block raises
   * exactly when one of `pg1`, `pg2`, `pg4` is zero, and then always with
   * ZeroDivisionError.
   */
  lemma NonNegativeFailsIffZero(c: Constants, p: Probabilities)
    requires c.minus != 0.0 && c.plus != 0.0
    requires p.pg1 >= 0.0 && p.pg2 >= 0.0 && p.pg4 >= 0.0
    ensures DiscriminantFailure(c, p).Some? <==> p.pg1 == 0.0 || p.pg2 == 0.0 || p.pg4 == 0.0
    ensures DiscriminantFailure(c, p).Some? ==> DiscriminantFailure(c, p) == Some(DivisionByZero)
  {
    if p.pg1 == 0.0 {
      ZeroScalarRaises(c, p);
    } else if p.pg2 == 0.0 || p.pg4 == 0.0 {
      assert p.pg1 * p.pg4 >= 0.0 && p.pg1 * p.pg2 >= 0.0;
      assert p.pg1 * p.pg4 == 0.0 || p.pg1 * p.pg2 == 0.0;
    } else {
      PositiveProbabilitiesPass(c, p);
    }
  }

  /** A negative product under the square root raises ValueError once the two divisions before it passed. */
  lemma NegativeProductRaises(c: Constants, p: Probabilities)
    requires p.pg1 + c.minus * c.minus * p.pg4 != 0.0 && p.pg1 + c.plus * c.plus * p.pg2 != 0.0
    requires p.pg1 * p.pg4 < 0.0
    ensures DiscriminantFailure(c, p) == Some(NegativeRoot)
  {
  }
}
