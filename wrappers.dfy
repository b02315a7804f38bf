/** Option and Result, the two failure-carrying wrappers used throughout the model. */
module Wrappers {

  datatype Option<+T> = None | Some(value: T)

  /** A computation that either produced a value or raised an exception. */
  datatype Result<+T, +E> = Ok(value: T) | Err(error: E)
}

/**
 * The exceptions the two converter scripts raise, one constructor per raise site
 * or implicit Python failure (a bad int() or float(), an unpack of the wrong arity,
 * an index out of range, a name read before it is bound).
 */
module PyErrors {

  datatype Error =
    /** float() of a text that is not a float literal (ValueError) */
    | NotAFloat(text: string)
    /** int() of a text that is not a decimal integer (ValueError) */
    | NotAnInt(text: string)
    /** lines[0] of an event block with no particle lines at all (IndexError) */
    | EmptyBlock
    /** the header line does not split into exactly six tokens (ValueError on unpack) */
    | HeaderArity(found: nat)
    /** "Wrong number of particles! Should be {}, have {}" (ValueError) */
    | WrongParticleCount(declared: int, found: nat)
    /** a particle line with fewer than four tokens (ValueError on unpack) */
    | ShortParticleLine(found: nat)
    /** "Wrong number of daughters (expected {}, found {})" (ValueError) */
    | WrongDaughterCount(expected: nat, found: nat)
    /** "{} mothers in the event??" (ValueError) */
    | WrongMotherCount(found: nat)
    /** `abs(id) in (25)`: membership test against an int (TypeError) */
    | MembershipInInt
    /** `flav4l = flav4l*abs(id)` before flav4l is bound (UnboundLocalError) */
    | UnboundFlav4l
    /** subscript of a list, vector or array out of range (IndexError) */
    | IndexOutOfRange(index: int, length: nat)
    /** `process` read before any dispatch rule ever bound it (NameError) */
    | UndefinedProcess
    /** `branches[key]` for an output branch that was never declared (KeyError) */
    | MissingKey(key: string)
    /** the progress message reads the loop index `i` after a file that yielded no event (NameError) */
    | UnboundEventIndex
    /** `event.ghz4 = g4` in a mode that never bound the coupling `g4` (NameError) */
    | UnboundCoupling
    /** `InputEvent(...)`: a name neither defined nor imported by the script (NameError) */
    | UndefinedEventRecord
    /** a discriminant whose denominator is zero (ZeroDivisionError) */
    | DivisionByZero
    /** `x ** 0.5` of a negative float (ValueError in Python 2) */
    | NegativeRoot
}
