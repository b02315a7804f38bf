/**
 * What both converter scripts share around their event loops: the state an
 * event changes, the run of one file's events and the run of all input
 * files, each stopping at the first exception.
 */
module Runs {
  import opened Wrappers
  import opened PyErrors
  import opened Dispatch
  import opened Branches

  /** Everything an event can change: the process tag, the buffers, the weights array, the engine calls and the tree. */
  datatype ConverterState = ConverterState(process: Option<Process>, scalars: Buffers,
                                           slots: seq<Value>, calls: seq<Call>, rows: seq<Row>)

  /** What one event does to a state, or the exception it raises. */
  type StepFunction<-E> = (ConverterState, E) -> Result<ConverterState, Error>

  /** How many of a file's `n` events the loop reaches when it leaves after `cap` events, if it does. */
  function Taken(cap: Option<nat>, n: nat): (k: nat)
    ensures k <= n
    ensures cap.Some? ==> k <= cap.value
    ensures k == n || (cap.Some? && k == cap.value)
  {
    if cap.Some? && n > cap.value then cap.value else n
  }

  /** The events of one file, in order, stopping at the first error. */
  ghost function Run<E>(step: StepFunction<E>, s: ConverterState, events: seq<E>): Result<ConverterState, Error>
    decreases |events|
  {
    if events == [] then Ok(s)
    else
      var before := Run(step, s, events[..|events| - 1]);
      if before.Err? then before else step(before.value, events[|events| - 1])
  }

  /** One more event: the run of a longer prefix is the step after the shorter one. */
  lemma RunAppends<E>(step: StepFunction<E>, s: ConverterState, events: seq<E>, i: nat)
    requires i < |events|
    ensures Run(step, s, events[..i + 1]) ==
      (var before := Run(step, s, events[..i]);
       if before.Err? then before else step(before.value, events[i]))
  {
    assert events[..i + 1][..i] == events[..i];
  }

  /** Once some prefix of the events raised, so do all longer runs, with the same error. */
  lemma {:induction false} RunKeepsError<E>(step: StepFunction<E>, s: ConverterState, events: seq<E>, k: nat)
    requires k <= |events|
    requires Run(step, s, events[..k]).Err?
    ensures Run(step, s, events) == Run(step, s, events[..k])
    decreases |events| - k
  {
    if k < |events| {
      assert events[..k + 1][..k] == events[..k];
      RunKeepsError(step, s, events, k + 1);
    } else {
      assert events[..k] == events;
    }
  }

  /**
   * All input files in order, each cut after its first `cap` events. The
   * progress message after a file's loop reads the loop index, which an
   * empty first file never bound.
   */
  ghost function RunFiles<E>(step: StepFunction<E>, cap: Option<nat>, s: ConverterState, files: seq<seq<E>>): Result<ConverterState, Error>
    decreases |files|
  {
    if files == [] then Ok(s)
    else
      var before := RunFiles(step, cap, s, files[..|files| - 1]);
      var last := files[|files| - 1];
      if before.Err? then before
      else if |files| == 1 && last == [] then Err(UnboundEventIndex)
      else Run(step, before.value, last[..Taken(cap, |last|)])
  }

  /** Once the files up to some point raised, so does the whole run, with the same error. */
  lemma {:induction false} RunFilesKeepsError<E>(step: StepFunction<E>, cap: Option<nat>, s: ConverterState,
                                                 files: seq<seq<E>>, k: nat)
    requires k <= |files|
    requires RunFiles(step, cap, s, files[..k]).Err?
    ensures RunFiles(step, cap, s, files) == RunFiles(step, cap, s, files[..k])
    decreases |files| - k
  {
    if k < |files| {
      assert files[..k + 1][..k] == files[..k];
      RunFilesKeepsError(step, cap, s, files, k + 1);
    } else {
      assert files[..k] == files;
    }
  }

  /**
   * An empty first file raises NameError at the progress message, before any
   * other file is read; an empty file after the first changes nothing.
   */
  lemma EmptyFileIndex<E>(step: StepFunction<E>, cap: Option<nat>, s: ConverterState, files: seq<seq<E>>)
    ensures RunFiles(step, cap, s, [[]] + files) == Err(UnboundEventIndex)
    ensures files != [] ==> RunFiles(step, cap, s, files + [[]]) == RunFiles(step, cap, s, files)
  {
    RunFilesKeepsError(step, cap, s, [[]] + files, 1);
    assert ([[]] + files)[..1] == [[]];
    assert (files + [[]])[..|files|] == files;
  }

  /** The number of events the loops reach over all files. */
  function TotalTaken<E>(cap: Option<nat>, files: seq<seq<E>>): (n: nat)
    ensures cap.Some? ==> n <= |files| * cap.value
  {
    if files == [] then 0 else TotalTaken(cap, files[..|files| - 1]) + Taken(cap, |files[|files| - 1]|)
  }
}
