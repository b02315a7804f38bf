# LHE to ROOT conversion: a verified model

This project models the core of two Python 2 converter scripts,
`lhe2root.py` and `lhe2rootggH.py`. They read Les Houches Event (LHE) text
files and write one flat tree entry per event. The project also models the
MadGraph diagram filter `remove_diag` in `MadGraph_Filters/user_filter_VH.py`.

What is modelled:

- **Tokenizer** (`tokenizer.dfy`, `LHEEvent.__init__`, the same in both
  scripts). The `<wgt id='…'>…</wgt>` lines fill the named-weight
  dictionary. Tag and comment lines are dropped. The header gives the
  particle count and the event weight, and the count is checked against the
  number of particle lines.
- **Classifier** (`classifier.dfy`, `extracteventparticles`). Each particle
  line becomes a mother (status -1) or a daughter. `lhe2root.py` takes the
  Higgs boson (id 25) as the daughter. `lhe2rootggH.py` takes four leptons
  or quarks. At detector level, jet ids are blinded to `0`. The daughter
  and mother counts are checked. Both scripts' classifiers raise on every
  input as written (see Findings). The model keeps those as-written
  versions and the corrected ones side by side.
- **FSR photon merge** (`fsr.dfy`, class `MelaEvent`). In zh_lep_hawk mode,
  the HAWK merge adds each associated photon to the closest non-photon
  associated entry, after `pop_back()` has removed the last entry. In
  ggH4l mode with `--merge_photon`, each associated photon is added to the
  closest daughter. The nearest-neighbour scan keeps the first strict
  minimum below the 9999 sentinel. Delta R is a parameter.
- **Process dispatch** (`dispatch.dfy`). The `TVar` tag is chosen from the
  mode and the flavour of the *last* associated particle. When no rule
  fires, the value left by the previous event carries over.
- **Event loops** (`event_loop.dfy` for `lhe2root.py`, `ggh_loop.dfy` for
  `lhe2rootggH.py`, with the shared run folds in `runs.dfy`). Each is a
  class whose fields are the process tag, the branch buffers, the 30-slot
  weights array (`weights_array.dfy`), the engine calls made so far and the
  filled tree entries. `lhe2root.py` stops after the event with index
  10000 of each file. A failure ends the run with the exception raised.
- **VH diagram filter** (`vh_filter.dfy`, `remove_diag`). These are its
  three early-return loops over the vertices of a diagram.

Supporting modules model the Python built-ins the core relies on:

- `pytext.dfy`: `split("\n")`, `split()`, `split("#")[0]` and `replace(…, 1)`;
- `pynum.dfy`: `int()`, `str()` and the literals `float()` accepts;
- `lexicon.dfy`: Python 2 string order and `sorted()`;
- `branches.dfy`: the output branches and their buffers.

Behaviour that is easy to misread, where the model follows the code:

- The dispatch of lhe2root.py:225-246 ("Automatically detect Had or Lep
  associated") looks at the *last* associated particle, not the first.
- The comment at lhe2root.py:257-259 says the photon "is deleted" for HAWK.
  The HAWK merge in fact removes the *last* associated entry, whichever entry
  the photon was. Take `[photon, A, B]` with A closest: it gives
  `[photon, A+photon]`, not `[A+photon, B]`.
- The same comment says the photon is merged "to the closest lepton". The
  ggH4l merge looks for the photons in the associated list and the closest
  entry among the daughters, so it crosses collections. It also leaves the
  photon in place, as the comment says.
- A photon with no eligible entry raises no error when entry 0 exists (for
  HAWK, after the last entry was removed). Entry 0 is then replaced by the
  zero vector plus the photon, so its own momentum is lost. With no entry 0
  the merge raises IndexError: HAWK with the photon as the only associated
  entry, or ggH4l with no daughters.
- The comment at lhe2root.py:109 speaks of jets. Jet-id blinding in fact
  applies to every line at detector level, mothers included.
- `lhe2root.py` never checks the daughter count.
- Neither script defines or imports `InputEvent`, which the event
  constructor calls at its last line (see Findings).
- Each probability block of `lhe2root.py` ends with four discriminants that
  divide by the engine's probabilities. A zero denominator, a zero `pg1*pg4`
  or `pg1*pg2`, or signs that make one of those products negative raise
  ZeroDivisionError or ValueError there (`discriminants.dfy`). A zero `pg1`
  always raises; three negative probabilities raise nothing.

## Model

| member | source | states |
|---|---|---|
| Tokenizer.ValueRun | lhe2root.py:80 | the value group `[0-9+Ee.-]*` is the longest run of value characters: all characters in it belong to the class, and the one after it does not |
| Tokenizer.LastNameEndMeaning | lhe2root.py:80 | the greedy `(.*)` name ends at the largest position from which the rest of the pattern matches; no larger position matches; with no match, no position matches at all |
| Tokenizer.WgtMatchShape | lhe2root.py:80 | a matched name never spans a line break, and a matched value holds only characters of the value class |
| Tokenizer.WgtMatchRoundTrip | lhe2root.py:80-81 | a well-formed weight line, `<wgt id='NAME'>VALUE</wgt>`, is matched back into exactly NAME and VALUE, even when NAME contains `'>`, provided no quote follows |
| Tokenizer.WgtMatchStartsWithPrefix | lhe2root.py:79-80 | a line the pattern matches contains `<wgt`, so the `"<wgt" not in line` shortcut never skips a match |
| Tokenizer.CollectWeights | lhe2root.py:77-81 | the weights loop yields the dictionary `WeightsOf(lines)`, or the ValueError of the first value `float()` rejects |
| Tokenizer.WeightsLastWins | lhe2root.py:79-81 | every stored weight comes from a matching line with that name, and no later line matches with the same name: a repeated name keeps its last value |
| Tokenizer.WeightsComplete | lhe2root.py:79-81 | every line that matches contributes its name to the dictionary |
| Tokenizer.BodyLines | lhe2root.py:82 | the filter keeps only lines without `<`, `>` or an empty pre-comment part, and each kept line is an input line |
| Tokenizer.BodyLinesAppend | lhe2root.py:82 | the filter works line by line and keeps input order: filtering a concatenation is the concatenation of the filtered parts |
| Tokenizer.BodyLinesKeepsAll | lhe2root.py:82 | a list of particle lines passes the filter unchanged |
| Tokenizer.BodyLinesDropsTag | lhe2root.py:82 | any line containing `<` or `>` is dropped |
| Tokenizer.ParticleLines | lhe2root.py:82 | the list comprehension, as a loop, computes exactly the filtered lines |
| Tokenizer.ParseHeader | lhe2root.py:83-86 | the header is accepted iff it has exactly six tokens, `int()` accepts the first and `float()` the third; the count and weight are those tokens; any other token count raises the unpack ValueError with that count |
| Tokenizer.Tokenize | lhe2root.py:75-88 | an accepted block's particle lines all pass the filter |
| Tokenizer.TokenizeCount | lhe2root.py:85-88 | once a block is accepted, its header's declared count equals the number of particle lines |
| Tokenizer.CountMismatchRaises | lhe2root.py:87-88 | a declared count that differs from the number of particle lines raises ValueError naming both numbers |
| Tokenizer.ReadEvent | lhe2root.py:74-92 | the corrected constructor builds an event iff the block is accepted and classified; the event holds the block's weights, its header weight and the classifier's result; otherwise the first error, tokenizer before classifier, is the result |
| Tokenizer.ReadEventAsWrittenNeverSucceeds | lhe2root.py:74-92 | as written the constructor never builds an event: it raises the tokenizer's or the classifier's error, and any block the corrected classifier accepts raises NameError for `InputEvent` at line 92 |
| Tokenizer.TokenizeBlock | lhe2root.py:75-88 | the constructor's steps before classification compute `Tokenize` |
| Tokenizer.ParseEvent | lhe2root.py:74-92 | the constructor computes `ReadEvent` |
| Tokenizer.SplitEventText | lhe2root.py:75 | splitting an event text on newlines gives back its tag, header and particle lines |
| Tokenizer.EventWeights | lhe2root.py:77-81 | a block without tag characters has an empty weights dictionary |
| Tokenizer.EventBody | lhe2root.py:82 | of a whole event text, only the header and the particle lines pass the filter |
| Tokenizer.HeaderRoundTrip | lhe2root.py:83-86 | a header printed from a count, a weight literal and four other tokens is read back as that count and weight |
| Tokenizer.EventBlock | lhe2root.py:75-88 | a block with a header and particle lines is accepted with the header weight and exactly those lines iff the declared count equals the number of lines; otherwise it raises the count ValueError |
| Classifier.ParseInts | lhe2root.py:107 | reading the four columns with `int()` gives one value per token |
| Classifier.ParseIntsMeaning | lhe2root.py:107 | the values are `int()` of each token, the read succeeds iff every token is an integer literal, and an error names a token `int()` rejects |
| Classifier.ParseFieldsMeaning | lhe2root.py:107 | a line is accepted iff it has at least four tokens and all four are integer literals; the fields are their values |
| Classifier.ParseAll | lhe2rootggH.py:95-96 | a successful read keeps every line's text, in order |
| Classifier.ParseAllMeaning | lhe2rootggH.py:95-96 | reading succeeds iff every line parses, and then carries each line's own fields; otherwise the error is that of the first bad line |
| Classifier.ParseAllPersists | lhe2rootggH.py:95-96 | once a prefix of the lines fails to parse, the whole event fails with the same error |
| Classifier.ParseAllStep | lhe2rootggH.py:95-96 | reading one more line either appends that line's fields or fails with that line's error |
| Classifier.Extract | lhe2rootggH.py:92-119 | the corrected classifier never collects associated particles; it returns mothers iff generator level, and then exactly two; with the four-fermion rules it returns exactly four daughters; a line that does not parse is the error |
| Classifier.ExtractEventParticles | lhe2rootggH.py:92-119 | the loop that appends each line to its role's list computes `Extract` |
| Classifier.PickStep | lhe2rootggH.py:99-102 | one more line adds its stored text to a role's list exactly when it takes the role |
| Classifier.PickExactly | lhe2rootggH.py:99-102 | a role's list holds exactly the lines that satisfy the role's rule, in increasing input order, each in its stored (blinded) form |
| Classifier.PickAppend | lhe2rootggH.py:99-102 | picking from two stretches of lines picks from each in turn |
| Classifier.PickAll | lhe2rootggH.py:99-102 | when every line takes the role, every line is kept in order |
| Classifier.PickNone | lhe2rootggH.py:99-102 | when no line takes the role, the list stays empty |
| Classifier.ExtractSucceedsIff | lhe2rootggH.py:111-116 | the classifier fails exactly on a bad line, on a daughter count other than four (four-fermion rules only) or on a mother count other than two |
| Classifier.DaughterCountCheckedFirst | lhe2rootggH.py:111-116 | with the four-fermion rules, a daughter-count error is raised before a mother-count error |
| Classifier.TopAndGluonNeverDaughters | lhe2rootggH.py:97-102 | ids 6 and 21 are blinded at detector level but are never daughters under either rule set |
| Classifier.ParseParticleLine | lhe2root.py:107 | a particle line printed from four integers and further tokens reads back as those four integers |
| Classifier.BlindCanonicalJetLine | lhe2root.py:108-109 | blinding rewrites only the first occurrence of a jet id, the id column, to `0`, and keeps the rest of the line even where the same digits recur |
| Classifier.StoredKeepsNonJets | lhe2root.py:108-109 | non-jet lines, and every line at generator level, are stored unchanged |
| Classifier.FourLeptonEvent | lhe2rootggH.py:92-119 | two incoming partons and four outgoing leptons give the four leptons as daughters in input order, no associated particle, and the two mothers (unchanged) only at generator level |
| Classifier.HiggsEvent | lhe2root.py:103-136 | with the corrected Higgs rule, two partons and one outgoing Higgs give that Higgs line as the single daughter |
| Classifier.AsWrittenNeverSucceeds | lhe2rootggH.py:101-103 | as written, neither script's classifier ever returns a result: every input raises |
| Classifier.NoFailureAsWritten | lhe2rootggH.py:101-103 | as written, the loop passes all lines only when every line parses, no line is a daughter and, for the Higgs rules, there are no lines |
| Classifier.HiggsAsWrittenRaisesTypeError | lhe2root.py:113 | as written, an event whose first line parses raises the TypeError of `abs(id) in (25)` |
| Classifier.FirstLineFailsAsWritten | lhe2root.py:106-113 | as written under the Higgs rules, the first line that parses already raises the TypeError |
| FsrMerge.ScanPrefix | lhe2root.py:276-286 | the scan's chosen index is an entry of the collection, or the default 0 |
| FsrMerge.ScanIsFirstMinimum | lhe2root.py:269-286 | the scan picks the first eligible entry with the strictly smallest distance below 9999 and copies its momentum; with no such entry it keeps index 0 and the zero vector |
| FsrMerge.ClosestCandidate | lhe2root.py:276-286 | the nearest-neighbour loop returns the index and momentum that `Closest` specifies |
| FsrMerge.HawkStep | lhe2root.py:287-289 | a HAWK merge that succeeds shortens the associated list by one |
| FsrMerge.HawkStepChanges | lhe2root.py:287-289 | a HAWK merge succeeds iff the chosen entry is not the removed last one; it then sets that entry's momentum to the copied momentum plus the photon's and leaves every other surviving entry untouched |
| FsrMerge.HawkPhotonLastMerges | lhe2root.py:262-292 | when the photon is the last entry and the closest lepton precedes it, the photon is removed and its momentum is added to that lepton |
| FsrMerge.HawkSkipsTo | lhe2root.py:264-267 | non-photon entries are skipped without any change |
| FsrMerge.FallbackToFirst | lhe2root.py:276-289 | a photon with no eligible entry within the sentinel lands on entry 0, as the zero vector plus the photon |
| FsrMerge.ProphecyStep | lhe2root.py:311-323 | a ggH4l merge keeps the number of daughters |
| FsrMerge.ProphecyPrefix | lhe2root.py:299-323 | merging every photon keeps the number of daughters |
| FsrMerge.ProphecyStepChanges | lhe2root.py:311-323 | a ggH4l merge fails only when there are no daughters; otherwise it changes exactly the first-closest daughter, to the copied momentum plus the photon's |
| FsrMerge.ProphecyKeepsIds | lhe2root.py:297-326 | the ggH4l merge never changes an id, only momenta |
| FsrMerge.ProphecyErrorPersists | lhe2root.py:297-326 | once a merge has failed, later photons do not change the error |
| FsrMerge.MelaEvent.constructor | lhe2root.py:50-55 | the event holds the given daughter and associated collections |
| FsrMerge.MelaEvent.MergeHawk | lhe2root.py:262-292 | the in-place HAWK block leaves the daughters alone; the associated list becomes `HawkFrom` of the old one, or the block reports its error |
| FsrMerge.MelaEvent.MergeProphecy | lhe2root.py:297-326 | the in-place ggH4l block leaves the associated list alone; the daughters become the merge of every associated photon, or the block reports its error |
| Dispatch.AssociatedFlavour | lhe2root.py:225-228 | the loop leaves `associated_flavor` at the absolute id of the last associated particle, or 0 without any |
| Dispatch.NextProcess | lhe2root.py:229-246 | when a rule fires for the mode and flavour, `process` is that rule's tag; otherwise it is the previous event's value |
| Dispatch.CarriedValueShowsThroughIff | lhe2root.py:229-246 | a rule fires iff the previous value cannot show through |
| Dispatch.OnlyMadGraphNeverAssigns | lhe2root.py:229-246 | ggH4lMG is the one mode for which no rule ever fires |
| Dispatch.ZZIndependentCarriesOver | lhe2root.py:229-238 | in zh and wh modes, a last associated particle that is a photon or gluon, or no associated particle at all, keeps the previous tag, ZZINDEPENDENT included |
| Dispatch.GgHProcess | lhe2rootggH.py:196-201 | zh, wh and vbf choose the tag `lhe2root.py` gives a hadronic associated boson; the ggH modes keep the previous value |
| WeightsArray.ValuesInOrder | lhe2root.py:580-582 | `list_weights` holds the value of each name, in the order of the names |
| WeightsArray.FillWeights | lhe2root.py:578-584 | the in-place fill of the 30-slot array leaves it as `AfterFill` of its old contents, or reports the IndexError of slot 30 |
| WeightsArray.SlotsFollowSortedNames | lhe2root.py:579-584 | for any strictly increasing listing of the names, slot `j` holds the `j`-th name's weight and later slots keep their contents |
| WeightsArray.FillFailsIffTooMany | lhe2root.py:583-584 | the fill raises iff there are more than 30 named weights |
| WeightsArray.SmallerNameEarlierSlot | lhe2root.py:579-584 | two weights whose names are in increasing order land in increasing slots, each holding its own weight |
| Lexicon.LessIrreflexive | lhe2root.py:579 | no string sorts before itself |
| Lexicon.LessTransitive | lhe2root.py:579 | the string order is transitive |
| Lexicon.LessTotal | lhe2root.py:579 | any two distinct strings are ordered one way or the other |
| Lexicon.Insert | lhe2root.py:579 | inserting a new name into a strictly sorted list keeps it strictly sorted, adds one element, and adds exactly that name |
| Lexicon.LeastExists | lhe2root.py:579 | every non-empty set of names has a least element |
| Lexicon.LeastIsUnique | lhe2root.py:579 | a set has only one least element |
| Lexicon.SortedKeysListsKeys | lhe2root.py:579 | the sorted listing is strictly increasing and holds exactly the names of the set |
| Lexicon.SortedNames | lhe2root.py:579 | `sorted(d)` lists every name of the dictionary once, in increasing order |
| Lexicon.SortedIsUnique | lhe2root.py:579 | two strictly sorted lists of the same names are equal, so the order of `sorted` depends only on the names |
| Runs.Taken | lhe2root.py:215-219 | the loop reaches every event of a file, or exactly `cap` of them when it leaves early |
| Runs.RunAppends | lhe2root.py:215-589 | running one more event applies the step to the state the shorter run left, unless that run raised |
| Runs.RunKeepsError | lhe2root.py:215-589 | once an event raises, so does the whole file, with the same error |
| Runs.RunFilesKeepsError | lhe2root.py:199-590 | once a file raises, so does the whole run, with the same error |
| Runs.EmptyFileIndex | lhe2root.py:590 | an empty first file raises NameError at the progress message before any other file is read; an empty later file changes nothing |
| Runs.TotalTaken | lhe2root.py:215-219 | with a cap, no file contributes more than the cap |
| Branches.Lookup | lhe2root.py:176-183 | a branch has a buffer iff its group was declared |
| EventLoop.WritesAreDeclared | lhe2root.py:149-176 | every branch an event writes was declared in that run, so no write raises KeyError |
| EventLoop.NeverWritten | lhe2root.py:149-176 | the bookkeeping branches, and the z-gamma probabilities when declared, are never written and keep their initial 0 |
| EventLoop.StepHoldsDeclared | lhe2root.py:331-589 | an event that raises nothing neither adds nor drops a branch, in the buffers or in any filled entry |
| EventLoop.RunHoldsDeclared | lhe2root.py:215-589 | over a file, the buffers and every entry keep exactly the declared branches |
| EventLoop.RunFilesHoldsDeclared | lhe2root.py:199-590 | over all input files, starting from the buffers as created, every entry holds exactly the declared branches |
| EventLoop.ProbabilitiesWrittenMeaning | lhe2root.py:331-456 | the probability blocks set their outputs, when enabled, and leave every other branch alone |
| EventLoop.AnglesWrittenMeaning | lhe2root.py:474-498 | the angle block sets exactly the branches its mode routes and leaves every other branch alone |
| EventLoop.WithDaughtersMeaning | lhe2root.py:518-551 | the daughter copy sets the daughter momenta and the four ids and leaves every other branch alone |
| EventLoop.HeadWrittenMeaning | lhe2root.py:500-551 | the Higgs or photon copy and the daughter copy set their branches and leave every other branch alone |
| EventLoop.MomentaWrittenMeaning | lhe2root.py:500-576 | the momentum copies set their branches, copy the ids, and leave every other branch alone |
| EventLoop.ScalarsAfterComputed | lhe2root.py:331-576 | every branch an event computes holds a value computed by that event |
| EventLoop.ComputedNotCopied | lhe2root.py:518-587 | no branch is both computed and copied by an event |
| EventLoop.ScalarsAfterCopied | lhe2root.py:518-587 | `flavdau1`..`flavdau4` hold the four daughters' ids, and `weight` the event weight unless the mode writes the weights array |
| EventLoop.ScalarsAfterKeepsOthers | lhe2root.py:331-587 | a branch the event neither computes nor copies keeps what an earlier event left in it |
| EventLoop.StepFailsOnRouting | lhe2root.py:331-576 | after a successful merge, the event raises the first error of the probability, angle and momentum blocks, in statement order |
| EventLoop.StepFillsEntry | lhe2root.py:578-589 | after a successful merge and routing, the event ends with the weight or the weights array and one new tree entry |
| EventLoop.StepFailsIff | lhe2root.py:218-589 | an event raises iff a merge fails, a routing block raises (a discriminant with a zero denominator or a zero or negative product under `** 0.5`, an unbound tag, a short collection), or a ggH4lMG event has more than 30 named weights |
| EventLoop.ZeroDecayProbabilityRaises | lhe2root.py:336-371 | with decay probabilities on, an event whose decay-block `pg1` is 0 raises ZeroDivisionError |
| EventLoop.PositiveProbabilitiesOnlyUnboundTag | lhe2root.py:331-456 | with positive engine probabilities, the probability blocks raise only the NameError of an unbound tag |
| EventLoop.StepAppendsRow | lhe2root.py:589 | an event that raises nothing appends exactly one entry: the buffers and the array as it left them |
| EventLoop.StepRecordsOriginalIds | lhe2root.py:518-551 | the ids written to `flavdau1`..`flavdau4` are those of the event's daughters: the photon merges change momenta, never ids |
| EventLoop.StepKeepsStalePhoton | lhe2root.py:501-562 | a ggH4l event without associated particles leaves the photon branches at the momentum of the last photon an earlier event wrote |
| EventLoop.DecayProbabilityOverridesTag | lhe2root.py:336 | with decay probabilities on, `process` is ZZINDEPENDENT after every event, whatever the dispatch chose, and the event's engine calls are those of that tag |
| EventLoop.EngineCallsUseTag | lhe2root.py:337-498 | every `setProcess` and `computeVHAngles` call of an event passes the same tag, which is ZZINDEPENDENT when decay probabilities are on |
| EventLoop.ProbabilityCallsUseTag | lhe2root.py:337-357 | the five `setProcess` calls of a probability block all pass its tag |
| EventLoop.UnboundTagIff | lhe2root.py:229-238 | in zh and wh modes without decay probabilities, an event raises NameError iff no event so far, this one included, had a quark or lepton as its last associated particle |
| EventLoop.RunAppendsRows | lhe2root.py:215-589 | a file that raises nothing appends one entry per event after the entries already there |
| EventLoop.RunFilesRowCount | lhe2root.py:199-590 | a run that raises nothing fills one tree entry per processed event, at most 10001 per file |
| EventLoop.Converter.constructor | lhe2root.py:149-196 | the buffers are created for exactly the declared branches, every branch and array slot holding 0, with `process` unbound and no entry |
| EventLoop.Converter.ConvertFiles | lhe2root.py:199-590 | converting the input files leaves the state that `RunFiles` specifies, or reports its error |
| EventLoop.Converter.ConvertFile | lhe2root.py:214-590 | converting one file processes the events up to the cap and leaves the state that `Run` specifies, or reports its error |
| EventLoop.Converter.ProcessEvent | lhe2root.py:218-589 | one loop iteration leaves the state that `Step` specifies, or reports its error |
| EventLoop.Converter.ProcessMerged | lhe2root.py:331-589 | the iteration after a successful merge completes `Step` from the event's starting state |
| EventLoop.Converter.MergePhotons | lhe2root.py:262-326 | the mode's merge yields the collections `Merged` specifies, or its error |
| EventLoop.Converter.Route | lhe2root.py:331-576 | the probability, angle and momentum blocks produce `RoutingFailure`'s error, or the buffers and engine calls of all three blocks in order |
| EventLoop.Converter.WriteProbabilities | lhe2root.py:331-456 | the probability blocks set `process` to ZZINDEPENDENT with decay probabilities on; they raise the decay block's discriminant error, then the NameError of an unbound tag, then the production block's discriminant error, and otherwise write their outputs and calls |
| EventLoop.Converter.WriteAngles | lhe2root.py:474-498 | the angle block raises for an unbound VH tag or a vbf event with fewer than two associated particles, and otherwise writes its mode's branches and calls |
| EventLoop.Converter.WriteMomenta | lhe2root.py:500-576 | the momentum copies raise IndexError with fewer than four daughters or two jets where the mode needs them, and otherwise write their branches |
| EventLoop.Converter.FillEntry | lhe2root.py:578-589 | the weight or the sorted weights array is written and exactly one entry is appended, or the array's IndexError is reported |
| GgHEventLoop.EntryKeepsGroups | lhe2rootggH.py:282-371 | the entry an event fills writes only declared branches |
| GgHEventLoop.EntryValues | lhe2rootggH.py:294-366 | the entry holds the decay angles and Higgs momentum the event computed, the daughters' ids, and the weight unless the weights array is written; `pg1` and `pg4` keep what they held |
| GgHEventLoop.StepHoldsDeclared | lhe2rootggH.py:180-371 | an event that raises nothing neither adds nor drops a branch, and leaves `pg1` at 0 |
| GgHEventLoop.RunHoldsDeclared | lhe2rootggH.py:182-371 | over a file, the declared branches stay, and `pg1` is 0 in every entry |
| GgHEventLoop.RunFilesHoldsDeclared | lhe2rootggH.py:180-372 | over all input files, `pg1` is 0 in every entry the tree ever gets |
| GgHEventLoop.SkipIff | lhe2rootggH.py:241-276 | because `pg1` is never computed, an event is skipped iff the engine's `pg4` is 0; a skipped event still makes the probability call and fills nothing |
| GgHEventLoop.StepGgH4lRaises | lhe2rootggH.py:269 | in ggH4l mode every event raises NameError for the never-bound `g4` |
| GgHEventLoop.RunGgH4lRaises | lhe2rootggH.py:169-176 | a ggH4l run of any non-empty file raises at its first event |
| GgHEventLoop.VhStepIff | lhe2rootggH.py:282-285 | in zh and wh modes, an event raises KeyError for the undeclared `mV` iff it is not skipped |
| GgHEventLoop.RunVhFillsNothing | lhe2rootggH.py:282-285 | a zh or wh file that raises nothing leaves the tree as it was |
| GgHEventLoop.StepFailsIff | lhe2rootggH.py:297-366 | in vbf and ggH4lMG modes, an event that is not skipped raises iff it has fewer than four daughters or, for ggH4lMG, more than 30 named weights |
| GgHEventLoop.StepFillsEntry | lhe2rootggH.py:282-371 | an event that is not skipped and raises nothing fills exactly one entry: `EntryScalars` of the buffers after `pg4`, plus the sorted weights array in ggH4lMG mode; its engine calls are the probability call and the mode's angle calls |
| GgHEventLoop.RunKeepsProcess | lhe2rootggH.py:196-201 | in ggH4lMG mode a run never changes `process` |
| GgHEventLoop.GgHConverter.constructor | lhe2rootggH.py:132-176 | the buffers are created for exactly the declared branches, all holding 0, with `process` unbound and no entry |
| GgHEventLoop.GgHConverter.ConvertFiles | lhe2rootggH.py:180-372 | converting the input files leaves the state that `RunFiles` specifies, without an event cap, or reports its error |
| GgHEventLoop.GgHConverter.ConvertFile | lhe2rootggH.py:182-372 | converting one file leaves the state that `Run` specifies, or reports its error |
| GgHEventLoop.GgHConverter.ProcessEvent | lhe2rootggH.py:184-371 | one loop iteration leaves the state that `Step` specifies, or reports its error |
| GgHEventLoop.GgHConverter.WriteAngles | lhe2rootggH.py:282-295 | the angle block makes its mode's calls and writes its branches; zh and wh raise KeyError for `mV` |
| GgHEventLoop.GgHConverter.WriteMomenta | lhe2rootggH.py:297-338 | the Higgs and daughter copies raise IndexError with fewer than four daughters, and otherwise write the momenta and the four ids |
| GgHEventLoop.GgHConverter.FillEntry | lhe2rootggH.py:360-371 | the weight or the sorted weights array is written and exactly one entry is appended, or the array's IndexError is reported |
| VhFilter.RemoveDiag | MadGraph_Filters/user_filter_VH.py:45-105 | the filter returns True iff some vertex has more than three lines, fires the ordered line scan, or joins a Higgs with a Z (or, switched off, with two photons) |
| VhFilter.ScanVertex | MadGraph_Filters/user_filter_VH.py:54-76 | the second loop's scan returns True iff some line is a lepton after a Higgs and a lepton, a light quark after a Higgs, a Higgs after a lepton, or a Z', new Higgs or new Z' |
| VhFilter.CouplingVertex | MadGraph_Filters/user_filter_VH.py:79-98 | the third loop returns True for HZZ and HZgamma vertices, and for Hgammagamma only when its switch is on |
| VhFilter.RemovedConcat | MadGraph_Filters/user_filter_VH.py:45-98 | the verdict is per vertex: a diagram of two parts is removed iff one of the parts is |
| VhFilter.RemovedIgnoresVertexOrder | MadGraph_Filters/user_filter_VH.py:45-98 | the order of the vertices never changes the verdict |
| VhFilter.FourLinesRemoved | MadGraph_Filters/user_filter_VH.py:45-47 | any vertex with more than three lines removes the diagram |
| VhFilter.ExoticRemoved | MadGraph_Filters/user_filter_VH.py:66-76 | a Z', new Higgs or new Z' line anywhere removes the diagram |
| VhFilter.HiggsZRemoved | MadGraph_Filters/user_filter_VH.py:90-95 | a vertex joining a Higgs and a Z removes the diagram, with or without a photon |
| VhFilter.HiggsPhotonKept | MadGraph_Filters/user_filter_VH.py:96-98 | a Higgs with a photon and no Z never fires the third loop, because the Hgammagamma switch is off |
| VhFilter.LeptonHiggsOrder | MadGraph_Filters/user_filter_VH.py:64-71 | the scan is order-sensitive: a lepton then a Higgs is removed, a Higgs then a lepton is not |
| VhFilter.QuarkHiggsOrder | MadGraph_Filters/user_filter_VH.py:62-63 | a light quark after a Higgs is removed, one before it is not |
| VhFilter.SecondLeptonAfterHiggs | MadGraph_Filters/user_filter_VH.py:59-60 | a lepton after a Higgs removes the diagram only when another lepton came before it |
| PyNum.NatToString | lhe2root.py:109 | `str(n)` of a non-negative integer is a non-empty string of digits |
| PyNum.IntRoundTrip | lhe2root.py:107-109 | `int(str(n)) == n` for every integer |
| PyNum.IntToStringSign | lhe2root.py:109 | `str(n)` starts with `-` iff `n` is negative |
| PyNum.IntLiteralIsFloatLiteral | lhe2root.py:85-86 | every token `int()` accepts, `float()` accepts too |
| PyNum.EmptyIsNotAFloat | lhe2root.py:81 | `float("")` raises, so a weight line with an empty value raises |
| PyText.SplitLines | lhe2root.py:75 | `split("\n")` gives at least one piece, and no piece contains a newline |
| PyText.JoinSplitLines | lhe2root.py:75 | joining the pieces with newlines gives the text back |
| PyText.SplitJoinLines | lhe2root.py:75 | splitting newline-free lines joined by newlines gives the same lines |
| PyText.Words | lhe2root.py:83 | `split()` yields only non-empty whitespace-free tokens |
| PyText.WordsOfJoinWords | lhe2root.py:83 | splitting single-space-joined tokens gives the tokens back |
| PyText.CharIndex | lhe2root.py:82 | the index is that of the first occurrence of the character, or the length when there is none |
| PyText.BeforeHash | lhe2root.py:82 | `split("#")[0]` is a prefix of the line without `#` |
| PyText.FindFrom | lhe2root.py:109 | the search finds the leftmost occurrence of the pattern at or after the start, or reports that there is none |
| PyText.ReplaceFirstAtStart | lhe2root.py:109 | a text that starts with the target has exactly that occurrence replaced, and later occurrences survive |
| PyText.ReplaceFirstAbsent | lhe2root.py:109 | where the target does not occur, `replace` leaves the text alone |
| Discriminants.ProductionConstants | lhe2root.py:437-449 | `c_0minus` and `c_0hplus` are positive, with their values for Had_ZH, JJVBF and ZZGG, and 1 for every other tag |
| Discriminants.PositiveProbabilitiesPass | lhe2root.py:371-374 | with `pg1`, `pg2` and `pg4` positive, none of the four discriminants raises |
| Discriminants.ZeroScalarRaises | lhe2root.py:371-374 | `pg1 == 0` raises ZeroDivisionError, whatever `pg2` and `pg4` are |
| Discriminants.NonNegativeFailsIffZero | lhe2root.py:371-374 | for non-negative probabilities a block raises iff one of `pg1`, `pg2`, `pg4` is 0, and then with ZeroDivisionError |
| Discriminants.NegativeProductRaises | lhe2root.py:373 | a negative `pg1*pg4` under `** 0.5` raises ValueError once both divisions before it passed |

## Left out

- Four-vectors are exact reals with componentwise addition. `SetPtEtaPhiM`
  round trips, floating-point rounding and `float32` storage are not modelled.
- Delta R is a parameter `dr`, because the angular distance is a floating-point
  formula.
- The matrix-element engine is foreign code. Its calls are recorded in order
  with their tags. Their results are abstract values: `Computed(row)` is a
  number computed by the event filling entry `row`. Whether `computeP()`
  returns 0 in `lhe2rootggH.py` is an input of each event, and so are the
  `pg1`, `pg2` and `pg4` of each probability block in `lhe2root.py`.
- `setInputEvent` and the conversion of particle lines into
  `SimpleParticleCollection_t` are foreign calls. They are not modelled.
- The LHE file reader classes (`LHEFile_*`) are not part of this model. They
  cut the input into event blocks, so the event loops take each file as a
  sequence of already-read events.
- Command-line parsing, the existence checks on the files, opening and
  writing the ROOT file, `print`, and deleting the output after an error are
  left out. They are I/O. The model ends a run with the exception raised and
  says nothing about the state after it.
- The values of the discriminants (`D0minus`, `DCP`, …) and the sums inside
  the angle and momentum blocks are left out. They are floating-point
  formulas. Only which branches an event writes, and when, is modelled, and
  the exceptions the discriminants raise for the engine's `pg1`, `pg2` and
  `pg4`, which are inputs of each event.
- EventLoop.StepFailsIff: assumes that every call to `computeVHAngles`
  returns as many values as its call site unpacks. `lhe2root.py:475` unpacks
  seven values and `lhe2rootggH.py:284` five, so one of the two raises an
  unpack ValueError with any one engine version. The engine is not part of
  this model.
- EventLoop.Converter.WriteProbabilities: the discriminants raise from the
  engine's probabilities, which are event inputs. Which values the engine
  returns for an event is not modelled.
- GgHEventLoop.VhStepIff: makes the same assumption about `computeVHAngles`.
  If the engine returns seven values, a zh or wh event that is not skipped
  raises the unpack ValueError at lhe2rootggH.py:284 before the `mV`
  KeyError.
- Tokenizer.ReadEvent: builds the event record that lhe2root.py:92 and
  lhe2rootggH.py:81 fail to build. As written, `InputEvent` is undefined and
  raises NameError (`ReadEventAsWritten`, see Findings). The event loops
  read their events through the `lhefile` classes instead, which are not part
  of this model. The model of the constructor stops at the classifier's result.
- Tokenizer.ParseEvent: computes the corrected `ReadEvent`, so it too
  succeeds where line 92 as written raises NameError.
- Tokenizer.CollectWeights: weight values are kept as their text. `float()`
  is checked for acceptance, but the value it would produce is not computed.
- The regular expression is modelled for the one pattern the scripts use, as
  the greedy match of `re.match`. Python's general regex engine is left out.
- The `flav4l` products in both event loops (lhe2root.py:253-255,
  lhe2rootggH.py:206-209) are left out. Nothing reads them.
- The test `event.daughters == 0` (lhe2rootggH.py:189-190) compares a
  collection with an integer. It is never true, so it is left out.
- The `Event` wrapper that forwards attributes to the engine object
  (lhe2root.py:50-68) is left out. Its attributes are the fields of the
  modelled event.
- The loops over `branchnames_int` run over an empty tuple, so their
  undefined `names` is never read. They are left out.
- FsrMerge.MelaEvent.MergeHawk: the HAWK loop removes entries while
  `enumerate` walks the same C++ vector. This is modelled as an index walk
  that re-reads the length at each step. Iterator invalidation beyond that is
  not captured.
- The blocks of code inside string literals are left out. They are never
  executed. This covers the za probabilities in lhe2root.py:410-433 and the
  jets in lhe2rootggH.py:343-359.
- In `remove_diag`, building the diagram (`FeynmanDiagram`, `load_diagram`,
  `define_level`) and `_debug_level` belong to the MadGraph library. A
  diagram is given directly as its vertices' lists of PDG ids.
- Branch buffers are kept per group of branches that are always written
  together (`Branches.Lookup` gives the per-branch view). Values written to
  the same group by one event are not told apart.

## Findings

| source | as written | input that shows it | evidently intended | confidence | as-written member | corrected member |
|---|---|---|---|---|---|---|
| lhe2root.py:113 | `abs(id) in (25)` tests membership in the integer 25. This raises TypeError for every line that parses, and `flav4l` at line 116 is also unbound | any event whose first particle line parses, e.g. `21 -1 0 0 …` | the Higgs test `abs(id) == 25`, with the unused `flav4l` product dropped | not executed | Classifier.HiggsAsWrittenRaisesTypeError | Classifier.HiggsEvent |
| lhe2root.py:92 | `InputEvent(daughters, associated, mothers, isgen)` calls a name that the script neither defines nor imports; `lhe2rootggH.py:81` is the same. The constructor raises NameError whenever it gets that far. As written the classifier raises before, so the constructor never returns | any block that tokenizes and that the corrected classifier accepts, e.g. two mothers and a Higgs line | a record of the four values, such as a `collections.namedtuple` (`collections` is imported and otherwise unused) | not executed | Tokenizer.ReadEventAsWrittenNeverSucceeds | Tokenizer.ReadEvent |
| lhe2rootggH.py:103 | `flav4l = flav4l*abs(id)` reads the local `flav4l` before it is ever assigned. This raises UnboundLocalError at the first daughter | two mothers followed by four leptons, the inputs of the corrected member | collect the daughter without the unused product, or start the product at 1 as the event loop does at lhe2rootggH.py:206 | not executed | Classifier.AsWrittenNeverSucceeds | Classifier.FourLeptonEvent |
