/**
 * `LHEEvent.__init__`, identical in lhe2root.py and lhe2rootggH.py: splits
 * one `<event>` block of a Les Houches Event file into lines, collects the
 * named weights, drops tag, blank and comment-only lines, reads the six-token
 * header and checks the declared particle count before handing the particle
 * lines to the role classifier.
 *
 * The object is filled once and never changed afterwards, so it is modelled
 * as a value (`LheEvent`) built by `ReadEvent`; the loops of the constructor
 * are the methods `CollectWeights`, `ParticleLines` and `ParseEvent`.
 */
module Tokenizer {
  import opened Wrappers
  import opened PyErrors
  import opened PyText
  import opened PyNum
  import opened Classifier

  // ---------------------------------------------------------------------------
  // re.match("<wgt id='(.*)'>([0-9+Ee.-]*)</wgt>", line)
  // ---------------------------------------------------------------------------

  const WgtPrefix: string := "<wgt id='"
  const WgtClose: string := "</wgt>"

  /** The characters of the class `[0-9+Ee.-]`. */
  predicate IsValueChar(c: char) {
    '0' <= c <= '9' || c == '+' || c == 'E' || c == 'e' || c == '.' || c == '-'
  }

  /** End of the longest run of value characters starting at `i`. */
  function ValueRun(line: string, i: nat): (j: nat)
    requires i <= |line|
    ensures i <= j <= |line|
    ensures forall k | i <= k < j :: IsValueChar(line[k])
    ensures j < |line| ==> !IsValueChar(line[j])
    decreases |line| - i
  {
    if i < |line| && IsValueChar(line[i]) then ValueRun(line, i + 1) else i
  }

  /**
   * The pattern matches with the name group ending at `k`: the prefix, a
   * name without newline, `'>`, the longest value run, then `</wgt>`. Since
   * `<` is not a value character, a shorter value run can never be followed
   * by `</wgt>`, so the longest run is the only candidate.
   */
  predicate MatchesWithNameEnd(line: string, k: nat) {
    |WgtPrefix| <= k && k + 2 <= |line|
    && line[..|WgtPrefix|] == WgtPrefix
    && (forall i | |WgtPrefix| <= i < k :: line[i] != '\n')
    && line[k..k + 2] == "'>"
    && OccursAt(line, WgtClose, ValueRun(line, k + 2))
  }

  /** The largest name end at or below `k` for which the pattern matches. */
  function LastNameEnd(line: string, k: nat): (r: Option<nat>)
    ensures r.Some? ==> |WgtPrefix| <= r.value <= k && r.value + 2 <= |line|
    decreases k
  {
    if MatchesWithNameEnd(line, k) then Some(k)
    else if k == 0 then None
    else LastNameEnd(line, k - 1)
  }

  /** The search finds a matching name end, and none above it; or there is none at all. */
  lemma LastNameEndMeaning(line: string, k: nat)
    ensures LastNameEnd(line, k).Some? ==> MatchesWithNameEnd(line, LastNameEnd(line, k).value)
    ensures LastNameEnd(line, k).Some? ==>
      forall j: nat | LastNameEnd(line, k).value < j <= k :: !MatchesWithNameEnd(line, j)
    ensures LastNameEnd(line, k).None? ==> forall j: nat | j <= k :: !MatchesWithNameEnd(line, j)
  {
    LastNameEndFound(line, k);
    LastNameEndSkips(line, k);
  }

  lemma {:induction false} LastNameEndFound(line: string, k: nat)
    ensures LastNameEnd(line, k).Some? ==> MatchesWithNameEnd(line, LastNameEnd(line, k).value)
    decreases k
  {
    if !MatchesWithNameEnd(line, k) && k > 0 {
      LastNameEndFound(line, k - 1);
    }
  }

  lemma {:induction false} LastNameEndSkips(line: string, k: nat)
    ensures forall j: nat | (if LastNameEnd(line, k).Some? then LastNameEnd(line, k).value else -1) < j <= k ::
      !MatchesWithNameEnd(line, j)
    decreases k
  {
    if !MatchesWithNameEnd(line, k) && k > 0 {
      LastNameEndSkips(line, k - 1);
    }
  }

  /**
   * The two groups of the match, if the line matches: the greedy `(.*)` makes
   * the name end at the last position from which the rest of the pattern
   * still matches.
   */
  function WgtMatch(line: string): Option<(string, string)> {
    match LastNameEnd(line, |line|)
    case None => None
    case Some(k) => Some((line[|WgtPrefix|..k], line[k + 2..ValueRun(line, k + 2)]))
  }

  /** A name never spans a line break, and a value holds only characters of its class. */
  lemma WgtMatchShape(line: string)
    requires WgtMatch(line).Some?
    ensures '\n' !in WgtMatch(line).value.0
    ensures forall i | 0 <= i < |WgtMatch(line).value.1| :: IsValueChar(WgtMatch(line).value.1[i])
  {
    LastNameEndMeaning(line, |line|);
    var k := LastNameEnd(line, |line|).value;
    var name := line[|WgtPrefix|..k];
    assert forall i | 0 <= i < |name| :: name[i] == line[|WgtPrefix| + i];
  }

  /** The search from `top` downward stops at the largest matching name end. */
  lemma {:induction false} LastNameEndIs(line: string, k: nat, top: nat)
    requires k <= top && MatchesWithNameEnd(line, k)
    requires forall j: nat | k < j <= top :: !MatchesWithNameEnd(line, j)
    ensures LastNameEnd(line, top) == Some(k)
    decreases top
  {
    if top > k {
      LastNameEndIs(line, k, top - 1);
    }
  }

  /** The pieces of a well-formed weight line sit where they should. */
  lemma WeightLineMatches(name: string, value: string, rest: string)
    requires '\n' !in name
    requires forall i | 0 <= i < |value| :: IsValueChar(value[i])
    ensures var line := WgtPrefix + name + "'>" + value + WgtClose + rest;
      var k := |WgtPrefix| + |name|;
      MatchesWithNameEnd(line, k) && ValueRun(line, k + 2) == k + 2 + |value|
      && line[|WgtPrefix|..k] == name && line[k + 2..k + 2 + |value|] == value
  {
    var line := WgtPrefix + name + "'>" + value + WgtClose + rest;
    var k := |WgtPrefix| + |name|;
    var v := k + 2 + |value|;
    assert line[..|WgtPrefix|] == WgtPrefix by {}
    assert line[k..k + 2] == "'>" by {}
    assert line[|WgtPrefix|..k] == name by {}
    assert line[k + 2..v] == value by {}
    assert line[v..v + |WgtClose|] == WgtClose by {}
    assert forall i | |WgtPrefix| <= i < k :: line[i] != '\n' by {
      forall i | |WgtPrefix| <= i < k ensures line[i] != '\n' {
        assert line[i] == line[|WgtPrefix|..k][i - |WgtPrefix|];
      }
    }
    assert ValueRun(line, k + 2) == v by {
      forall i | k + 2 <= i < v ensures IsValueChar(line[i]) {
        assert line[i] == line[k + 2..v][i - k - 2];
      }
      assert line[v] == line[v..v + |WgtClose|][0];
      ValueRunStops(line, k + 2, v);
    }
  }

  /** After the name no quote is left, so no later name end can match. */
  lemma NoLaterQuote(name: string, value: string, rest: string)
    requires forall i | 0 <= i < |value| :: IsValueChar(value[i])
    requires '\'' !in rest
    ensures var line := WgtPrefix + name + "'>" + value + WgtClose + rest;
      forall j | |WgtPrefix| + |name| < j < |line| :: line[j] != '\''
  {
    var line := WgtPrefix + name + "'>" + value + WgtClose + rest;
    var k := |WgtPrefix| + |name|;
    var v := k + 2 + |value|;
    forall j | k < j < |line| ensures line[j] != '\'' {
      if j == k + 1 {
        assert line[j] == '>';
      } else if j < v {
        assert line[j] == value[j - k - 2];
      } else if j < v + |WgtClose| {
        assert line[j] == WgtClose[j - v];
      } else {
        assert line[j] == rest[j - v - |WgtClose|];
      }
    }
  }

  /**
   * A well-formed weight line is read back into its name and value, whatever
   * the name contains (even `'>`), as long as no quote follows the closing tag.
   */
  lemma WgtMatchRoundTrip(name: string, value: string, rest: string)
    requires '\n' !in name
    requires forall i | 0 <= i < |value| :: IsValueChar(value[i])
    requires '\'' !in rest
    ensures WgtMatch(WgtPrefix + name + "'>" + value + WgtClose + rest) == Some((name, value))
  {
    var line := WgtPrefix + name + "'>" + value + WgtClose + rest;
    var k := |WgtPrefix| + |name|;
    WeightLineMatches(name, value, rest);
    NoLaterQuote(name, value, rest);
    NoNameEndAfterQuotes(line, k);
    LastNameEndIs(line, k, |line|);
  }

  /** A name end needs a quote right after it, so none lies past the last quote. */
  lemma NoNameEndAfterQuotes(line: string, k: nat)
    requires forall j | k < j < |line| :: line[j] != '\''
    ensures forall j: nat | k < j <= |line| :: !MatchesWithNameEnd(line, j)
  {
    forall j: nat | k < j <= |line| ensures !MatchesWithNameEnd(line, j) {
      if j + 2 <= |line| {
        assert line[j..j + 2][0] == line[j];
      }
    }
  }

  lemma ValueRunStops(line: string, i: nat, v: nat)
    requires i <= v < |line|
    requires forall k | i <= k < v :: IsValueChar(line[k])
    requires !IsValueChar(line[v])
    ensures ValueRun(line, i) == v
    decreases v - i
  {
  }

  /** A matching line starts with the weight prefix, so the `"<wgt" in line` test before it never hides a match. */
  lemma WgtMatchStartsWithPrefix(line: string)
    requires WgtMatch(line).Some?
    ensures line[..|WgtPrefix|] == WgtPrefix
    ensures Contains(line, "<wgt")
  {
    LastNameEndMeaning(line, |line|);
    assert line[0..4] == "<wgt";
  }

  // ---------------------------------------------------------------------------
  // The weights dictionary
  // ---------------------------------------------------------------------------

  /** What one line contributes to the weights, if anything; an unreadable value raises. */
  function LineWeight(line: string): Result<Option<(string, string)>, Error> {
    if !Contains(line, "<wgt") then Ok(None)
    else match WgtMatch(line)
      case None => Ok(None)
      case Some(m) => if IsFloatLiteral(m.1) then Ok(Some(m)) else Err(NotAFloat(m.1))
  }

  /** The dictionary after the loop over `lines`; a later line with the same name overwrites. */
  function WeightsOf(lines: seq<string>): Result<map<string, string>, Error>
    decreases |lines|
  {
    if lines == [] then Ok(map[])
    else
      var n := |lines| - 1;
      match WeightsOf(lines[..n])
      case Err(e) => Err(e)
      case Ok(w) =>
        match LineWeight(lines[n])
        case Err(e) => Err(e)
        case Ok(None) => Ok(w)
        case Ok(Some(m)) => Ok(w[m.0 := m.1])
  }

  /** The loop that fills `self.weights`. */
  method CollectWeights(lines: seq<string>) returns (r: Result<map<string, string>, Error>)
    ensures r == WeightsOf(lines)
  {
    var weights: map<string, string> := map[];
    for i := 0 to |lines|
      invariant WeightsOf(lines[..i]) == Ok(weights)
    {
      assert lines[..i + 1][..i] == lines[..i];
      var line := lines[i];
      if !Contains(line, "<wgt") {
        continue;
      }
      var m := WgtMatch(line);
      if m.Some? {
        var (name, value) := m.value;
        if !IsFloatLiteral(value) {
          WeightsErrorPersists(lines, i + 1);
          return Err(NotAFloat(value));
        }
        weights := weights[name := value];
      }
    }
    assert lines[..|lines|] == lines;
    r := Ok(weights);
  }

  lemma {:induction false} WeightsErrorPersists(lines: seq<string>, i: nat)
    requires i <= |lines|
    requires WeightsOf(lines[..i]).Err?
    ensures WeightsOf(lines) == WeightsOf(lines[..i])
    decreases |lines| - i
  {
    if i < |lines| {
      assert lines[..i + 1][..i] == lines[..i];
      WeightsErrorPersists(lines, i + 1);
    } else {
      assert lines[..i] == lines;
    }
  }

  /** A line that is read without error contributes exactly its match, if any. */
  lemma LineWeightIsMatch(line: string)
    requires LineWeight(line).Ok?
    ensures LineWeight(line).value == WgtMatch(line)
  {
    if WgtMatch(line).Some? {
      WgtMatchStartsWithPrefix(line);
    }
  }

  /** One step of the loop, read backwards from an accepted result. */
  lemma WeightsStep(lines: seq<string>)
    requires lines != [] && WeightsOf(lines).Ok?
    ensures var n := |lines| - 1;
      WeightsOf(lines[..n]).Ok? && LineWeight(lines[n]).Ok?
      && WeightsOf(lines).value == match LineWeight(lines[n]).value
        case None => WeightsOf(lines[..n]).value
        case Some(m) => WeightsOf(lines[..n]).value[m.0 := m.1]
  {
  }

  /** Every prefix of readable lines is readable. */
  lemma FrontReadable(lines: seq<string>)
    requires lines != [] && WeightsOf(lines).Ok?
    ensures WeightsOf(lines[..|lines| - 1]).Ok?
  {
  }

  /** No line after `i` matches with this name. */
  predicate NoLaterMatch(lines: seq<string>, i: nat, name: string) {
    forall j | i < j < |lines| :: WgtMatch(lines[j]).None? || WgtMatch(lines[j]).value.0 != name
  }

  /**
   * Every stored weight comes from a matching line, and from the last line
   * that matches with that name: a repeated name keeps the last value.
   * `i` is that line.
   */
  lemma {:induction false} WeightsLastWins(lines: seq<string>, name: string) returns (i: nat)
    requires WeightsOf(lines).Ok? && name in WeightsOf(lines).value
    ensures i < |lines| && WgtMatch(lines[i]) == Some((name, WeightsOf(lines).value[name]))
    ensures NoLaterMatch(lines, i, name)
    decreases |lines|
  {
    var n := |lines| - 1;
    if WgtMatch(lines[n]).Some? && WgtMatch(lines[n]).value.0 == name {
      LastLineWins(lines);
      i := n;
    } else {
      EarlierLineKept(lines, name);
      i := WeightsLastWins(lines[..n], name);
      NoLaterMatchExtends(lines, i, name);
    }
  }

  /** The last line's match, if any, is what the dictionary holds for its name. */
  lemma LastLineWins(lines: seq<string>)
    requires lines != [] && WeightsOf(lines).Ok? && WgtMatch(lines[|lines| - 1]).Some?
    ensures var m := WgtMatch(lines[|lines| - 1]).value;
      m.0 in WeightsOf(lines).value && WeightsOf(lines).value[m.0] == m.1
  {
    WeightsStep(lines);
    LineWeightIsMatch(lines[|lines| - 1]);
  }

  /** A name the last line does not match with keeps the value the earlier lines gave it. */
  lemma EarlierLineKept(lines: seq<string>, name: string)
    requires lines != [] && WeightsOf(lines).Ok? && name in WeightsOf(lines).value
    requires WgtMatch(lines[|lines| - 1]).None? || WgtMatch(lines[|lines| - 1]).value.0 != name
    ensures var front := lines[..|lines| - 1];
      WeightsOf(front).Ok? && name in WeightsOf(front).value
      && WeightsOf(lines).value[name] == WeightsOf(front).value[name]
  {
    WeightsStep(lines);
    LineWeightIsMatch(lines[|lines| - 1]);
  }

  /** A name the earlier lines gave a value keeps one after the last line. */
  lemma EarlierNameKept(lines: seq<string>, name: string)
    requires lines != [] && WeightsOf(lines).Ok?
    requires name in WeightsOf(lines[..|lines| - 1]).value
    ensures name in WeightsOf(lines).value
  {
    WeightsStep(lines);
  }

  /** A last line that does not match with `name` keeps a position free of later matches. */
  lemma NoLaterMatchExtends(lines: seq<string>, i: nat, name: string)
    requires lines != [] && i < |lines| - 1 && NoLaterMatch(lines[..|lines| - 1], i, name)
    requires WgtMatch(lines[|lines| - 1]).None? || WgtMatch(lines[|lines| - 1]).value.0 != name
    ensures NoLaterMatch(lines, i, name)
  {
    var front := lines[..|lines| - 1];
    forall j | i < j < |lines|
      ensures WgtMatch(lines[j]).None? || WgtMatch(lines[j]).value.0 != name
    {
      if j < |front| {
        assert lines[j] == front[j];
      }
    }
  }

  /** Every matching line's name ends up in the dictionary (when no value is unreadable). */
  lemma {:induction false} WeightsComplete(lines: seq<string>, i: nat)
    requires WeightsOf(lines).Ok?
    requires i < |lines| && WgtMatch(lines[i]).Some?
    ensures WgtMatch(lines[i]).value.0 in WeightsOf(lines).value
    decreases |lines|
  {
    var n := |lines| - 1;
    if i < n {
      FrontReadable(lines);
      assert lines[..n][i] == lines[i];
      WeightsComplete(lines[..n], i);
      EarlierNameKept(lines, WgtMatch(lines[i]).value.0);
    } else {
      LastLineWins(lines);
    }
  }

  // ---------------------------------------------------------------------------
  // Line filter and header
  // ---------------------------------------------------------------------------

  /** A line the filter keeps: no tag character, and something before the first `#`. */
  predicate IsParticleLine(line: string) {
    '<' !in line && '>' !in line && !IsBlank(BeforeHash(line))
  }

  /** The list comprehension that keeps the particle lines (header included), in order. */
  function BodyLines(lines: seq<string>): (r: seq<string>)
    ensures |r| <= |lines|
    ensures forall i | 0 <= i < |r| :: IsParticleLine(r[i]) && r[i] in lines
    decreases |lines|
  {
    if lines == [] then []
    else
      var n := |lines| - 1;
      BodyLines(lines[..n]) + (if IsParticleLine(lines[n]) then [lines[n]] else [])
  }

  /** The filter keeps every line it should, and keeps them in order. */
  lemma {:induction false} BodyLinesAppend(a: seq<string>, b: seq<string>)
    ensures BodyLines(a + b) == BodyLines(a) + BodyLines(b)
    decreases |b|
  {
    if b == [] {
      assert a + b == a;
    } else {
      var n := |b| - 1;
      assert (a + b)[..|a + b| - 1] == a + b[..n];
      BodyLinesAppend(a, b[..n]);
    }
  }

  lemma {:induction false} BodyLinesKeepsAll(lines: seq<string>)
    requires forall i | 0 <= i < |lines| :: IsParticleLine(lines[i])
    ensures BodyLines(lines) == lines
    decreases |lines|
  {
    if lines != [] {
      var n := |lines| - 1;
      BodyLinesKeepsAll(lines[..n]);
      assert lines[..n] + [lines[n]] == lines;
    }
  }

  lemma BodyLinesDropsTag(line: string)
    requires '<' in line || '>' in line
    ensures BodyLines([line]) == []
  {
    assert [line][..0] == [];
  }

  /** The loop form of the comprehension. */
  method ParticleLines(lines: seq<string>) returns (body: seq<string>)
    ensures body == BodyLines(lines)
  {
    body := [];
    for i := 0 to |lines|
      invariant body == BodyLines(lines[..i])
    {
      assert lines[..i + 1][..i] == lines[..i];
      if IsParticleLine(lines[i]) {
        body := body + [lines[i]];
      }
    }
    assert lines[..|lines|] == lines;
  }

  /** The two header fields the event uses. */
  datatype Header = Header(count: int, weight: string)

  /** `nparticles, _, weight, _, _, _ = line.split()`, then `int(nparticles)` and `float(weight)`. */
  function ParseHeader(line: string): (r: Result<Header, Error>)
    ensures r.Ok? <==> |Words(line)| == 6 && ParseInt(Words(line)[0]).Some? && IsFloatLiteral(Words(line)[2])
    ensures r.Ok? ==> ParseInt(Words(line)[0]) == Some(r.value.count) && r.value.weight == Words(line)[2]
    ensures |Words(line)| != 6 ==> r == Err(HeaderArity(|Words(line)|))
  {
    var ws := Words(line);
    if |ws| != 6 then Err(HeaderArity(|ws|))
    else match ParseInt(ws[0])
      case None => Err(NotAnInt(ws[0]))
      case Some(n) => if IsFloatLiteral(ws[2]) then Ok(Header(n, ws[2])) else Err(NotAFloat(ws[2]))
  }

  // ---------------------------------------------------------------------------
  // The whole block
  // ---------------------------------------------------------------------------

  /** A tokenized block: its weights, the header weight and the particle lines. */
  datatype Block = Block(weights: map<string, string>, weight: string, particles: seq<string>)

  /** Everything before the classifier: weights, filter, header, count check. */
  function Tokenize(event: string): (r: Result<Block, Error>)
    ensures r.Ok? ==> forall i | 0 <= i < |r.value.particles| :: IsParticleLine(r.value.particles[i])
  {
    var lines := SplitLines(event);
    match WeightsOf(lines)
    case Err(e) => Err(e)
    case Ok(w) =>
      var body := BodyLines(lines);
      if body == [] then Err(EmptyBlock)
      else match ParseHeader(body[0])
        case Err(e) => Err(e)
        case Ok(h) =>
          if h.count != |body| - 1 then Err(WrongParticleCount(h.count, |body| - 1))
          else Ok(Block(w, h.weight, body[1..]))
  }

  /** The declared count always equals the number of particle lines once the block is accepted. */
  lemma TokenizeCount(event: string)
    requires Tokenize(event).Ok?
    ensures var body := BodyLines(SplitLines(event));
      body != [] && ParseHeader(body[0]).Ok?
      && ParseHeader(body[0]).value.count == |Tokenize(event).value.particles|
  {
  }

  /** A count that differs from the number of particle lines raises, naming both numbers. */
  lemma CountMismatchRaises(event: string)
    requires WeightsOf(SplitLines(event)).Ok?
    requires BodyLines(SplitLines(event)) != []
    requires ParseHeader(BodyLines(SplitLines(event))[0]).Ok?
    requires ParseHeader(BodyLines(SplitLines(event))[0]).value.count != |BodyLines(SplitLines(event))| - 1
    ensures Tokenize(event) == Err(WrongParticleCount(
      ParseHeader(BodyLines(SplitLines(event))[0]).value.count, |BodyLines(SplitLines(event))| - 1))
  {
  }

  /** The constructed event object. */
  datatype LheEvent = LheEvent(weights: map<string, string>, weight: string, particles: Classified)

  /**
   * `LHEEvent(event, isgen)` with the given rule set, building the record of
   * the classified collections that line 92 unpacks (see README, Findings).
   */
  function ReadEvent(rules: RuleSet, event: string, isgen: bool): (r: Result<LheEvent, Error>)
    ensures r.Ok? <==> Tokenize(event).Ok? && Extract(rules, Tokenize(event).value.particles, isgen).Ok?
    ensures r.Ok? ==> r.value == LheEvent(Tokenize(event).value.weights, Tokenize(event).value.weight,
                                          Extract(rules, Tokenize(event).value.particles, isgen).value)
    ensures Tokenize(event).Err? ==> r == Err(Tokenize(event).error)
    ensures Tokenize(event).Ok? && Extract(rules, Tokenize(event).value.particles, isgen).Err? ==>
      r == Err(Extract(rules, Tokenize(event).value.particles, isgen).error)
  {
    match Tokenize(event)
    case Err(e) => Err(e)
    case Ok(b) =>
      match Extract(rules, b.particles, isgen)
      case Err(e) => Err(e)
      case Ok(c) => Ok(LheEvent(b.weights, b.weight, c))
  }

  /**
   * `LHEEvent(event, isgen)` as written in either script: the block is
   * tokenized and classified, then `InputEvent(...)` raises NameError, since
   * neither script defines or imports that name.
   */
  function ReadEventAsWritten(rules: RuleSet, event: string, isgen: bool): Result<LheEvent, Error> {
    match Tokenize(event)
    case Err(e) => Err(e)
    case Ok(b) =>
      match ExtractAsWritten(rules, b.particles, isgen)
      case Err(e) => Err(e)
      case Ok(_) => Err(UndefinedEventRecord)
  }

  /**
   * `LHEEvent(event, isgen)` with the classifier corrected but line 92 as
   * written: every block the corrected constructor accepts raises NameError.
   */
  function ReadEventRecordUndefined(rules: RuleSet, event: string, isgen: bool): Result<LheEvent, Error> {
    match ReadEvent(rules, event, isgen)
    case Err(e) => Err(e)
    case Ok(_) => Err(UndefinedEventRecord)
  }

  /**
   * As written, the constructor never builds an event: the classifier raises
   * first, and a block it would accept raises NameError at line 92.
   */
  lemma ReadEventAsWrittenNeverSucceeds(rules: RuleSet, event: string, isgen: bool)
    ensures ReadEventAsWritten(rules, event, isgen).Err?
    ensures Tokenize(event).Err? ==> ReadEventAsWritten(rules, event, isgen) == Err(Tokenize(event).error)
    ensures ReadEventRecordUndefined(rules, event, isgen).Err?
    ensures ReadEvent(rules, event, isgen).Ok? ==> ReadEventRecordUndefined(rules, event, isgen) == Err(UndefinedEventRecord)
  {
    if Tokenize(event).Ok? {
      AsWrittenNeverSucceeds(rules, Tokenize(event).value.particles, isgen);
    }
  }

  /** The constructor's steps up to the classifier. */
  method TokenizeBlock(event: string) returns (r: Result<Block, Error>)
    ensures r == Tokenize(event)
  {
    var lines := SplitLines(event);
    var weights := CollectWeights(lines);
    if weights.Err? {
      return Err(weights.error);
    }
    var body := ParticleLines(lines);
    if |body| == 0 {
      return Err(EmptyBlock);
    }
    var header := ParseHeader(body[0]);
    if header.Err? {
      return Err(header.error);
    }
    if header.value.count != |body| - 1 {
      return Err(WrongParticleCount(header.value.count, |body| - 1));
    }
    r := Ok(Block(weights.value, header.value.weight, body[1..]));
  }

  /** The constructor: tokenize, then classify the particle lines. */
  method ParseEvent(rules: RuleSet, event: string, isgen: bool) returns (r: Result<LheEvent, Error>)
    ensures r == ReadEvent(rules, event, isgen)
  {
    var block := TokenizeBlock(event);
    if block.Err? {
      return Err(block.error);
    }
    var particles := ExtractEventParticles(rules, block.value.particles, isgen);
    if particles.Err? {
      return Err(particles.error);
    }
    r := Ok(LheEvent(block.value.weights, block.value.weight, particles.value));
  }

  // ---------------------------------------------------------------------------
  // A whole event block
  // ---------------------------------------------------------------------------

  lemma NoWgtInEventTag()
    ensures !Contains("<event>", "<wgt")
    ensures !Contains("</event>", "<wgt")
  {
    forall j | 0 <= j <= 7 ensures !OccursAt("<event>", "<wgt", j) {
      if j + 4 <= 7 {
        assert "<event>"[j..j + 4][1] == "<event>"[j + 1];
      }
    }
    forall j | 0 <= j <= 8 ensures !OccursAt("</event>", "<wgt", j) {
      if j + 4 <= 8 {
        assert "</event>"[j..j + 4][1] == "</event>"[j + 1];
      }
    }
  }

  /** Lines of an event: the opening tag, the header, the particles, the closing tag. */
  function EventLines(header: string, particles: seq<string>): seq<string> {
    ["<event>"] + ([header] + particles) + ["</event>"]
  }

  /** The text of such an event block. */
  function EventText(header: string, particles: seq<string>): string {
    JoinLines(EventLines(header, particles))
  }

  lemma {:induction false} WeightsOfPlain(lines: seq<string>)
    requires forall i | 0 <= i < |lines| :: !Contains(lines[i], "<wgt")
    ensures WeightsOf(lines) == Ok(map[])
    decreases |lines|
  {
    if lines != [] {
      WeightsOfPlain(lines[..|lines| - 1]);
    }
  }

  /** The lines of an event text are its tags, header and particles. */
  lemma SplitEventText(header: string, particles: seq<string>)
    requires '\n' !in header
    requires forall i | 0 <= i < |particles| :: '\n' !in particles[i]
    ensures SplitLines(EventText(header, particles)) == EventLines(header, particles)
  {
    var lines := EventLines(header, particles);
    forall i | 0 <= i < |lines| ensures '\n' !in lines[i] {
      if 2 <= i < |lines| - 1 {
        assert lines[i] == particles[i - 2];
      }
    }
    SplitJoinLines(lines);
  }

  /** Without weight lines the dictionary stays empty. */
  lemma EventWeights(header: string, particles: seq<string>)
    requires '<' !in header
    requires forall i | 0 <= i < |particles| :: '<' !in particles[i]
    ensures WeightsOf(EventLines(header, particles)) == Ok(map[])
  {
    var lines := EventLines(header, particles);
    NoWgtInEventTag();
    forall i | 0 <= i < |lines| ensures !Contains(lines[i], "<wgt") {
      if 0 < i < |lines| - 1 {
        assert i == 1 || lines[i] == particles[i - 2];
        NoTagNoWgt(lines[i]);
      }
    }
    WeightsOfPlain(lines);
  }

  /** Only the header and the particles pass the filter. */
  lemma EventBody(header: string, particles: seq<string>)
    requires IsParticleLine(header)
    requires forall i | 0 <= i < |particles| :: IsParticleLine(particles[i])
    ensures BodyLines(EventLines(header, particles)) == [header] + particles
  {
    var m := [header] + particles;
    assert BodyLines(m) == m by {
      forall i | 0 <= i < |m| ensures IsParticleLine(m[i]) {
        if i > 0 {
          assert m[i] == particles[i - 1];
        }
      }
      BodyLinesKeepsAll(m);
    }
    assert BodyLines(["<event>"] + m) == m by {
      BodyLinesAppend(["<event>"], m);
      BodyLinesDropsTag("<event>");
    }
    assert BodyLines(["<event>"] + m + ["</event>"]) == m by {
      BodyLinesAppend(["<event>"] + m, ["</event>"]);
      assert '<' in "</event>";
      BodyLinesDropsTag("</event>");
    }
  }

  /** A header written from its fields is read back. */
  lemma HeaderRoundTrip(count: int, weight: string, others: seq<string>)
    requires IsWord(weight) && IsFloatLiteral(weight) && |others| == 4
    requires forall i | 0 <= i < 4 :: IsWord(others[i])
    ensures ParseHeader(JoinWords([IntToString(count), others[0], weight, others[1], others[2], others[3]]))
         == Ok(Header(count, weight))
  {
    var ws := [IntToString(count), others[0], weight, others[1], others[2], others[3]];
    IntToStringIsWord(count);
    WordsOfJoinWords(ws);
    IntRoundTrip(count);
  }

  /** Such a header is one line that passes the filter. */
  lemma HeaderIsParticleLine(count: int, weight: string, others: seq<string>)
    requires IsWord(weight) && '<' !in weight && '>' !in weight && '#' !in weight
    requires |others| == 4
    requires forall i | 0 <= i < 4 :: IsWord(others[i]) && '<' !in others[i] && '>' !in others[i] && '#' !in others[i]
    ensures var header := JoinWords([IntToString(count), others[0], weight, others[1], others[2], others[3]]);
      IsParticleLine(header) && '\n' !in header
  {
    var ws := [IntToString(count), others[0], weight, others[1], others[2], others[3]];
    IntToStringIsWord(count);
    IntToStringPlain(count);
    WordsAreParticleLine(ws);
    JoinWordsAvoids(ws, '\n');
  }

  /**
   * A block without weight lines, a header declaring as many particles as
   * there are particle lines, and the particle lines themselves: it is
   * accepted with the header weight and exactly those particle lines; a
   * header declaring any other count raises.
   */
  lemma EventBlock(count: int, weight: string, others: seq<string>, particles: seq<string>)
    requires IsWord(weight) && IsFloatLiteral(weight) && '<' !in weight && '>' !in weight && '#' !in weight
    requires |others| == 4
    requires forall i | 0 <= i < 4 :: IsWord(others[i]) && '<' !in others[i] && '>' !in others[i] && '#' !in others[i]
    requires forall i | 0 <= i < |particles| :: IsParticleLine(particles[i]) && '\n' !in particles[i]
    ensures var header := JoinWords([IntToString(count), others[0], weight, others[1], others[2], others[3]]);
      Tokenize(EventText(header, particles))
      == if count == |particles| then Ok(Block(map[], weight, particles))
         else Err(WrongParticleCount(count, |particles|))
  {
    var header := JoinWords([IntToString(count), others[0], weight, others[1], others[2], others[3]]);
    HeaderRoundTrip(count, weight, others);
    HeaderIsParticleLine(count, weight, others);
    SplitEventText(header, particles);
    EventWeights(header, particles);
    EventBody(header, particles);
    assert ([header] + particles)[1..] == particles;
  }

  lemma NoTagNoWgt(line: string)
    requires '<' !in line
    ensures !Contains(line, "<wgt")
  {
    forall j | 0 <= j <= |line| ensures !OccursAt(line, "<wgt", j) {
      if j + 4 <= |line| {
        assert line[j..j + 4][0] == line[j];
      }
    }
  }

  lemma {:induction false} JoinWordsAvoids(ws: seq<string>, c: char)
    requires c != ' '
    requires forall i | 0 <= i < |ws| :: c !in ws[i]
    ensures c !in JoinWords(ws)
    decreases |ws|
  {
    if |ws| > 1 {
      JoinWordsAvoids(ws[1..], c);
    }
  }

  /** A line of plain words is a particle line: it has no tag character and is not blank. */
  lemma WordsAreParticleLine(ws: seq<string>)
    requires |ws| > 0
    requires forall i | 0 <= i < |ws| :: IsWord(ws[i]) && '<' !in ws[i] && '>' !in ws[i] && '#' !in ws[i]
    ensures IsParticleLine(JoinWords(ws))
  {
    JoinWordsAvoids(ws, '<');
    JoinWordsAvoids(ws, '>');
    JoinWordsAvoids(ws, '#');
    var s := JoinWords(ws);
    assert CharIndex(s, '#') == |s|;
    assert BeforeHash(s) == s;
    assert s[0] == ws[0][0];
  }

  lemma IntToStringPlain(n: int)
    ensures var s := IntToString(n); '<' !in s && '>' !in s && '#' !in s
  {
    var s := IntToString(n);
    if n < 0 {
      assert forall i | 1 <= i < |s| :: s[i] == NatToString(-n)[i - 1];
    }
  }
}
