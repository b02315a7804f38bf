/**
 * `LHEEvent_Offshell4l.extracteventparticles`: assigns every particle line of
 * an event block to the mothers or the daughters by its PDG id and status,
 * hides light-quark and gluon flavours at detector level, and checks the
 * counts. Two rule sets exist: lhe2root.py takes the Higgs boson (id 25) as
 * the daughter, lhe2rootggH.py takes four leptons or quarks.
 *
 * Lines stay text here: the conversion of a line into a particle with a
 * four-vector is done by the matrix-element library and is not modelled.
 */
module Classifier {
  import opened Wrappers
  import opened PyErrors
  import opened PyText
  import opened PyNum

  /** Which daughter rule a script uses. */
  datatype RuleSet =
    /** lhe2root.py: the stable Higgs boson is the one daughter */
    | HiggsAsDaughter
    /** lhe2rootggH.py: charged and neutral leptons, and quarks up to b, exactly four of them */
    | FourFermions

  datatype Role = Daughter | Mother

  /** The first four integer columns of a particle line. */
  datatype Fields = Fields(id: int, status: int, mother1: int, mother2: int)

  /** `int()` applied to each token in turn: all the values, or the first token it rejects. */
  function ParseInts(toks: seq<string>): (r: Result<seq<int>, string>)
    ensures r.Ok? ==> |r.value| == |toks|
    decreases |toks|
  {
    if toks == [] then Ok([])
    else match ParseInt(toks[0])
      case None => Err(toks[0])
      case Some(v) =>
        match ParseInts(toks[1..])
        case Err(t) => Err(t)
        case Ok(vs) => Ok([v] + vs)
  }

  /** The values are those of int() on each token; an error names a token int() rejects. */
  lemma {:induction false} ParseIntsMeaning(toks: seq<string>)
    ensures ParseInts(toks).Ok? ==> forall i | 0 <= i < |toks| :: ParseInt(toks[i]) == Some(ParseInts(toks).value[i])
    ensures ParseInts(toks).Ok? <==> forall i | 0 <= i < |toks| :: ParseInt(toks[i]).Some?
    ensures ParseInts(toks).Err? ==> ParseInts(toks).error in toks && ParseInt(ParseInts(toks).error).None?
    decreases |toks|
  {
    if toks != [] {
      ParseIntsMeaning(toks[1..]);
      assert forall i | 1 <= i < |toks| :: toks[1..][i - 1] == toks[i];
    }
  }

  /**
   * `id, status, mother1, mother2 = (int(_) for _ in line.split()[0:4])`:
   * each of the first (up to four) tokens goes through int() in turn, then the
   * unpack needs exactly four of them.
   */
  function ParseFields(line: string): (r: Result<Fields, Error>)
  {
    var ws := Words(line);
    match ParseInts(if |ws| < 4 then ws else ws[..4])
    case Err(t) => Err(NotAnInt(t))
    case Ok(vs) =>
      if |vs| < 4 then Err(ShortParticleLine(|vs|))
      else Ok(Fields(vs[0], vs[1], vs[2], vs[3]))
  }

  /**
   * A line is accepted exactly when it has at least four tokens and int()
   * accepts each of the first four; the fields are their values.
   */
  lemma ParseFieldsMeaning(line: string)
    ensures ParseFields(line).Ok? <==>
      |Words(line)| >= 4 && forall i | 0 <= i < 4 :: ParseInt(Words(line)[i]).Some?
    ensures ParseFields(line).Ok? ==>
      var f := ParseFields(line).value;
      var ws := Words(line);
      ParseInt(ws[0]) == Some(f.id) && ParseInt(ws[1]) == Some(f.status)
      && ParseInt(ws[2]) == Some(f.mother1) && ParseInt(ws[3]) == Some(f.mother2)
  {
    var ws := Words(line);
    var head := if |ws| < 4 then ws else ws[..4];
    ParseIntsMeaning(head);
    if |ws| >= 4 {
      assert forall i | 0 <= i < 4 :: head[i] == ws[i];
    }
  }

  /** Light quarks, the top quark and the gluon: ids whose flavour is hidden at detector level. */
  predicate IsJetId(id: int) {
    1 <= Abs(id) <= 6 || Abs(id) == 21
  }

  predicate IsDaughter(rules: RuleSet, f: Fields) {
    match rules
    case HiggsAsDaughter => Abs(f.id) == 25 && f.status == 1
    case FourFermions =>
      (11 <= Abs(f.id) <= 16 || 1 <= Abs(f.id) <= 5) && f.status == 1
  }

  predicate HasRole(rules: RuleSet, role: Role, f: Fields) {
    match role
    case Daughter => IsDaughter(rules, f)
    case Mother => f.status == -1
  }

  /** A particle line whose four integer columns were read: its text and those columns. */
  datatype Parsed = Parsed(text: string, fields: Fields)

  /** Reads every line in turn; the first line that does not parse ends the event with its error. */
  function ParseAll(lines: seq<string>): (r: Result<seq<Parsed>, Error>)
    ensures r.Ok? ==> |r.value| == |lines|
    ensures r.Ok? ==> forall i | 0 <= i < |lines| :: r.value[i].text == lines[i]
    decreases |lines|
  {
    if lines == [] then Ok([])
    else
      var n := |lines| - 1;
      match ParseAll(lines[..n])
      case Err(e) => Err(e)
      case Ok(ps) =>
        match ParseFields(lines[n])
        case Err(e) => Err(e)
        case Ok(f) => Ok(ps + [Parsed(lines[n], f)])
  }

  /** Reading succeeds exactly when every line parses, and then carries each line's own fields. */
  lemma {:induction false} ParseAllSucceeds(lines: seq<string>)
    ensures ParseAll(lines).Ok? <==> forall i | 0 <= i < |lines| :: ParseFields(lines[i]).Ok?
    ensures ParseAll(lines).Ok? ==>
      forall i | 0 <= i < |lines| :: ParseFields(lines[i]) == Ok(ParseAll(lines).value[i].fields)
    decreases |lines|
  {
    if lines != [] {
      var n := |lines| - 1;
      var front := lines[..n];
      ParseAllSucceeds(front);
      assert forall i | 0 <= i < n :: front[i] == lines[i];
      var last := ParseFields(lines[n]);
      if ParseAll(front).Ok? && last.Ok? {
        var ps := ParseAll(front).value;
        var all := ps + [Parsed(lines[n], last.value)];
        assert ParseAll(lines) == Ok(all);
        assert forall i | 0 <= i < n :: all[i] == ps[i];
      }
    }
  }

  /** A failed read carries the error of the first line that does not parse. */
  lemma {:induction false} ParseAllFirstError(lines: seq<string>)
    ensures ParseAll(lines).Err? ==>
      exists k | 0 <= k < |lines| :: ParseFields(lines[k]) == Err(ParseAll(lines).error)
        && forall j | 0 <= j < k :: ParseFields(lines[j]).Ok?
    decreases |lines|
  {
    if lines != [] {
      var n := |lines| - 1;
      var front := lines[..n];
      ParseAllFirstError(front);
      assert forall i | 0 <= i < n :: front[i] == lines[i];
      match ParseAll(front)
      case Err(e) =>
        assert ParseAll(lines) == Err(e);
        var k :| 0 <= k < n && ParseFields(front[k]) == Err(e) && forall j | 0 <= j < k :: ParseFields(front[j]).Ok?;
        assert ParseFields(lines[k]) == Err(e);
      case Ok(ps) =>
        ParseAllSucceeds(front);
    }
  }

  /**
   * Reading succeeds exactly when every line parses, and then carries each
   * line's own fields; otherwise the error is that of the first bad line.
   */
  lemma ParseAllMeaning(lines: seq<string>)
    ensures ParseAll(lines).Ok? <==> forall i | 0 <= i < |lines| :: ParseFields(lines[i]).Ok?
    ensures ParseAll(lines).Ok? ==>
      forall i | 0 <= i < |lines| :: ParseFields(lines[i]) == Ok(ParseAll(lines).value[i].fields)
    ensures ParseAll(lines).Err? ==>
      exists k | 0 <= k < |lines| :: ParseFields(lines[k]) == Err(ParseAll(lines).error)
        && forall j | 0 <= j < k :: ParseFields(lines[j]).Ok?
  {
    ParseAllSucceeds(lines);
    ParseAllFirstError(lines);
  }

  /** Once a prefix of the lines fails to parse, the whole event fails with the same error. */
  lemma {:induction false} ParseAllPersists(lines: seq<string>, i: nat)
    requires i <= |lines|
    requires ParseAll(lines[..i]).Err?
    ensures ParseAll(lines) == ParseAll(lines[..i])
    decreases |lines| - i
  {
    if i < |lines| {
      assert lines[..i + 1][..i] == lines[..i];
      ParseAllPersists(lines, i + 1);
    } else {
      assert lines[..i] == lines;
    }
  }

  /**
   * The text that is stored for a line: at detector level (`isgen` false) a
   * jet id has its first textual occurrence replaced by "0" (unknown jet).
   */
  function Stored(p: Parsed, isgen: bool): string {
    if IsJetId(p.fields.id) && !isgen then ReplaceFirst(p.text, IntToString(p.fields.id), "0") else p.text
  }

  /** The stored texts of the lines that take `role`, in input order. */
  function Pick(rules: RuleSet, role: Role, ps: seq<Parsed>, isgen: bool): seq<string>
    decreases |ps|
  {
    if ps == [] then []
    else
      var last := ps[|ps| - 1];
      Pick(rules, role, ps[..|ps| - 1], isgen) + (if HasRole(rules, role, last.fields) then [Stored(last, isgen)] else [])
  }

  /** What `extracteventparticles` returns: daughters, associated, and mothers or None. */
  datatype Classified = Classified(daughters: seq<string>, associated: seq<string>, mothers: Option<seq<string>>)

  /**
   * The classifier's outcome. Associated particles are never collected and
   * their count is never checked (`nassociatedparticles` is None).
   */
  function Extract(rules: RuleSet, lines: seq<string>, isgen: bool): (r: Result<Classified, Error>)
    ensures r.Ok? ==> r.value.associated == []
    ensures r.Ok? ==> (r.value.mothers.Some? <==> isgen)
    ensures r.Ok? && isgen ==> |r.value.mothers.value| == 2
    ensures r.Ok? && rules == FourFermions ==> |r.value.daughters| == 4
    ensures ParseAll(lines).Err? ==> r == Err(ParseAll(lines).error)
  {
    match ParseAll(lines)
    case Err(e) => Err(e)
    case Ok(ps) =>
      var daughters := Pick(rules, Daughter, ps, isgen);
      var mothers := Pick(rules, Mother, ps, isgen);
      if rules == FourFermions && |daughters| != 4 then Err(WrongDaughterCount(4, |daughters|))
      else if |mothers| != 2 then Err(WrongMotherCount(|mothers|))
      else Ok(Classified(daughters, [], if isgen then Some(mothers) else None))
  }

  /** Reading one more line extends the parsed prefix by that line, or fails with its error. */
  lemma ParseAllStep(lines: seq<string>, i: nat)
    requires i < |lines| && ParseAll(lines[..i]).Ok?
    ensures ParseAll(lines[..i + 1]) ==
      match ParseFields(lines[i])
      case Err(e) => Err(e)
      case Ok(f) => Ok(ParseAll(lines[..i]).value + [Parsed(lines[i], f)])
  {
    assert lines[..i + 1][..i] == lines[..i];
  }

  /** Picking from one more line adds that line's stored form exactly when it takes the role. */
  lemma PickStep(rules: RuleSet, role: Role, ps: seq<Parsed>, p: Parsed, isgen: bool)
    ensures Pick(rules, role, ps + [p], isgen)
         == Pick(rules, role, ps, isgen) + (if HasRole(rules, role, p.fields) then [Stored(p, isgen)] else [])
  {
    assert (ps + [p])[..|ps|] == ps;
  }

  /** The loop of `extracteventparticles`, appending each line to the lists of its roles. */
  method ExtractEventParticles(rules: RuleSet, lines: seq<string>, isgen: bool) returns (r: Result<Classified, Error>)
    ensures r == Extract(rules, lines, isgen)
  {
    var daughters: seq<string> := [];
    var mothers: seq<string> := [];
    ghost var ps: seq<Parsed> := [];
    for i := 0 to |lines|
      invariant ParseAll(lines[..i]) == Ok(ps)
      invariant daughters == Pick(rules, Daughter, ps, isgen)
      invariant mothers == Pick(rules, Mother, ps, isgen)
    {
      var parsed := ParseFields(lines[i]);
      if parsed.Err? {
        ParseAllStep(lines, i);
        ParseAllPersists(lines, i + 1);
        return Err(parsed.error);
      }
      var f := parsed.value;
      ParseAllStep(lines, i);
      var line := lines[i];
      if IsJetId(f.id) && !isgen {
        line := ReplaceFirst(line, IntToString(f.id), "0");
      }
      if f.status == -1 {
        mothers := mothers + [line];
      }
      if IsDaughter(rules, f) {
        daughters := daughters + [line];
      }
      PickStep(rules, Daughter, ps, Parsed(lines[i], f), isgen);
      PickStep(rules, Mother, ps, Parsed(lines[i], f), isgen);
      ps := ps + [Parsed(lines[i], f)];
    }
    assert lines[..|lines|] == lines;
    if rules == FourFermions && |daughters| != 4 {
      return Err(WrongDaughterCount(4, |daughters|));
    }
    if |mothers| != 2 {
      return Err(WrongMotherCount(|mothers|));
    }
    if isgen {
      r := Ok(Classified(daughters, [], Some(mothers)));
    } else {
      r := Ok(Classified(daughters, [], None));
    }
  }

  // ---------------------------------------------------------------------------
  // What the classifier promises
  // ---------------------------------------------------------------------------

  /**
   * `idx` lists, in increasing order, exactly the positions of the lines of
   * `ps` that take `role`, and what the role keeps is their stored forms.
   */
  ghost predicate PickedAt(rules: RuleSet, role: Role, ps: seq<Parsed>, isgen: bool, idx: seq<nat>) {
    && |idx| == |Pick(rules, role, ps, isgen)|
    && (forall k | 0 <= k < |idx| ::
          idx[k] < |ps| && HasRole(rules, role, ps[idx[k]].fields)
          && Pick(rules, role, ps, isgen)[k] == Stored(ps[idx[k]], isgen))
    && (forall k, l | 0 <= k < l < |idx| :: idx[k] < idx[l])
    && (forall i | 0 <= i < |ps| && HasRole(rules, role, ps[i].fields) :: i in idx)
  }

  /**
   * The lines of a role are exactly the lines that satisfy the role's rule,
   * in input order, each stored in its blinded form: `idx` lists their
   * positions.
   */
  lemma {:induction false} PickExactly(rules: RuleSet, role: Role, ps: seq<Parsed>, isgen: bool)
    returns (idx: seq<nat>)
    ensures |idx| == |Pick(rules, role, ps, isgen)|
    ensures forall k | 0 <= k < |idx| ::
      idx[k] < |ps| && HasRole(rules, role, ps[idx[k]].fields)
      && Pick(rules, role, ps, isgen)[k] == Stored(ps[idx[k]], isgen)
    ensures forall k, l | 0 <= k < l < |idx| :: idx[k] < idx[l]
    ensures forall i | 0 <= i < |ps| && HasRole(rules, role, ps[i].fields) :: i in idx
    decreases |ps|
  {
    idx := PickedPositions(rules, role, ps, isgen);
  }

  /** The positions of the lines that take `role`, built up line by line. */
  lemma {:induction false} PickedPositions(rules: RuleSet, role: Role, ps: seq<Parsed>, isgen: bool)
    returns (idx: seq<nat>)
    ensures PickedAt(rules, role, ps, isgen, idx)
    decreases |ps|
  {
    if ps == [] {
      idx := [];
    } else {
      var n := |ps| - 1;
      var prev := PickedPositions(rules, role, ps[..n], isgen);
      if HasRole(rules, role, ps[n].fields) {
        PickedAtKept(rules, role, ps, isgen, prev);
        idx := prev + [n];
      } else {
        PickedAtSkipped(rules, role, ps, isgen, prev);
        idx := prev;
      }
    }
  }

  /** A last line that takes the role adds its position after those of the earlier lines. */
  lemma PickedAtKept(rules: RuleSet, role: Role, ps: seq<Parsed>, isgen: bool, prev: seq<nat>)
    requires |ps| > 0 && HasRole(rules, role, ps[|ps| - 1].fields)
    requires PickedAt(rules, role, ps[..|ps| - 1], isgen, prev)
    ensures PickedAt(rules, role, ps, isgen, prev + [|ps| - 1])
  {
    var n := |ps| - 1;
    var front := ps[..n];
    var before := Pick(rules, role, front, isgen);
    var picked := Pick(rules, role, ps, isgen);
    var idx := prev + [n];
    assert picked == before + [Stored(ps[n], isgen)];
    assert |idx| == |picked|;
    forall k | 0 <= k < |idx|
      ensures idx[k] < |ps| && HasRole(rules, role, ps[idx[k]].fields) && picked[k] == Stored(ps[idx[k]], isgen)
    {
      if k < |prev| {
        assert idx[k] == prev[k] && ps[prev[k]] == front[prev[k]];
        assert picked[k] == before[k];
      }
    }
    forall k, l | 0 <= k < l < |idx| ensures idx[k] < idx[l] {
      if l < |prev| {
        assert idx[k] == prev[k] && idx[l] == prev[l];
      } else {
        assert idx[k] == prev[k] < n;
      }
    }
    forall i | 0 <= i < |ps| && HasRole(rules, role, ps[i].fields) ensures i in idx {
      if i < n {
        assert front[i] == ps[i];
        assert i in prev;
      }
    }
  }

  /** A last line that does not take the role leaves the positions as they were. */
  lemma PickedAtSkipped(rules: RuleSet, role: Role, ps: seq<Parsed>, isgen: bool, prev: seq<nat>)
    requires |ps| > 0 && !HasRole(rules, role, ps[|ps| - 1].fields)
    requires PickedAt(rules, role, ps[..|ps| - 1], isgen, prev)
    ensures PickedAt(rules, role, ps, isgen, prev)
  {
    var n := |ps| - 1;
    var front := ps[..n];
    assert forall k | 0 <= k < |prev| :: ps[prev[k]] == front[prev[k]];
    forall i | 0 <= i < |ps| && HasRole(rules, role, ps[i].fields) ensures i in prev {
      assert i < n;
      assert front[i] == ps[i];
    }
  }

  /** Picking from two consecutive stretches of lines picks from each in turn. */
  lemma {:induction false} PickAppend(rules: RuleSet, role: Role, a: seq<Parsed>, b: seq<Parsed>, isgen: bool)
    ensures Pick(rules, role, a + b, isgen) == Pick(rules, role, a, isgen) + Pick(rules, role, b, isgen)
    decreases |b|
  {
    if b == [] {
      assert a + b == a;
    } else {
      var n := |b| - 1;
      assert (a + b)[..|a + b| - 1] == a + b[..n];
      PickAppend(rules, role, a, b[..n], isgen);
    }
  }

  /** When every line takes the role, every line is kept, in order. */
  lemma {:induction false} PickAll(rules: RuleSet, role: Role, ps: seq<Parsed>, isgen: bool)
    requires forall i | 0 <= i < |ps| :: HasRole(rules, role, ps[i].fields)
    ensures |Pick(rules, role, ps, isgen)| == |ps|
    ensures forall i | 0 <= i < |ps| :: Pick(rules, role, ps, isgen)[i] == Stored(ps[i], isgen)
    decreases |ps|
  {
    if ps != [] {
      var n := |ps| - 1;
      PickAll(rules, role, ps[..n], isgen);
    }
  }

  /** When no line takes the role, nothing is kept. */
  lemma {:induction false} PickNone(rules: RuleSet, role: Role, ps: seq<Parsed>, isgen: bool)
    requires forall i | 0 <= i < |ps| :: !HasRole(rules, role, ps[i].fields)
    ensures Pick(rules, role, ps, isgen) == []
    decreases |ps|
  {
    if ps != [] {
      PickNone(rules, role, ps[..|ps| - 1], isgen);
    }
  }

  /** The classifier fails exactly on a bad line, a wrong daughter count (four-fermion rules) or a wrong mother count. */
  lemma ExtractSucceedsIff(rules: RuleSet, lines: seq<string>, isgen: bool)
    ensures Extract(rules, lines, isgen).Ok? <==>
      ParseAll(lines).Ok?
      && (rules == FourFermions ==> |Pick(rules, Daughter, ParseAll(lines).value, isgen)| == 4)
      && |Pick(rules, Mother, ParseAll(lines).value, isgen)| == 2
  {
  }

  /** With the four-fermion rules a daughter-count error wins over a mother-count error. */
  lemma DaughterCountCheckedFirst(lines: seq<string>, isgen: bool)
    requires ParseAll(lines).Ok?
    requires |Pick(FourFermions, Daughter, ParseAll(lines).value, isgen)| != 4
    ensures Extract(FourFermions, lines, isgen).Err?
    ensures Extract(FourFermions, lines, isgen).error.WrongDaughterCount?
  {
  }

  /** Ids 6 and 21 are blinded at detector level yet never become daughters under either rule set. */
  lemma TopAndGluonNeverDaughters(rules: RuleSet, f: Fields)
    requires Abs(f.id) == 6 || Abs(f.id) == 21
    ensures IsJetId(f.id) && !IsDaughter(rules, f)
  {
  }

  // ---------------------------------------------------------------------------
  // Canonical particle lines
  // ---------------------------------------------------------------------------

  /** A particle line as a generator writes it: the four integer columns, then the rest. */
  function ParticleLine(id: int, status: int, mother1: int, mother2: int, rest: seq<string>): string {
    JoinWords([IntToString(id), IntToString(status), IntToString(mother1), IntToString(mother2)] + rest)
  }

  predicate AllWords(ws: seq<string>) {
    forall i | 0 <= i < |ws| :: IsWord(ws[i])
  }

  lemma IntToStringIsWord(n: int)
    ensures IsWord(IntToString(n))
  {
    var s := IntToString(n);
    if n < 0 {
      assert s == "-" + NatToString(-n);
      assert forall i | 1 <= i < |s| :: s[i] == NatToString(-n)[i - 1];
    }
  }

  lemma JoinWordsCons(w: string, ws: seq<string>)
    requires ws != []
    ensures JoinWords([w] + ws) == w + " " + JoinWords(ws)
  {
    assert ([w] + ws)[1..] == ws;
  }

  /** A canonical line parses back to its four integer columns. */
  lemma ParseParticleLine(id: int, status: int, mother1: int, mother2: int, rest: seq<string>)
    requires AllWords(rest)
    ensures ParseFields(ParticleLine(id, status, mother1, mother2, rest)) == Ok(Fields(id, status, mother1, mother2))
  {
    var head := [IntToString(id), IntToString(status), IntToString(mother1), IntToString(mother2)];
    WordsOfParticleLine(id, status, mother1, mother2, rest);
    assert (head + rest)[..4] == head;
    ParseColumns(id, status, mother1, mother2);
  }

  /** Splitting a canonical line gives back its columns. */
  lemma WordsOfParticleLine(id: int, status: int, mother1: int, mother2: int, rest: seq<string>)
    requires AllWords(rest)
    ensures Words(ParticleLine(id, status, mother1, mother2, rest))
         == [IntToString(id), IntToString(status), IntToString(mother1), IntToString(mother2)] + rest
  {
    var ws := [IntToString(id), IntToString(status), IntToString(mother1), IntToString(mother2)] + rest;
    IntToStringIsWord(id);
    IntToStringIsWord(status);
    IntToStringIsWord(mother1);
    IntToStringIsWord(mother2);
    assert forall i | 4 <= i < |ws| :: ws[i] == rest[i - 4];
    WordsOfJoinWords(ws);
  }

  /** int() reads the four printed columns back. */
  lemma ParseColumns(id: int, status: int, mother1: int, mother2: int)
    ensures ParseInts([IntToString(id), IntToString(status), IntToString(mother1), IntToString(mother2)])
         == Ok([id, status, mother1, mother2])
  {
    var head := [IntToString(id), IntToString(status), IntToString(mother1), IntToString(mother2)];
    IntRoundTrip(id);
    IntRoundTrip(status);
    IntRoundTrip(mother1);
    IntRoundTrip(mother2);
    ParseIntsMeaning(head);
    assert forall i | 0 <= i < 4 :: ParseInt(head[i]).Some?;
    var vs := ParseInts(head).value;
    assert vs[0] == id && vs[1] == status && vs[2] == mother1 && vs[3] == mother2;
    assert vs == [id, status, mother1, mother2];
  }

  /**
   * Blinding a canonical jet line rewrites its id column to "0" and leaves the
   * rest of the line as it was, even where the same digits recur later.
   */
  lemma BlindCanonicalJetLine(id: int, status: int, mother1: int, mother2: int, rest: seq<string>)
    requires IsJetId(id)
    ensures Stored(Parsed(ParticleLine(id, status, mother1, mother2, rest), Fields(id, status, mother1, mother2)), false)
         == JoinWords(["0", IntToString(status), IntToString(mother1), IntToString(mother2)] + rest)
  {
    var tail := [IntToString(status), IntToString(mother1), IntToString(mother2)] + rest;
    var text := ParticleLine(id, status, mother1, mother2, rest);
    assert text == IntToString(id) + (" " + JoinWords(tail)) by {
      JoinWordsCons(IntToString(id), tail);
      assert [IntToString(id)] + tail == [IntToString(id), IntToString(status), IntToString(mother1), IntToString(mother2)] + rest;
    }
    assert JoinWords(["0", IntToString(status), IntToString(mother1), IntToString(mother2)] + rest)
        == "0" + (" " + JoinWords(tail)) by {
      JoinWordsCons("0", tail);
      assert ["0"] + tail == ["0", IntToString(status), IntToString(mother1), IntToString(mother2)] + rest;
    }
    ReplaceFirstAtStart(IntToString(id), " " + JoinWords(tail), "0");
  }

  /** Lines that are not jets, or are read at generator level, are stored unchanged. */
  lemma StoredKeepsNonJets(p: Parsed, isgen: bool)
    requires isgen || !IsJetId(p.fields.id)
    ensures Stored(p, isgen) == p.text
  {
  }

  /** The texts of parsed lines. */
  function Texts(ps: seq<Parsed>): (r: seq<string>)
    ensures |r| == |ps|
  {
    seq(|ps|, i requires 0 <= i < |ps| => ps[i].text)
  }

  lemma TextsOf(ps: seq<Parsed>, lines: seq<string>)
    requires |ps| == |lines|
    requires forall i | 0 <= i < |ps| :: ps[i].text == lines[i]
    ensures Texts(ps) == lines
  {
  }

  /** Role selection on two mothers followed by four leptons. */
  lemma PickFourLeptons(a: seq<Parsed>, b: seq<Parsed>, isgen: bool)
    requires |a| == 2 && |b| == 4
    requires forall i | 0 <= i < 2 :: a[i].fields.status == -1
    requires forall i | 0 <= i < 4 :: b[i].fields.status == 1 && 11 <= Abs(b[i].fields.id) <= 16
    ensures Pick(FourFermions, Daughter, a + b, isgen) == Texts(b)
    ensures |Pick(FourFermions, Mother, a + b, isgen)| == 2
    ensures isgen ==> Pick(FourFermions, Mother, a + b, isgen) == Texts(a)
  {
    PickAppend(FourFermions, Daughter, a, b, isgen);
    PickAppend(FourFermions, Mother, a, b, isgen);
    PickNone(FourFermions, Daughter, a, isgen);
    PickAll(FourFermions, Mother, a, isgen);
    PickAll(FourFermions, Daughter, b, isgen);
    PickNone(FourFermions, Mother, b, isgen);
  }

  /**
   * Two incoming partons (status -1) and four outgoing leptons (status 1) give
   * two mothers, four daughters in input order and no associated particle;
   * the mothers are returned only at generator level, and then unchanged.
   */
  lemma FourLeptonEvent(mothers: seq<string>, leptons: seq<string>, isgen: bool)
    requires |mothers| == 2 && |leptons| == 4
    requires forall i | 0 <= i < 2 :: ParseFields(mothers[i]).Ok? && ParseFields(mothers[i]).value.status == -1
    requires forall i | 0 <= i < 4 ::
      (ParseFields(leptons[i]).Ok? && ParseFields(leptons[i]).value.status == 1
       && 11 <= Abs(ParseFields(leptons[i]).value.id) <= 16)
    ensures Extract(FourFermions, mothers + leptons, isgen)
         == Ok(Classified(leptons, [], if isgen then Some(mothers) else None))
  {
    var lines := mothers + leptons;
    assert ParseAll(lines).Ok? by {
      ParseAllMeaning(lines);
    }
    var ps := ParseAll(lines).value;
    forall i | 0 <= i < 6
      ensures ps[i].fields == ParseFields(lines[i]).value
    {
      ParseAllMeaning(lines);
    }
    var a, b := ps[..2], ps[2..];
    assert ps == a + b;
    forall i | 0 <= i < 2 ensures a[i].fields.status == -1 && a[i].text == mothers[i] {
      assert lines[i] == mothers[i];
    }
    forall i | 0 <= i < 4 ensures b[i].fields.status == 1 && 11 <= Abs(b[i].fields.id) <= 16 && b[i].text == leptons[i] {
      assert lines[i + 2] == leptons[i];
    }
    PickFourLeptons(a, b, isgen);
    TextsOf(a, mothers);
    TextsOf(b, leptons);
  }

  /**
   * Two incoming partons and one outgoing Higgs boson: the Higgs line is the
   * one daughter, with the lhe2root.py rules.
   */
  lemma HiggsEvent(mothers: seq<string>, higgs: string, isgen: bool)
    requires |mothers| == 2
    requires forall i | 0 <= i < 2 :: ParseFields(mothers[i]).Ok? && ParseFields(mothers[i]).value.status == -1
    requires ParseFields(higgs).Ok? && ParseFields(higgs).value.id == 25 && ParseFields(higgs).value.status == 1
    ensures Extract(HiggsAsDaughter, mothers + [higgs], isgen).Ok?
    ensures Extract(HiggsAsDaughter, mothers + [higgs], isgen).value.daughters == [higgs]
  {
    var lines := mothers + [higgs];
    assert ParseAll(lines).Ok? by {
      assert forall i | 0 <= i < 2 :: lines[i] == mothers[i];
      assert lines[2] == higgs;
      ParseAllMeaning(lines);
    }
    var ps := ParseAll(lines).value;
    forall i | 0 <= i < 3
      ensures ps[i].fields == ParseFields(lines[i]).value
    {
      ParseAllMeaning(lines);
    }
    var a, b := ps[..2], ps[2..];
    assert ps == a + b;
    forall i | 0 <= i < 2 ensures a[i].fields.status == -1 {
      assert lines[i] == mothers[i];
    }
    assert b[0].fields.status == 1 && Abs(b[0].fields.id) == 25 && b[0].text == higgs by {
      assert lines[2] == higgs;
    }
    PickAppend(HiggsAsDaughter, Daughter, a, b, isgen);
    PickAppend(HiggsAsDaughter, Mother, a, b, isgen);
    PickNone(HiggsAsDaughter, Daughter, a, isgen);
    PickAll(HiggsAsDaughter, Mother, a, isgen);
    PickAll(HiggsAsDaughter, Daughter, b, isgen);
    PickNone(HiggsAsDaughter, Mother, b, isgen);
  }

  // ---------------------------------------------------------------------------
  // The classifier as written (see README, Findings)
  // ---------------------------------------------------------------------------

  /**
   * The first exception the loop raises as written: in lhe2root.py the test
   * `abs(id) in (25)` raises TypeError for the first line that parses; in
   * lhe2rootggH.py `flav4l = flav4l*abs(id)` raises UnboundLocalError at the
   * first daughter.
   */
  function FirstFailureAsWritten(rules: RuleSet, lines: seq<string>): Option<Error>
    decreases |lines|
  {
    if lines == [] then None
    else
      var n := |lines| - 1;
      match FirstFailureAsWritten(rules, lines[..n])
      case Some(e) => Some(e)
      case None =>
        match ParseFields(lines[n])
        case Err(e) => Some(e)
        case Ok(f) =>
          if rules == HiggsAsDaughter then Some(MembershipInInt)
          else if IsDaughter(rules, f) then Some(UnboundFlav4l)
          else None
  }

  /** `extracteventparticles` as written in either script. */
  function ExtractAsWritten(rules: RuleSet, lines: seq<string>, isgen: bool): Result<Classified, Error> {
    match FirstFailureAsWritten(rules, lines)
    case Some(e) => Err(e)
    case None => Extract(rules, lines, isgen)
  }

  lemma {:induction false} NoFailureAsWritten(rules: RuleSet, lines: seq<string>)
    requires FirstFailureAsWritten(rules, lines).None?
    ensures ParseAll(lines).Ok?
    ensures rules == HiggsAsDaughter ==> lines == []
    ensures forall i | 0 <= i < |lines| :: !IsDaughter(rules, ParseAll(lines).value[i].fields)
    decreases |lines|
  {
    if lines != [] {
      var n := |lines| - 1;
      NoFailureAsWritten(rules, lines[..n]);
    }
  }

  /** As written, neither classifier ever returns: every input raises. */
  lemma AsWrittenNeverSucceeds(rules: RuleSet, lines: seq<string>, isgen: bool)
    ensures ExtractAsWritten(rules, lines, isgen).Err?
  {
    if FirstFailureAsWritten(rules, lines).None? {
      NoFailureAsWritten(rules, lines);
      PickNone(rules, Daughter, ParseAll(lines).value, isgen);
    }
  }

  /** As written, an event with at least one readable line fails with the TypeError under the Higgs rules. */
  lemma HiggsAsWrittenRaisesTypeError(lines: seq<string>, isgen: bool)
    requires lines != [] && ParseFields(lines[0]).Ok?
    ensures ExtractAsWritten(HiggsAsDaughter, lines, isgen) == Err(MembershipInInt)
  {
    FirstLineFailsAsWritten(lines);
  }

  lemma {:induction false} FirstLineFailsAsWritten(lines: seq<string>)
    requires lines != [] && ParseFields(lines[0]).Ok?
    ensures FirstFailureAsWritten(HiggsAsDaughter, lines) == Some(MembershipInInt)
    decreases |lines|
  {
    if |lines| > 1 {
      var n := |lines| - 1;
      assert lines[..n][0] == lines[0];
      FirstLineFailsAsWritten(lines[..n]);
    } else {
      assert lines[..0] == [];
    }
  }
}
