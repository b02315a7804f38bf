/**
 * The Python 2 `str` operations the event tokenizer and the role classifier
 * rely on: `split("\n")`, whitespace `split()`, `split("#")[0]`, `strip()`
 * emptiness, substring search (`in`) and `replace(old, new, 1)`.
 */
module PyText {
  import opened Wrappers

  /** The characters Python 2 `str.split()` and `str.strip()` treat as whitespace. */
  predicate IsSpace(c: char) {
    c == ' ' || c == '\t' || c == '\n' || c == '\r' || c == 11 as char || c == 12 as char
  }

  /** A token of `str.split()`: non-empty and free of whitespace. */
  predicate IsWord(w: string) {
    w != [] && forall i | 0 <= i < |w| :: !IsSpace(w[i])
  }

  // ---------------------------------------------------------------------------
  // s.split("\n") and its inverse "\n".join(ls)
  // ---------------------------------------------------------------------------

  /** `s.split("\n")`: the pieces between newlines, always at least one. */
  function SplitLines(s: string): (r: seq<string>)
    ensures |r| > 0
    ensures forall i | 0 <= i < |r| :: '\n' !in r[i]
    decreases |s|
  {
    if s == [] then [""]
    else
      var rest := SplitLines(s[1..]);
      if s[0] == '\n' then [""] + rest
      else [[s[0]] + rest[0]] + rest[1..]
  }

  /** `"\n".join(ls)` */
  function JoinLines(ls: seq<string>): string
    decreases |ls|
  {
    if |ls| == 0 then ""
    else if |ls| == 1 then ls[0]
    else ls[0] + "\n" + JoinLines(ls[1..])
  }

  /** Splitting on newlines loses nothing: joining the pieces gives the text back. */
  lemma {:induction false} JoinSplitLines(s: string)
    ensures JoinLines(SplitLines(s)) == s
    decreases |s|
  {
    if s != [] {
      var rest := SplitLines(s[1..]);
      JoinSplitLines(s[1..]);
      if s[0] == '\n' {
        assert SplitLines(s) == [""] + rest;
        assert ([""] + rest)[1..] == rest;
      } else {
        var r := [[s[0]] + rest[0]] + rest[1..];
        assert SplitLines(s) == r;
        if |rest| > 1 {
          assert r[1..] == rest[1..];
          assert JoinLines(rest) == rest[0] + "\n" + JoinLines(rest[1..]);
        }
      }
    }
  }

  /** A text without newlines is a single line. */
  lemma {:induction false} SplitLinesNoNewline(w: string)
    requires '\n' !in w
    ensures SplitLines(w) == [w]
    decreases |w|
  {
    if w != [] {
      assert '\n' !in w[1..];
      SplitLinesNoNewline(w[1..]);
      assert [w[0]] + w[1..] == w;
    }
  }

  /** A newline-free prefix followed by a newline becomes its own line. */
  lemma {:induction false} SplitLinesCons(w: string, t: string)
    requires '\n' !in w
    ensures SplitLines(w + "\n" + t) == [w] + SplitLines(t)
    decreases |w|
  {
    if w == [] {
      assert w + "\n" + t == "\n" + t;
      assert ("\n" + t)[1..] == t;
    } else {
      assert (w + "\n" + t)[1..] == w[1..] + "\n" + t;
      assert '\n' !in w[1..];
      SplitLinesCons(w[1..], t);
      assert [w[0]] + w[1..] == w;
    }
  }

  /** Joining newline-free lines and splitting again gives the same lines. */
  lemma {:induction false} SplitJoinLines(ls: seq<string>)
    requires |ls| > 0
    requires forall i | 0 <= i < |ls| :: '\n' !in ls[i]
    ensures SplitLines(JoinLines(ls)) == ls
    decreases |ls|
  {
    if |ls| == 1 {
      SplitLinesNoNewline(ls[0]);
    } else {
      SplitJoinLines(ls[1..]);
      SplitLinesCons(ls[0], JoinLines(ls[1..]));
      assert [ls[0]] + ls[1..] == ls;
    }
  }

  // ---------------------------------------------------------------------------
  // s.split(): maximal runs of non-whitespace
  // ---------------------------------------------------------------------------

  /** Length of the leading whitespace run of `s`. */
  function SpaceRun(s: string): (n: nat)
    ensures n <= |s|
    ensures forall i | 0 <= i < n :: IsSpace(s[i])
    ensures n < |s| ==> !IsSpace(s[n])
    decreases |s|
  {
    if s == [] || !IsSpace(s[0]) then 0 else 1 + SpaceRun(s[1..])
  }

  /** Length of the leading non-whitespace run of `s`. */
  function WordRun(s: string): (n: nat)
    ensures n <= |s|
    ensures forall i | 0 <= i < n :: !IsSpace(s[i])
    ensures n < |s| ==> IsSpace(s[n])
    decreases |s|
  {
    if s == [] || IsSpace(s[0]) then 0 else 1 + WordRun(s[1..])
  }

  /** `s.split()`: the maximal whitespace-free runs of `s`, in order. */
  function Words(s: string): (r: seq<string>)
    ensures forall i | 0 <= i < |r| :: IsWord(r[i])
    decreases |s|
  {
    var t := s[SpaceRun(s)..];
    if t == [] then []
    else
      var n := WordRun(t);
      [t[..n]] + Words(t[n..])
  }

  /** `" ".join(ws)` */
  function JoinWords(ws: seq<string>): string
    decreases |ws|
  {
    if |ws| == 0 then ""
    else if |ws| == 1 then ws[0]
    else ws[0] + " " + JoinWords(ws[1..])
  }

  /** A word followed by whitespace (or by nothing) is read as one whole token. */
  lemma {:induction false} WordRunOfWord(w: string, t: string)
    requires IsWord(w)
    requires t == [] || IsSpace(t[0])
    ensures WordRun(w + t) == |w|
    decreases |w|
  {
    if |w| > 1 {
      assert (w + t)[1..] == w[1..] + t;
      WordRunOfWord(w[1..], t);
    } else {
      assert (w + t)[1..] == t;
    }
  }

  /** Splitting single-space-joined words on whitespace gives the words back. */
  lemma {:induction false} WordsOfJoinWords(ws: seq<string>)
    requires forall i | 0 <= i < |ws| :: IsWord(ws[i])
    ensures Words(JoinWords(ws)) == ws
    decreases |ws|
  {
    if |ws| == 1 {
      WordsOfWord(ws[0]);
    } else if |ws| > 1 {
      WordsOfJoinWords(ws[1..]);
      WordsOfWordThenText(ws[0], JoinWords(ws[1..]));
      assert [ws[0]] + ws[1..] == ws;
    }
  }

  /** A lone word splits into itself. */
  lemma WordsOfWord(w: string)
    requires IsWord(w)
    ensures Words(w) == [w]
  {
    assert w + "" == w;
    WordRunOfWord(w, "");
    assert SpaceRun(w) == 0;
    assert Words(w[|w|..]) == [];
  }

  /** A word, one space, then any text: the word is the first token, the text gives the rest. */
  lemma WordsOfWordThenText(w: string, j: string)
    requires IsWord(w)
    ensures Words(w + " " + j) == [w] + Words(j)
  {
    var s := w + " " + j;
    assert s == w + (" " + j);
    assert SpaceRun(s) == 0 by { assert !IsSpace(s[0]); }
    WordRunOfWord(w, " " + j);
    assert s[..|w|] == w;
    assert s[|w|..] == " " + j;
    WordsAfterSpace(j);
  }

  /** A leading space does not change the split. */
  lemma WordsAfterSpace(j: string)
    ensures Words(" " + j) == Words(j)
  {
    assert SpaceRun(" " + j) == 1 + SpaceRun(j) by { assert (" " + j)[1..] == j; }
    assert (" " + j)[1 + SpaceRun(j)..] == j[SpaceRun(j)..];
  }

  // ---------------------------------------------------------------------------
  // s.split("#")[0] and strip() emptiness
  // ---------------------------------------------------------------------------

  /** Index of the first `c` in `s`, or `|s|` when there is none. */
  function CharIndex(s: string, c: char): (k: nat)
    ensures k <= |s|
    ensures k < |s| ==> s[k] == c
    ensures forall i | 0 <= i < k :: s[i] != c
    decreases |s|
  {
    if s == [] then 0 else if s[0] == c then 0 else 1 + CharIndex(s[1..], c)
  }

  /** `s.split("#")[0]`: the text before the first `#`. */
  function BeforeHash(s: string): (r: string)
    ensures '#' !in r
    ensures r <= s
  {
    s[..CharIndex(s, '#')]
  }

  /** `not s.strip()`: the text is empty or consists of whitespace only. */
  predicate IsBlank(s: string) {
    forall i | 0 <= i < |s| :: IsSpace(s[i])
  }

  // ---------------------------------------------------------------------------
  // substring search: `pat in s`, and s.replace(old, new, 1)
  // ---------------------------------------------------------------------------

  predicate OccursAt(s: string, pat: string, k: nat) {
    k + |pat| <= |s| && s[k..k + |pat|] == pat
  }

  /** The leftmost occurrence of `pat` in `s` at or after `k`. */
  function FindFrom(s: string, pat: string, k: nat): (r: Option<nat>)
    requires k <= |s|
    ensures r.Some? ==> k <= r.value && OccursAt(s, pat, r.value)
    ensures r.Some? ==> forall j | k <= j < r.value :: !OccursAt(s, pat, j)
    ensures r.None? ==> forall j | k <= j <= |s| :: !OccursAt(s, pat, j)
    decreases |s| - k
  {
    if OccursAt(s, pat, k) then Some(k)
    else if k == |s| then None
    else FindFrom(s, pat, k + 1)
  }

  /** `pat in s` */
  predicate Contains(s: string, pat: string) {
    FindFrom(s, pat, 0).Some?
  }

  /** `s.replace(target, repl, 1)`: only the leftmost occurrence of `target` is replaced. */
  function ReplaceFirst(s: string, target: string, repl: string): string {
    match FindFrom(s, target, 0)
    case None => s
    case Some(k) => s[..k] + repl + s[k + |target|..]
  }

  /**
   * A text that starts with `target` has exactly that occurrence replaced; every
   * later occurrence in the remainder survives.
   */
  lemma ReplaceFirstAtStart(target: string, rest: string, repl: string)
    ensures ReplaceFirst(target + rest, target, repl) == repl + rest
  {
    var s := target + rest;
    assert OccursAt(s, target, 0) by { assert s[..|target|] == target; }
    assert FindFrom(s, target, 0) == Some(0);
    assert s[|target|..] == rest;
  }

  /** Where `target` does not occur, the text is left alone. */
  lemma ReplaceFirstAbsent(s: string, target: string, repl: string)
    requires forall j | 0 <= j <= |s| :: !OccursAt(s, target, j)
    ensures ReplaceFirst(s, target, repl) == s
  {
  }
}
