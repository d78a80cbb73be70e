/**
 * The move-list helpers of ui/src/components/steps.ts: a line being built is
 * a list of steps, each the position before a move, the move in UCI and SAN,
 * and the position after it. The chess rules themselves (playing a move,
 * writing and reading SAN) come from a library and are given here as the
 * fields of `Rules`.
 */
module Steps {
  import opened Text
  import opened Types

  type Fen = string
  type Uci = string
  type San = string

  /** The FEN of the standard starting position. */
  const InitialFen: Fen := "rnbqkbnr/pppppppp/8/8/8/8/PPPPPPPP/RNBQKBNR w KQkq - 0 1"

  /**
   * The chess library: the position after a move, the SAN of a move in a
   * position, and the move a SAN token stands for in a position, if any.
   */
  datatype Rules = Rules(
    play: (Fen, Uci) -> Fen,
    san: (Fen, Uci) -> San,
    parseSan: (Fen, string) -> Option<Uci>)

  datatype Step = Step(beforeFen: Fen, fen: Fen, uci: Uci, san: San)

  /** The step records its move played in its `beforeFen`. */
  predicate Played(rules: Rules, s: Step)
  {
    s.fen == rules.play(s.beforeFen, s.uci) && s.san == rules.san(s.beforeFen, s.uci)
  }

  /** `steps[steps.length - 1]?.fen ?? INITIAL_FEN`: the position the next move is played in. */
  function LastFen(steps: seq<Step>): Fen
  {
    if |steps| == 0 then InitialFen else steps[|steps| - 1].fen
  }

  /** A well-formed line: each step is played, the first from the start, each next from where the last ended. */
  predicate Chained(rules: Rules, steps: seq<Step>)
  {
    && (forall i :: 0 <= i < |steps| ==> Played(rules, steps[i]))
    && (|steps| > 0 ==> steps[0].beforeFen == InitialFen)
    && (forall i :: 0 < i < |steps| ==> steps[i].beforeFen == steps[i - 1].fen)
  }

  /** `steps_add_uci`: the step of `uci` played where `steps` ends. */
  function StepsAddUci(rules: Rules, steps: seq<Step>, uci: Uci): (s: Step)
    ensures Played(rules, s) && s.uci == uci
    ensures s.beforeFen == LastFen(steps)
  {
    var before := LastFen(steps);
    Step(before, rules.play(before, uci), uci, rules.san(before, uci))
  }

  /** Appending the next step keeps a line well formed. */
  lemma AddKeepsChained(rules: Rules, steps: seq<Step>, uci: Uci)
    requires Chained(rules, steps)
    ensures Chained(rules, steps + [StepsAddUci(rules, steps, uci)])
  {
  }

  /** `ucis.map` over the steps. */
  function UcisOf(steps: seq<Step>): (r: seq<Uci>)
    ensures |r| == |steps|
    ensures forall i :: 0 <= i < |steps| ==> r[i] == steps[i].uci
  {
    seq(|steps|, i requires 0 <= i < |steps| => steps[i].uci)
  }

  /** The position after playing `ucis` one by one from `fen`. */
  function ReplayFrom(rules: Rules, fen: Fen, ucis: seq<Uci>): Fen
    decreases |ucis|
  {
    if |ucis| == 0 then fen else ReplayFrom(rules, rules.play(fen, ucis[0]), ucis[1..])
  }

  lemma {:induction false} ReplaySnoc(rules: Rules, fen: Fen, ucis: seq<Uci>, u: Uci)
    ensures ReplayFrom(rules, fen, ucis + [u]) == rules.play(ReplayFrom(rules, fen, ucis), u)
    decreases |ucis|
  {
    if |ucis| > 0 {
      assert (ucis + [u])[1..] == ucis[1..] + [u];
      ReplaySnoc(rules, rules.play(fen, ucis[0]), ucis[1..], u);
    }
  }

  /** The steps `steps_make_from_UCIs(ucis)` builds: each move added where the previous ones end. */
  function MakeSteps(rules: Rules, ucis: seq<Uci>): (steps: seq<Step>)
    ensures |steps| == |ucis|
    ensures Chained(rules, steps)
    ensures UcisOf(steps) == ucis
    ensures LastFen(steps) == ReplayFrom(rules, InitialFen, ucis)
  {
    if |ucis| == 0 then []
    else
      var prev := MakeSteps(rules, ucis[..|ucis| - 1]);
      AddKeepsChained(rules, prev, ucis[|ucis| - 1]);
      ReplaySnoc(rules, InitialFen, ucis[..|ucis| - 1], ucis[|ucis| - 1]);
      assert ucis[..|ucis| - 1] + [ucis[|ucis| - 1]] == ucis;
      prev + [StepsAddUci(rules, prev, ucis[|ucis| - 1])]
  }

  /** A well-formed line is exactly what its moves build: the steps are determined by the UCIs. */
  lemma {:induction false} ChainedIsMade(rules: Rules, steps: seq<Step>)
    requires Chained(rules, steps)
    ensures MakeSteps(rules, UcisOf(steps)) == steps
  {
    if |steps| > 0 {
      var n := |steps| - 1;
      var prev := steps[..n];
      ChainedIsMade(rules, prev);
      assert UcisOf(steps)[..n] == UcisOf(prev);
      assert steps[n].beforeFen == LastFen(prev);
    }
  }

  /** Building from a prefix of the moves gives the prefix of the steps. */
  lemma {:induction false} MakeStepsPrefix(rules: Rules, ucis: seq<Uci>, n: nat)
    requires n <= |ucis|
    ensures MakeSteps(rules, ucis)[..n] == MakeSteps(rules, ucis[..n])
    decreases |ucis|
  {
    if n < |ucis| {
      var m := |ucis| - 1;
      MakeStepsPrefix(rules, ucis[..m], n);
      assert ucis[..m][..n] == ucis[..n];
    } else {
      assert ucis[..n] == ucis;
    }
  }

  /** In a well-formed line, the position after step `c` is the replay of the first `c + 1` moves. */
  lemma StepFenIsReplay(rules: Rules, steps: seq<Step>, c: nat)
    requires Chained(rules, steps) && c < |steps|
    ensures steps[c].fen == ReplayFrom(rules, InitialFen, UcisOf(steps)[..c + 1])
  {
    ChainedIsMade(rules, steps);
    MakeStepsPrefix(rules, UcisOf(steps), c + 1);
  }

  /** `steps_make_from_UCIs`: the steps built by adding the moves one after the other. */
  method StepsMakeFromUcis(rules: Rules, ucis: seq<Uci>) returns (steps: seq<Step>)
    ensures steps == MakeSteps(rules, ucis)
  {
    steps := [];
    for i := 0 to |ucis|
      invariant steps == MakeSteps(rules, ucis[..i])
    {
      assert ucis[..i + 1][..i] == ucis[..i];
      steps := steps + [StepsAddUci(rules, steps, ucis[i])];
    }
    assert ucis[..|ucis|] == ucis;
  }

  /** `steps_export_UCI`: the moves, space separated. */
  function StepsExportUci(steps: seq<Step>): string
  {
    Join(UcisOf(steps))
  }

  /** The UCI export of the steps built from `ucis` is `ucis` joined with single spaces. */
  lemma ExportOfMade(rules: Rules, ucis: seq<Uci>)
    ensures StepsExportUci(MakeSteps(rules, ucis)) == Join(ucis)
  {
  }

  /** Exporting a non-empty well-formed line to UCI and building from that text gives the line back. */
  lemma UciRoundTrip(rules: Rules, steps: seq<Step>)
    requires Chained(rules, steps) && |steps| >= 1
    requires forall i :: 0 <= i < |steps| ==> ' ' !in steps[i].uci
    ensures MakeSteps(rules, Split(StepsExportUci(steps))) == steps
  {
    SplitJoin(UcisOf(steps));
    ChainedIsMade(rules, steps);
  }

  /** `Math.ceil(ply / 2)` for a non-negative ply: the move number. */
  function MoveNumber(ply: nat): (n: nat)
    ensures ply <= 2 * n <= ply + 1
  {
    (ply + 1) / 2
  }

  /** `ply_to_index`: the move number, then `.` for White's ply (odd) and `...` for Black's (even). */
  function PlyToIndex(ply: nat): (s: string)
    ensures s == NatToString(MoveNumber(ply)) + (if ply % 2 == 0 then "..." else ".")
  {
    NatToString(MoveNumber(ply)) + "." + (if ply % 2 == 0 then ".." else "")
  }

  /** Reads a move index back: `k...` is ply `2k`, `k.` is ply `2k - 1`. */
  function IndexToPly(s: string): int
  {
    if |s| >= 3 && s[|s| - 3..] == "..." && forall i :: 0 <= i < |s| - 3 ==> IsDigit(s[i]) then
      2 * DecimalValue(s[..|s| - 3])
    else if |s| >= 1 && s[|s| - 1] == '.' && forall i :: 0 <= i < |s| - 1 ==> IsDigit(s[i]) then
      2 * DecimalValue(s[..|s| - 1]) - 1
    else -1
  }

  /** The move index names its ply: reading it back gives the ply, so no two plies share an index. */
  lemma PlyIndexRoundTrip(ply: nat)
    ensures IndexToPly(PlyToIndex(ply)) == ply
  {
    var d := NatToString(MoveNumber(ply));
    var s := PlyToIndex(ply);
    DecimalRoundTrip(MoveNumber(ply));
    if ply % 2 == 0 {
      assert s[..|s| - 3] == d;
    } else {
      assert s[..|s| - 1] == d;
      assert !IsDigit(s[|s| - 1]);
    }
  }

  /** `ply_to_index_omit_black`: Black's plies carry no index. */
  function PlyToIndexOmitBlack(ply: nat): (s: string)
    ensures ply % 2 == 0 <==> s == ""
    ensures ply % 2 == 1 ==> IndexToPly(s) == ply
  {
    if ply % 2 == 0 then "" else (PlyIndexRoundTrip(ply); PlyToIndex(ply))
  }

  /** The PGN token of the step at index `i`: White's moves carry their move number. */
  function PgnToken(steps: seq<Step>, i: nat): string
    requires i < |steps|
  {
    PlyToIndexOmitBlack(i + 1) + steps[i].san
  }

  function PgnTokens(steps: seq<Step>): (r: seq<string>)
    ensures |r| == |steps|
    ensures forall i :: 0 <= i < |steps| ==> r[i] == PgnToken(steps, i)
  {
    seq(|steps|, i requires 0 <= i < |steps| => PgnToken(steps, i))
  }

  /** `steps_export_PGN`: the numbered SAN moves, space separated, as in `1.e4 e5 2.Nf3`. */
  function StepsExportPgn(steps: seq<Step>): string
  {
    Join(PgnTokens(steps))
  }

  /**
   * The exported PGN of a non-empty line whose SANs hold no space has one
   * token per step: White's ply at index `i` is the move number, a dot and
   * the SAN; Black's is the bare SAN.
   */
  lemma PgnExportTokens(steps: seq<Step>)
    requires |steps| >= 1
    requires forall i :: 0 <= i < |steps| ==> ' ' !in steps[i].san
    ensures var tokens := Split(StepsExportPgn(steps));
      && |tokens| == |steps|
      && forall i :: 0 <= i < |steps| ==>
           tokens[i] == (if i % 2 == 0 then NatToString(i / 2 + 1) + "." else "") + steps[i].san
  {
    var tokens := PgnTokens(steps);
    forall i | 0 <= i < |tokens|
      ensures ' ' !in tokens[i]
    {
      PgnTokenShape(steps, i);
    }
    SplitJoin(tokens);
    forall i | 0 <= i < |steps|
      ensures tokens[i] == (if i % 2 == 0 then NatToString(i / 2 + 1) + "." else "") + steps[i].san
    {
      PgnTokenShape(steps, i);
    }
  }

  lemma PgnTokenShape(steps: seq<Step>, i: nat)
    requires i < |steps| && ' ' !in steps[i].san
    ensures PgnToken(steps, i) == (if i % 2 == 0 then NatToString(i / 2 + 1) + "." else "") + steps[i].san
    ensures ' ' !in PgnToken(steps, i)
  {
    var san := steps[i].san;
    if i % 2 == 0 {
      var d := NatToString(i / 2 + 1);
      assert MoveNumber(i + 1) == i / 2 + 1;
      assert PlyToIndexOmitBlack(i + 1) == d + ".";
      assert ' ' !in d by {
        forall k | 0 <= k < |d|
          ensures d[k] != ' '
        {
          assert IsDigit(d[k]);
        }
      }
      assert ' ' !in d + ".";
    } else {
      assert PlyToIndexOmitBlack(i + 1) == "";
      assert "" + san == san;
    }
  }

  /**
   * What `single_line_pgn_to_ucis` makes of `tokens` from position `fen`:
   * each token the rules can read as a move there becomes that move and is
   * played; any other token is skipped.
   */
  function ParseTokens(rules: Rules, fen: Fen, tokens: seq<string>): (r: seq<Uci>)
    ensures |r| <= |tokens|
    decreases |tokens|
  {
    if |tokens| == 0 then []
    else
      match rules.parseSan(fen, tokens[0])
      case None => ParseTokens(rules, fen, tokens[1..])
      case Some(u) => [u] + ParseTokens(rules, rules.play(fen, u), tokens[1..])
  }

  /** Some token of `tokens` reads as `u` in position `pos`. */
  predicate SomeTokenReads(rules: Rules, pos: Fen, tokens: seq<string>, u: Uci)
  {
    exists j :: 0 <= j < |tokens| && rules.parseSan(pos, tokens[j]) == Some(u)
  }

  /**
   * Every move read is the reading of some token in the position the
   * earlier moves lead to: the result replays from `fen` move by move.
   */
  lemma {:induction false} ParsedMovesReplay(rules: Rules, fen: Fen, tokens: seq<string>)
    ensures forall k :: 0 <= k < |ParseTokens(rules, fen, tokens)| ==>
      SomeTokenReads(rules, ReplayFrom(rules, fen, ParseTokens(rules, fen, tokens)[..k]), tokens, ParseTokens(rules, fen, tokens)[k])
    decreases |tokens|
  {
    if |tokens| > 0 {
      var r := ParseTokens(rules, fen, tokens);
      match rules.parseSan(fen, tokens[0])
      case None =>
        assert r == ParseTokens(rules, fen, tokens[1..]);
        ParsedMovesReplay(rules, fen, tokens[1..]);
        forall k | 0 <= k < |r|
          ensures SomeTokenReads(rules, ReplayFrom(rules, fen, r[..k]), tokens, r[k])
        {
          var j :| 0 <= j < |tokens[1..]| && rules.parseSan(ReplayFrom(rules, fen, r[..k]), tokens[1..][j]) == Some(r[k]);
          assert tokens[j + 1] == tokens[1..][j];
        }
      case Some(u) =>
        var fen' := rules.play(fen, u);
        var rest := ParseTokens(rules, fen', tokens[1..]);
        ParsedMovesReplay(rules, fen', tokens[1..]);
        forall k | 0 <= k < |r|
          ensures SomeTokenReads(rules, ReplayFrom(rules, fen, r[..k]), tokens, r[k])
        {
          assert r == [u] + rest;
          if k == 0 {
            assert r[..0] == [];
          } else {
            assert r[..k][0] == u && r[..k][1..] == rest[..k - 1];
            assert ReplayFrom(rules, fen, r[..k]) == ReplayFrom(rules, fen', rest[..k - 1]);
            assert SomeTokenReads(rules, ReplayFrom(rules, fen', rest[..k - 1]), tokens[1..], rest[k - 1]);
            var j :| 0 <= j < |tokens[1..]| && rules.parseSan(ReplayFrom(rules, fen', rest[..k - 1]), tokens[1..][j]) == Some(rest[k - 1]);
            assert tokens[j + 1] == tokens[1..][j];
          }
        }
    }
  }

  /** When every token reads as a move in turn, there is one move per token. */
  lemma {:induction false} AllTokensRead(rules: Rules, fen: Fen, tokens: seq<string>, ucis: seq<Uci>)
    requires |ucis| == |tokens|
    requires forall k :: 0 <= k < |tokens| ==> rules.parseSan(ReplayFrom(rules, fen, ucis[..k]), tokens[k]) == Some(ucis[k])
    ensures ParseTokens(rules, fen, tokens) == ucis
    decreases |tokens|
  {
    if |tokens| > 0 {
      assert ucis[..0] == [];
      var fen' := rules.play(fen, ucis[0]);
      forall k | 0 <= k < |tokens[1..]|
        ensures rules.parseSan(ReplayFrom(rules, fen', ucis[1..][..k]), tokens[1..][k]) == Some(ucis[1..][k])
      {
        assert ucis[..k + 1][1..] == ucis[1..][..k];
        assert rules.parseSan(ReplayFrom(rules, fen, ucis[..k + 1]), tokens[k + 1]) == Some(ucis[k + 1]);
      }
      AllTokensRead(rules, fen', tokens[1..], ucis[1..]);
    }
  }

  /** `single_line_pgn_to_ucis`: split on spaces, read each token in the current position, skip the unreadable. */
  method SingleLinePgnToUcis(rules: Rules, pgn: string) returns (res: seq<Uci>)
    ensures res == ParseTokens(rules, InitialFen, Split(pgn))
  {
    res := [];
    var fen := InitialFen;
    var lines := Split(pgn);
    for i := 0 to |lines|
      invariant res + ParseTokens(rules, fen, lines[i..]) == ParseTokens(rules, InitialFen, lines)
    {
      assert lines[i..][1..] == lines[i + 1..];
      var move := rules.parseSan(fen, lines[i]);
      if move.Some? {
        res := res + [move.value];
        fen := rules.play(fen, move.value);
      }
    }
  }

  /** `steps_make_from_PGN`: the moves read from the PGN, built into steps. */
  method StepsMakeFromPgn(rules: Rules, pgn: string) returns (steps: seq<Step>)
    ensures steps == MakeSteps(rules, ParseTokens(rules, InitialFen, Split(pgn)))
  {
    var ucis := SingleLinePgnToUcis(rules, pgn);
    steps := StepsMakeFromUcis(rules, ucis);
  }
}
