/**
 * The deviation matcher of app/src/util.ts: finds, for one played game, the
 * saved line it followed longest and the ply at which play left it, then
 * scores the game.
 *
 * The match is deliberately loose: a line matches at window `w` when its
 * first `w` plies, re-joined with single spaces, occur ANYWHERE in the
 * game's joined move string, not only at its start.
 */
module Matcher {
  import opened Text
  import opened Scorer
  import opened Types
  import opened Lists

  /** The largest window tried. */
  const MaxWindow: nat := 30

  /** The boundaries of the current calendar day: local midnight today and tomorrow. */
  datatype Day = Day(start: int, next: int)

  /** `is_timestamp_in_today`, with the day boundaries given instead of read from the clock. */
  predicate InDay(t: int, day: Day)
  {
    day.start <= t < day.next
  }

  /** The window is half-open: it holds its start, not its end, and consecutive days do not overlap. */
  lemma DayIsHalfOpen(day: Day, t: int)
    requires day.start < day.next
    ensures InDay(day.start, day) && !InDay(day.next, day)
    ensures !(InDay(t, day) && InDay(t, Day(day.next, day.next + (day.next - day.start))))
  {
  }

  function MinNat(a: nat, b: nat): nat { if a <= b then a else b }

  /** The window the search starts from: `Math.min(30, game_ucis.length)`. */
  function InitialWindow(game: GameQuery): (w: nat)
    ensures 1 <= w <= MaxWindow && w <= |Split(game.ucis)|
  {
    MinNat(MaxWindow, |Split(game.ucis)|)
  }

  /** The first `w` plies of a line, re-joined. */
  function WindowPrefix(line: Line, w: nat): string
  {
    Join(Take(Split(line.moves), w))
  }

  /** A line matches at window `w` when its window prefix is a substring of the joined game. */
  predicate Matches(line: Line, joined: string, w: nat)
  {
    Includes(joined, WindowPrefix(line, w))
  }

  /** The head of a list after the stable sort by descending `moves.length`: the first longest line. */
  function LongestIndex(c: seq<Line>): (i: nat)
    requires |c| > 0
    ensures i < |c|
  {
    if |c| == 1 then 0
    else
      var k := LongestIndex(c[1..]);
      if |c[0].moves| >= |c[k + 1].moves| then 0 else k + 1
  }

  /** The line at `LongestIndex` is a longest one, and every line before it is strictly shorter. */
  lemma {:induction false} LongestIndexIsFirstLongest(c: seq<Line>)
    requires |c| > 0
    ensures forall j :: 0 <= j < |c| ==> |c[j].moves| <= |c[LongestIndex(c)].moves|
    ensures forall j :: 0 <= j < LongestIndex(c) ==> |c[j].moves| < |c[LongestIndex(c)].moves|
  {
    if |c| > 1 {
      var t := c[1..];
      LongestIndexIsFirstLongest(t);
      forall j | 0 < j < |c|
        ensures c[j] == t[j - 1]
      {
      }
    }
  }

  /** Past a head that is not the first longest, the first longest of the tail is the first longest overall, and longer than the head. */
  lemma LongestPastHead(x: Line, rest: seq<Line>)
    requires LongestIndex([x] + rest) != 0
    ensures |rest| > 0 && LongestIndex([x] + rest) == LongestIndex(rest) + 1
    ensures |x.moves| < |rest[LongestIndex(rest)].moves|
  {
    assert ([x] + rest)[1..] == rest;
    LongestIndexIsFirstLongest([x] + rest);
  }

  /** The first longest of the filtered lines sits at a position `k` of `s` before which every kept line is shorter. */
  lemma {:induction false} FirstLongestOfFilter(s: seq<Line>, p: Line -> bool) returns (k: nat)
    requires |Filter(s, p)| > 0
    ensures k < |s| && s[k] == Filter(s, p)[LongestIndex(Filter(s, p))]
    ensures forall j :: 0 <= j < k && p(s[j]) ==> |s[j].moves| < |s[k].moves|
  {
    var c := Filter(s, p);
    var rest := Filter(s[1..], p);
    FilterHead(s, p);
    if p(s[0]) {
      if LongestIndex(c) == 0 {
        return 0;
      }
      LongestPastHead(s[0], rest);
      assert c[LongestIndex(c)] == rest[LongestIndex(rest)];
    }
    var k' := FirstLongestOfFilter(s[1..], p);
    k := k' + 1;
    assert s[k] == s[1..][k'];
    assert p(s[0]) ==> |s[0].moves| < |s[k].moves|;
    forall j | 0 < j < k && p(s[j])
      ensures |s[j].moves| < |s[k].moves|
    {
      assert s[j] == s[1..][j - 1];
    }
  }

  /** The corpus lines matching at window `w`, in corpus order. */
  function Candidates(corpus: seq<Line>, joined: string, w: nat): seq<Line>
  {
    Filter(corpus, l => Matches(l, joined, w))
  }

  /** No line of the corpus matches at window `w`. */
  predicate NoCandidate(corpus: seq<Line>, joined: string, w: nat)
  {
    forall l :: l in corpus ==> !Matches(l, joined, w)
  }

  /** `ofs_data.filter(...).sort(...)[0]` at window `w`. */
  function Best(corpus: seq<Line>, joined: string, w: nat): (r: Option<Line>)
    ensures r.None? <==> NoCandidate(corpus, joined, w)
    ensures r.Some? ==> r.value in corpus && Matches(r.value, joined, w)
    ensures r.Some? ==> forall l :: l in corpus && Matches(l, joined, w) ==> |l.moves| <= |r.value.moves|
  {
    var c := Candidates(corpus, joined, w);
    FilterMembers(corpus, l => Matches(l, joined, w));
    if |c| == 0 then None
    else
      assert c[0] in c;
      LongestIndexIsFirstLongest(c);
      assert c[LongestIndex(c)] in c;
      Some(c[LongestIndex(c)])
  }

  /** Ties go to the earliest line in corpus order: no earlier matching line is as long. */
  lemma BestIsEarliest(corpus: seq<Line>, joined: string, w: nat)
    requires Best(corpus, joined, w).Some?
    ensures exists i :: 0 <= i < |corpus| && corpus[i] == Best(corpus, joined, w).value &&
              forall j :: 0 <= j < i && Matches(corpus[j], joined, w) ==>
                |corpus[j].moves| < |Best(corpus, joined, w).value.moves|
  {
    var k := FirstLongestOfFilter(corpus, l => Matches(l, joined, w));
    assert corpus[k] == Best(corpus, joined, w).value;
  }

  /**
   * The descending search from window `w`: the first window with a candidate
   * and the line chosen there. No larger window up to `w` has any candidate.
   */
  function Search(corpus: seq<Line>, joined: string, w: nat): Option<(nat, Line)>
    decreases w
  {
    if w == 0 then None
    else
      var b := Best(corpus, joined, w);
      if b.Some? then Some((w, b.value))
      else
        Search(corpus, joined, w - 1)
  }

  /**
   * What the search finds: a window between 1 and `w` whose best line it
   * returns, with no candidate at any window above it; or nothing, with no
   * candidate at any window at all.
   */
  lemma {:induction false} SearchFinds(corpus: seq<Line>, joined: string, w: nat)
    ensures var r := Search(corpus, joined, w);
      && (r.Some? ==> 1 <= r.value.0 <= w && Best(corpus, joined, r.value.0) == Some(r.value.1))
      && (r.Some? ==> NoneAbove(corpus, joined, r.value.0, w))
      && (r.None? ==> NoneAbove(corpus, joined, 0, w))
    decreases w
  {
    if w > 0 && Best(corpus, joined, w).None? {
      SearchFinds(corpus, joined, w - 1);
    }
  }

  /** No window in `lo + 1 .. hi` has a candidate, checked from `hi` down. */
  predicate NoneAbove(corpus: seq<Line>, joined: string, lo: nat, hi: nat)
    decreases hi
  {
    hi <= lo || (NoCandidate(corpus, joined, hi) && NoneAbove(corpus, joined, lo, hi - 1))
  }

  /** The descending check rules out every window in the range. */
  lemma {:induction false} NoneAboveAll(corpus: seq<Line>, joined: string, lo: nat, hi: nat, v: nat)
    requires NoneAbove(corpus, joined, lo, hi) && lo < v <= hi
    ensures forall l :: l in corpus ==> !Matches(l, joined, v)
    decreases hi
  {
    if v < hi {
      NoneAboveAll(corpus, joined, lo, hi - 1, v);
    }
  }

  /** `game.did_you_win ? 'win' : (game.did_you_lose ? 'loss' : 'draw')`. */
  function ResultOf(game: GameQuery): GameResult
  {
    if game.didYouWin then Win else if game.didYouLose then Loss else Draw
  }

  /** The literal deviation rule of the source. */
  function DidYouDeviated(color: Color, nbDeviation: nat): bool
  {
    (color == Black) == (nbDeviation % 2 == 0)
  }

  /** The side that plays ply `k`, counting from 1: White plays the odd plies. */
  function PlyColor(k: nat): Color
  {
    if k % 2 == 1 then White else Black
  }

  /**
   * What the literal rule means: the user is flagged exactly when the user
   * played the last matched ply, that is, when the opponent was to play the
   * first ply off the line. It is never the side to move after the prefix.
   */
  lemma DeviatedMeansPlayedLastMatchedPly(color: Color, nbDeviation: nat)
    ensures DidYouDeviated(color, nbDeviation) <==> PlyColor(nbDeviation) == color
    ensures DidYouDeviated(color, nbDeviation) <==> PlyColor(nbDeviation + 1) != color
  {
  }

  /** `did_you_deviated ? 'user' : all_completed ? 'none' : 'opponent'`. */
  function DeviatorOf(deviated: bool, nbDeviation: nat, total: nat): Deviator
  {
    if deviated then User else if nbDeviation == total then Nobody else Opponent
  }

  /** The outcome for a line found at window `w`. */
  function Scored(game: GameQuery, w: nat, line: Line): (r: OfsGameJson)
    requires w >= 1
  {
    var openingMoves := Split(line.moves);
    var nb := MinNat(w, |openingMoves|);
    var playedMoves := openingMoves[..nb];
    var deviated := DidYouDeviated(game.color, |playedMoves|);
    var total := |openingMoves|;
    var b := ComputeOFS(nb as real, total as real, ResultOf(game), DeviatorOf(deviated, nb, total));
    WithStats(game, b.ofs, b.depth, deviated, nb, Some(line.id))
  }

  /** `fill_ofs_stats(ofs_data, game)` as a function of its inputs. */
  function Fill(corpus: seq<Line>, game: GameQuery): (r: OfsGameJson)
    ensures QueryOf(r) == game
  {
    var joined := Join(Split(game.ucis));
    SearchFinds(corpus, joined, InitialWindow(game));
    match Search(corpus, joined, InitialWindow(game))
    case None => WithStats(game, 0.0, 0.0, true, 0, None)
    case Some((w, line)) => Scored(game, w, line)
  }

  /** A window without a candidate passes the search on to the next smaller one. */
  lemma SearchSkips(corpus: seq<Line>, joined: string, w: nat, target: Option<(nat, Line)>)
    requires w > 0 && Best(corpus, joined, w).None?
    requires Search(corpus, joined, w) == target
    ensures Search(corpus, joined, w - 1) == target
  {
  }

  /** The search from equal windows gives the same answer. */
  lemma SearchSameWindow(corpus: seq<Line>, joined: string, a: nat, b: nat, target: Option<(nat, Line)>)
    requires a == b && Search(corpus, joined, a) == target
    ensures Search(corpus, joined, b) == target
  {
  }

  /** The loop of `fill_ofs_stats`: shrink the window until some line matches. */
  method FillOfsStats(corpus: seq<Line>, game: GameQuery) returns (res: OfsGameJson)
    ensures res == Fill(corpus, game)
  {
    var bestMatch: Option<Line> := None;
    var gameUcis := Split(game.ucis);
    var joined := Join(gameUcis);
    var nbDeviation: int := MinNat(MaxWindow, |gameUcis|);
    ghost var window: nat := 0;
    ghost var target := Search(corpus, joined, nbDeviation);
    while nbDeviation > 0
      invariant nbDeviation >= 0
      invariant bestMatch.None?
      invariant Search(corpus, joined, nbDeviation) == target
    {
      bestMatch := Best(corpus, joined, nbDeviation);
      if bestMatch.Some? {
        window := nbDeviation;
        nbDeviation := MinNat(nbDeviation, |Split(bestMatch.value.moves)|);
        break;
      }
      SearchSkips(corpus, joined, nbDeviation, target);
      ghost var wider := nbDeviation;
      nbDeviation := nbDeviation - 1;
      SearchSameWindow(corpus, joined, wider - 1, nbDeviation, target);
    }
    if bestMatch.None? {
      res := WithStats(game, 0.0, 0.0, true, 0, None);
      return;
    }
    assert target == Some((window, bestMatch.value));
    var openingMoves := Split(bestMatch.value.moves);
    var playedMoves := openingMoves[..nbDeviation];
    var deviated := DidYouDeviated(game.color, |playedMoves|);
    var totalMoves := |openingMoves|;
    var deviator := DeviatorOf(deviated, nbDeviation, totalMoves);
    var b := ComputeOFS(nbDeviation as real, totalMoves as real, ResultOf(game), deviator);
    res := WithStats(game, b.ofs, b.depth, deviated, nbDeviation, Some(bestMatch.value.id));
    assert res == Scored(game, window, bestMatch.value);
  }

  /** The joined game is the submitted move string itself. */
  lemma JoinedGameIsUcis(game: GameQuery)
    ensures Join(Split(game.ucis)) == game.ucis
  {
    JoinSplit(game.ucis);
  }

  /** No line matches at any window: the zero outcome, every submitted field copied. */
  lemma {:induction false} FillNoMatch(corpus: seq<Line>, game: GameQuery)
    requires forall v, l :: 1 <= v <= InitialWindow(game) && l in corpus ==> !Matches(l, game.ucis, v)
    ensures var r := Fill(corpus, game);
      QueryOf(r) == game && r.ofs == 0.0 && r.depth == 0.0 && r.didYouDeviated &&
      r.nbDeviation == 0 && r.bestMatchLineId.None?
  {
    JoinSplit(game.ucis);
    SearchFinds(corpus, game.ucis, InitialWindow(game));
  }

  /** An empty corpus always gives the zero outcome. */
  lemma EmptyCorpus(game: GameQuery)
    ensures Fill([], game).bestMatchLineId.None? && Fill([], game).ofs == 0.0
  {
    FillNoMatch([], game);
  }

  /**
   * A match at window `w` on `line`: the line comes from the corpus, the
   * deviation count lies between 1 and the window, the line's length and 30,
   * and the line's first plies, joined, occur somewhere in the game.
   */
  lemma {:induction false} FillMatchBounds(corpus: seq<Line>, game: GameQuery, w: nat, line: Line)
    requires Search(corpus, game.ucis, InitialWindow(game)) == Some((w, line))
    ensures var r := Fill(corpus, game);
      && QueryOf(r) == game
      && r.bestMatchLineId == Some(line.id) && line in corpus
      && 1 <= r.nbDeviation <= w <= InitialWindow(game) <= MaxWindow
      && r.nbDeviation == MinNat(w, |Split(line.moves)|)
      && Includes(game.ucis, WindowPrefix(line, w))
      && Includes(game.ucis, WindowPrefix(line, r.nbDeviation))
  {
    JoinSplit(game.ucis);
    SearchFinds(corpus, game.ucis, InitialWindow(game));
    var nb := MinNat(w, |Split(line.moves)|);
    assert Take(Split(line.moves), nb) == Take(Split(line.moves), w);
  }

  /**
   * Maximality of a match at window `w` on `line`: no line matches at any
   * larger window, and no line matching at `w` is longer than `line`.
   */
  lemma {:induction false} FillMatchMaximal(corpus: seq<Line>, game: GameQuery, w: nat, line: Line)
    requires Search(corpus, game.ucis, InitialWindow(game)) == Some((w, line))
    ensures forall v, l :: w < v <= InitialWindow(game) && l in corpus ==> !Matches(l, game.ucis, v)
    ensures forall l :: l in corpus && Matches(l, game.ucis, w) ==> |l.moves| <= |line.moves|
  {
    SearchFinds(corpus, game.ucis, InitialWindow(game));
    forall v, l | w < v <= InitialWindow(game) && l in corpus
      ensures !Matches(l, game.ucis, v)
    {
      NoneAboveAll(corpus, game.ucis, w, InitialWindow(game), v);
    }
  }

  /**
   * The score of a match at window `w` on `line`: the literal deviation rule,
   * the deviator it implies, and the scorer called with the deviation count
   * against the line's length.
   */
  lemma {:induction false} FillMatchScore(corpus: seq<Line>, game: GameQuery, w: nat, line: Line)
    requires Search(corpus, game.ucis, InitialWindow(game)) == Some((w, line))
    ensures var r := Fill(corpus, game);
      var total := |Split(line.moves)|;
      && r.didYouDeviated == ((game.color == Black) == (r.nbDeviation % 2 == 0))
      && var deviator := if r.didYouDeviated then User
                         else if r.nbDeviation == total then Nobody else Opponent;
         var b := ComputeOFS(r.nbDeviation as real, total as real, ResultOf(game), deviator);
         r.ofs == b.ofs && r.depth == b.depth && 0.0 <= r.ofs <= 100.0 && IsTenth(r.ofs)
  {
    JoinSplit(game.ucis);
    SearchFinds(corpus, game.ucis, InitialWindow(game));
  }

  /** Three space-free plies, joined. */
  lemma ThreePlies(a: string, b: string, c: string)
    requires ' ' !in a && ' ' !in b && ' ' !in c
    ensures Split(a + " " + b + " " + c) == [a, b, c]
    ensures Join([a, b]) == a + " " + b
  {
    var ts := [a, b, c];
    assert ts[1..] == [b, c] && ts[1..][1..] == [c];
    assert Join([b, c]) == b + " " + c;
    assert Join(ts) == a + " " + (b + " " + c);
    assert a + " " + (b + " " + c) == a + " " + b + " " + c;
    SplitJoin(ts);
  }

  /** Two strings of equal length with different tails after a common head are different. */
  lemma DifferentTails(h: string, c: string, d: string)
    requires c != d && |c| == |d|
    ensures h + c != h + d
  {
    assert (h + c)[|h|..] == c && (h + d)[|h|..] == d;
  }

  /**
   * A worked case: a line of three plies `a b c` and a game won as White that
   * plays `a b d`, with `d` another ply of the same length as `c`. The full
   * line does not occur in the game, its first two plies do, so two plies
   * count as followed. White played the second ply, not the third, so the
   * literal rule does not flag the user: the opponent is charged and the
   * score is 63.3.
   */
  lemma {:induction false} WhiteLeavesAfterTwoPlies(line: Line, game: GameQuery, a: string, b: string, c: string, d: string)
    requires ' ' !in a && ' ' !in b && ' ' !in c && ' ' !in d
    requires c != d && |c| == |d|
    requires line.moves == a + " " + b + " " + c && game.ucis == a + " " + b + " " + d
    requires game.color == White && game.didYouWin
    ensures var r := Fill([line], game);
      && r.nbDeviation == 2 && !r.didYouDeviated
      && r.bestMatchLineId == Some(line.id) && r.ofs == 63.3
  {
    ThreePlies(a, b, c);
    ThreePlies(a, b, d);
    JoinedGameIsUcis(game);
    assert InitialWindow(game) == 3;
    // Window 3: the whole line, as long as the game and different from it.
    assert Take([a, b, c], 3) == [a, b, c];
    assert WindowPrefix(line, 3) == line.moves by {
      JoinSplit(line.moves);
    }
    DifferentTails(a + " " + b + " ", c, d);
    IncludesIffOccurs(game.ucis, line.moves);
    forall i: nat ensures !OccursAt(game.ucis, line.moves, i)
    {
      if i == 0 && |line.moves| <= |game.ucis| {
        assert game.ucis[0..|line.moves|] == game.ucis;
      }
    }
    assert !Matches(line, game.ucis, 3);
    assert Best([line], game.ucis, 3).None?;
    // Window 2: `a b` opens the game.
    assert Take([a, b, c], 2) == [a, b];
    assert WindowPrefix(line, 2) == a + " " + b;
    assert a + " " + b <= game.ucis;
    assert Matches(line, game.ucis, 2);
    assert Best([line], game.ucis, 2) == Some(line);
    assert Search([line], game.ucis, 3) == Some((2, line));
    TwoOfThreeDeviatedWins(Opponent);
  }
}
