/**
 * The daily results ledger: `compute_ofs_and_get_daily` of app/src/service.ts
 * over the `ofs_games` table of app/src/repository.ts.
 *
 * For one user and one batch of today's games, the ledger reads what it has
 * stored for the user, keeps the rows of today, drops the older ones, scores
 * the submitted games it has not seen, stores them, and answers today's games
 * with the ids of the lines they matched.
 *
 * The table is a sequence of rows in insertion order; `id` is its primary key,
 * so no two rows share an id whoever owns them. Each storage call that can
 * fail takes a fault flag; a failing transaction leaves the table as it was.
 */
module Ledger {
  import opened Types
  import opened Lists
  import opened Matcher
  import opened ViewJson

  /** The primary-key constraint: no two rows share an id. */
  predicate DistinctIds(t: seq<GameRow>)
  {
    forall i, j :: 0 <= i < j < |t| ==> t[i].id != t[j].id
  }

  /** `games.map(_ => _.id)`. */
  function IdsOf(rows: seq<GameRow>): (ids: seq<Id>)
    ensures |ids| == |rows|
    ensures forall i :: 0 <= i < |rows| ==> ids[i] == rows[i].id
  {
    seq(|rows|, i requires 0 <= i < |rows| => rows[i].id)
  }

  function IsOfUser(userId: Id): GameRow -> bool
  {
    (g: GameRow) => g.userId == userId
  }

  function IsToday(day: Day): GameRow -> bool
  {
    (g: GameRow) => InDay(g.createdAt, day)
  }

  function IsStale(day: Day): GameRow -> bool
  {
    (g: GameRow) => !InDay(g.createdAt, day)
  }

  function IsUnseen(ids: seq<Id>): GameQuery -> bool
  {
    (g: GameQuery) => g.id !in ids
  }

  function IsNotIn(ids: seq<Id>): GameRow -> bool
  {
    (g: GameRow) => g.id !in ids
  }

  /** `SELECT * FROM ofs_games WHERE user_id = ?`, in table order. */
  function UserRows(t: seq<GameRow>, userId: Id): (r: seq<GameRow>)
    ensures forall g :: g in r <==> g in t && g.userId == userId
  {
    Filter(t, IsOfUser(userId))
  }

  /** The submitted games whose id is not stored for the user yet. */
  function NewGames(query: seq<GameQuery>, stored: seq<GameRow>): (r: seq<GameQuery>)
    ensures forall g :: g in r <==> g in query && g.id !in IdsOf(stored)
  {
    Filter(query, IsUnseen(IdsOf(stored)))
  }

  /** The stored games of today, which the answer repeats. */
  function Kept(stored: seq<GameRow>, day: Day): (r: seq<GameRow>)
    ensures forall g :: g in r <==> g in stored && InDay(g.createdAt, day)
  {
    Filter(stored, IsToday(day))
  }

  /** The stored games of earlier days, which are deleted. */
  function Dropped(stored: seq<GameRow>, day: Day): (r: seq<GameRow>)
    ensures forall g :: g in r <==> g in stored && !InDay(g.createdAt, day)
  {
    Filter(stored, IsStale(day))
  }

  /** `game => fill_ofs_stats(ofs_data, game)`. */
  function FillWith(corpus: seq<Line>): GameQuery -> OfsGameJson
  {
    game => Fill(corpus, game)
  }

  /** `query.map(game => fill_ofs_stats(ofs_data, game))`: entry `i` is game `i` scored against the corpus. */
  function FillAll(corpus: seq<Line>, games: seq<GameQuery>): (r: seq<OfsGameJson>)
    ensures |r| == |games|
    ensures forall i :: 0 <= i < |games| ==> r[i] == Fill(corpus, games[i])
  {
    Map(games, FillWith(corpus))
  }

  /** Scoring keeps each game's submitted fields, position by position. */
  lemma FillAllKeepsQueries(corpus: seq<Line>, games: seq<GameQuery>)
    ensures forall i :: 0 <= i < |games| ==> QueryOf(FillAll(corpus, games)[i]) == games[i]
  {
  }

  /** What `delete_many_games(drop)` leaves: the rows whose id is not among the dropped ones. */
  function AfterDelete(t: seq<GameRow>, drop: seq<GameRow>): (r: seq<GameRow>)
    ensures forall g :: g in r <==> g in t && g.id !in IdsOf(drop)
  {
    Filter(t, IsNotIn(IdsOf(drop)))
  }

  /** The rows `insert_many_games(userId, games)` writes, in batch order. */
  function Rows(userId: Id, games: seq<OfsGameJson>): (r: seq<GameRow>)
    ensures |r| == |games|
    ensures forall i :: 0 <= i < |games| ==> r[i].id == games[i].id && r[i].userId == userId
    ensures forall i :: 0 <= i < |games| ==> OfsViewJson(r[i]) == games[i]
  {
    seq(|games|, i requires 0 <= i < |games| => StoredGameRoundTrip(userId, games[i]); ToRow(userId, games[i]))
  }

  /** The batch's ids are pairwise distinct and none of them is in the table. */
  predicate CanInsert(t: seq<GameRow>, games: seq<OfsGameJson>)
  {
    && (forall i, j :: 0 <= i < j < |games| ==> games[i].id != games[j].id)
    && (forall i :: 0 <= i < |games| ==> games[i].id !in IdsOf(t))
  }

  /** `games.map(ofs_view_json)`. */
  function Views(rows: seq<GameRow>): (r: seq<OfsGameJson>)
    ensures |r| == |rows|
    ensures forall i :: 0 <= i < |rows| ==> r[i].id == rows[i].id && r[i].createdAt == rows[i].createdAt
  {
    seq(|rows|, i requires 0 <= i < |rows| => OfsViewJson(rows[i]))
  }

  /**
   * `pages.map(_ => _.best_match_line_id!).filter(Boolean)`: the matched line
   * ids in page order; a missing id and the empty string are dropped.
   */
  function LineIds(pages: seq<OfsGameJson>): (r: seq<Id>)
    ensures |r| <= |pages|
    ensures forall x :: x in r ==> x != "" && exists i :: 0 <= i < |pages| && pages[i].bestMatchLineId == Some(x)
    ensures forall i :: 0 <= i < |pages| && pages[i].bestMatchLineId.Some? && pages[i].bestMatchLineId.value != "" ==>
              pages[i].bestMatchLineId.value in r
  {
    if |pages| == 0 then []
    else
      var rest := LineIds(pages[1..]);
      assert forall x :: x in rest ==> exists i :: 0 <= i < |pages| && pages[i].bestMatchLineId == Some(x) by {
        forall x | x in rest
          ensures exists i :: 0 <= i < |pages| && pages[i].bestMatchLineId == Some(x)
        {
          var k :| 0 <= k < |pages[1..]| && pages[1..][k].bestMatchLineId == Some(x);
          assert pages[k + 1].bestMatchLineId == Some(x);
        }
      }
      assert forall i :: 1 <= i < |pages| ==> pages[i] == pages[1..][i - 1];
      match pages[0].bestMatchLineId
      case Some(x) => if x != "" then [x] + rest else rest
      case None => rest
  }

  /** What one call decides before it touches the table. */
  datatype Plan = Plan(kept: seq<GameRow>, dropped: seq<GameRow>, filled: seq<OfsGameJson>)

  /** The rows kept, the rows dropped and the newly scored games, for `userId`'s stored rows in `t`. */
  function PlanOf(t: seq<GameRow>, userId: Id, query: seq<GameQuery>, day: Day, corpus: seq<Line>): Plan
  {
    var stored := UserRows(t, userId);
    Plan(Kept(stored, day), Dropped(stored, day), FillAll(corpus, NewGames(query, stored)))
  }

  /** `[...games.map(ofs_view_json), ...query_filled]`. */
  function Pages(plan: Plan): seq<OfsGameJson>
  {
    Views(plan.kept) + plan.filled
  }

  /** The table once the delete and the insert have both gone through. */
  function Reconciled(t: seq<GameRow>, userId: Id, plan: Plan): seq<GameRow>
  {
    AfterDelete(t, plan.dropped) + Rows(userId, plan.filled)
  }

  /** The submission boundary: at most 70 games, all of them from today. */
  predicate TodaysBatch(query: seq<GameQuery>, day: Day)
  {
    |query| <= 70 && forall i :: 0 <= i < |query| ==> InDay(query[i].createdAt, day)
  }

  /** A game's creation time does not depend on which copy of it is looked at. */
  predicate SameCreation(query: seq<GameQuery>, stored: seq<GameRow>)
  {
    forall i, j :: 0 <= i < |query| && 0 <= j < |stored| && query[i].id == stored[j].id ==>
      query[i].createdAt == stored[j].createdAt
  }

  /** The ledger's answer: today's games and the ids of the lines they matched. */
  datatype Daily = Daily(pages: seq<OfsGameJson>, lineIds: seq<Id>)

  datatype Failure = LoadGamesFailed | LoadLinesFailed | DeleteFailed | InsertFailed | FetchLinesFailed

  datatype Reply = Ok(daily: Daily) | Err(failure: Failure)

  /** Which storage calls fail (the reading of the user's lines fails when the corpus is `None`). */
  datatype Faults = Faults(loadGames: bool, delete: bool, insert: bool, fetchLines: bool)

  /** The `ofs_games` table. */
  class OfsGameStore {
    var table: seq<GameRow>

    ghost predicate Valid()
      reads this
    {
      DistinctIds(table)
    }

    constructor()
      ensures Valid() && table == []
    {
      table := [];
    }

    /**
     * `delete_many_games`: one transaction deleting each given game by id.
     * On a fault nothing is deleted.
     */
    method DeleteMany(games: seq<GameRow>, fault: bool) returns (ok: bool)
      requires Valid()
      modifies this
      ensures Valid()
      ensures ok == !fault
      ensures ok ==> table == AfterDelete(old(table), games)
      ensures !ok ==> table == old(table)
    {
      if fault {
        return false;
      }
      var t := table;
      DeleteNone(table);
      for i := 0 to |games|
        invariant table == old(table)
        invariant t == AfterDelete(table, games[..i])
      {
        DeleteStep(table, games, i);
        t := Filter(t, IsNotIn([games[i].id]));
      }
      assert games[..|games|] == games;
      FilterKeepsDistinct(table, IsNotIn(IdsOf(games)));
      table := t;
      ok := true;
    }

    /**
     * `insert_many_games`: one transaction inserting each game as a row of
     * `userId` with its statistics. An id already in the table, or twice in
     * the batch, breaks the primary key and rolls the whole batch back.
     */
    method InsertMany(userId: Id, games: seq<OfsGameJson>, fault: bool) returns (ok: bool)
      requires Valid()
      modifies this
      ensures Valid()
      ensures ok <==> !fault && CanInsert(old(table), games)
      ensures ok ==> table == old(table) + Rows(userId, games)
      ensures !ok ==> table == old(table)
    {
      if fault {
        return false;
      }
      var t := table;
      for i := 0 to |games|
        invariant table == old(table)
        invariant t == table + Rows(userId, games[..i])
        invariant CanInsert(table, games[..i])
      {
        InsertStep(table, userId, games, i);
        if games[i].id in IdsOf(t) {
          CanInsertPrefix(table, games, i + 1);
          return false;
        }
        t := t + [ToRow(userId, games[i])];
      }
      assert games[..|games|] == games;
      InsertKeepsDistinct(table, userId, games);
      table := t;
      ok := true;
    }
  }

  /** Deleting no game leaves the table as it is. */
  lemma DeleteNone(t: seq<GameRow>)
    ensures AfterDelete(t, []) == t
  {
    FilterKeepsAll(t, IsNotIn(IdsOf([])));
  }

  /** The delete loop's step: deleting one more game by id filters its id out of what is left. */
  lemma DeleteStep(t: seq<GameRow>, games: seq<GameRow>, i: nat)
    requires i < |games|
    ensures Filter(AfterDelete(t, games[..i]), IsNotIn([games[i].id])) == AfterDelete(t, games[..i + 1])
  {
    assert IdsOf(games[..i + 1]) == IdsOf(games[..i]) + [games[i].id];
    FilterFilter(t, IsNotIn(IdsOf(games[..i])), IsNotIn([games[i].id]), IsNotIn(IdsOf(games[..i + 1])));
  }

  lemma {:induction false} FilterKeepsDistinct(t: seq<GameRow>, p: GameRow -> bool)
    requires DistinctIds(t)
    ensures DistinctIds(Filter(t, p))
  {
    if |t| > 0 {
      FilterKeepsDistinct(t[1..], p);
      var rest := Filter(t[1..], p);
      forall j | 0 <= j < |rest|
        ensures rest[j].id != t[0].id
      {
        assert rest[j] in rest;
      }
    }
  }

  lemma IdsOfAppend(a: seq<GameRow>, b: seq<GameRow>)
    ensures IdsOf(a + b) == IdsOf(a) + IdsOf(b)
  {
  }

  /** The insert loop's step: the next game goes in exactly when its id is still free. */
  lemma InsertStep(t: seq<GameRow>, userId: Id, games: seq<OfsGameJson>, i: nat)
    requires i < |games| && CanInsert(t, games[..i])
    ensures CanInsert(t, games[..i + 1]) <==> games[i].id !in IdsOf(t + Rows(userId, games[..i]))
    ensures Rows(userId, games[..i + 1]) == Rows(userId, games[..i]) + [ToRow(userId, games[i])]
  {
    IdsOfAppend(t, Rows(userId, games[..i]));
    var ids := IdsOf(t + Rows(userId, games[..i]));
    if games[i].id in ids {
      var k :| 0 <= k < |ids| && ids[k] == games[i].id;
      if k >= |t| {
        assert games[..i + 1][k - |t|].id == games[..i + 1][i].id;
      }
    }
  }

  lemma CanInsertPrefix(t: seq<GameRow>, games: seq<OfsGameJson>, n: nat)
    requires n <= |games|
    ensures CanInsert(t, games) ==> CanInsert(t, games[..n])
  {
  }

  lemma InsertKeepsDistinct(t: seq<GameRow>, userId: Id, games: seq<OfsGameJson>)
    requires DistinctIds(t) && CanInsert(t, games)
    ensures DistinctIds(t + Rows(userId, games))
  {
    var s := t + Rows(userId, games);
    forall i, j | 0 <= i < j < |s|
      ensures s[i].id != s[j].id
    {
      if i < |t| && j >= |t| {
        assert IdsOf(t)[i] == t[i].id;
      }
    }
  }

  /** The scoring of the unseen games, one `fill_ofs_stats` call each, in order. */
  method FillAllGames(corpus: seq<Line>, games: seq<GameQuery>) returns (filled: seq<OfsGameJson>)
    ensures filled == FillAll(corpus, games)
  {
    filled := [];
    for i := 0 to |games|
      invariant filled == FillAll(corpus, games[..i])
    {
      var f := FillOfsStats(corpus, games[i]);
      FillAllSnoc(corpus, games, i);
      filled := filled + [f];
    }
    assert games[..|games|] == games;
  }

  /** Scoring one more game extends the scored prefix by that game's scoring. */
  lemma FillAllSnoc(corpus: seq<Line>, games: seq<GameQuery>, i: nat)
    requires i < |games|
    ensures FillAll(corpus, games[..i + 1]) == FillAll(corpus, games[..i]) + [Fill(corpus, games[i])]
  {
    MapSnoc(games, FillWith(corpus), i);
  }

  /**
   * `compute_ofs_and_get_daily(userId, query)` for a batch the controller has
   * admitted. Each failing step returns its error; the delete and the insert
   * are separate transactions, so a failing insert leaves the delete applied,
   * and a failing fetch of the lines leaves both applied.
   */
  method ComputeOfsAndGetDaily(store: OfsGameStore, userId: Id, query: seq<GameQuery>, day: Day,
                               corpus: Option<seq<Line>>, faults: Faults) returns (r: Reply)
    requires store.Valid()
    requires TodaysBatch(query, day)
    modifies store
    ensures store.Valid()
    ensures faults.loadGames ==> r == Err(LoadGamesFailed) && store.table == old(store.table)
    ensures !faults.loadGames && corpus.None? ==> r == Err(LoadLinesFailed) && store.table == old(store.table)
    ensures !faults.loadGames && corpus.Some? ==>
      var plan := PlanOf(old(store.table), userId, query, day, corpus.value);
      var afterDelete := AfterDelete(old(store.table), plan.dropped);
      && (faults.delete ==> r == Err(DeleteFailed) && store.table == old(store.table))
      && (!faults.delete && (faults.insert || !CanInsert(afterDelete, plan.filled)) ==>
            r == Err(InsertFailed) && store.table == afterDelete)
      && (!faults.delete && !faults.insert && CanInsert(afterDelete, plan.filled) ==>
            && store.table == Reconciled(old(store.table), userId, plan)
            && (faults.fetchLines ==> r == Err(FetchLinesFailed))
            && (!faults.fetchLines ==> r == Ok(Daily(Pages(plan), LineIds(Pages(plan))))))
  {
    if faults.loadGames {
      return Err(LoadGamesFailed);
    }
    var games := UserRows(store.table, userId);
    var unseen := NewGames(query, games);
    var drop := Dropped(games, day);
    games := Kept(games, day);
    if corpus.None? {
      return Err(LoadLinesFailed);
    }
    var filled := FillAllGames(corpus.value, unseen);
    var ok := store.DeleteMany(drop, faults.delete);
    if !ok {
      return Err(DeleteFailed);
    }
    ok := store.InsertMany(userId, filled, faults.insert);
    if !ok {
      return Err(InsertFailed);
    }
    var pages := Views(games) + filled;
    var lineIds := LineIds(pages);
    if faults.fetchLines {
      return Err(FetchLinesFailed);
    }
    return Ok(Daily(pages, lineIds));
  }

  /** The user's stored rows split into the kept and the dropped ones, none lost and none twice. */
  lemma PlanPartitionsStored(t: seq<GameRow>, userId: Id, query: seq<GameQuery>, day: Day, corpus: seq<Line>)
    ensures var plan := PlanOf(t, userId, query, day, corpus);
      multiset(plan.kept) + multiset(plan.dropped) == multiset(UserRows(t, userId))
  {
    var stored := UserRows(t, userId);
    FilterPartition(stored, IsToday(day), IsStale(day));
  }

  /** Every newly scored game is a game of today. */
  lemma FilledAreTodays(t: seq<GameRow>, userId: Id, query: seq<GameQuery>, day: Day, corpus: seq<Line>)
    requires TodaysBatch(query, day)
    ensures var filled := PlanOf(t, userId, query, day, corpus).filled;
      forall k :: 0 <= k < |filled| ==> InDay(filled[k].createdAt, day)
  {
    var unseen := NewGames(query, UserRows(t, userId));
    var filled := PlanOf(t, userId, query, day, corpus).filled;
    forall k | 0 <= k < |filled|
      ensures InDay(filled[k].createdAt, day)
    {
      FillAllKeepsQueries(corpus, unseen);
      assert QueryOf(filled[k]) == unseen[k];
      assert unseen[k] in unseen;
    }
  }

  /** Rows and scored games that are all of today render to pages that are all of today. */
  lemma ViewsOfToday(kept: seq<GameRow>, filled: seq<OfsGameJson>, day: Day)
    requires forall g :: g in kept ==> InDay(g.createdAt, day)
    requires forall k :: 0 <= k < |filled| ==> InDay(filled[k].createdAt, day)
    ensures var pages := Views(kept) + filled;
      forall i :: 0 <= i < |pages| ==> InDay(pages[i].createdAt, day)
  {
    var pages := Views(kept) + filled;
    forall i | 0 <= i < |pages|
      ensures InDay(pages[i].createdAt, day)
    {
      if i < |kept| {
        assert kept[i] in kept;
      } else {
        assert pages[i] == filled[i - |kept|];
      }
    }
  }

  /**
   * Every page of the answer is a game of today, and is either a kept stored
   * game or a submitted game that was not stored yet, scored.
   */
  lemma PagesAreTodays(t: seq<GameRow>, userId: Id, query: seq<GameQuery>, day: Day, corpus: seq<Line>)
    requires TodaysBatch(query, day)
    ensures var plan := PlanOf(t, userId, query, day, corpus);
      var pages := Pages(plan);
      forall i :: 0 <= i < |pages| ==> InDay(pages[i].createdAt, day)
  {
    var plan := PlanOf(t, userId, query, day, corpus);
    FilledAreTodays(t, userId, query, day, corpus);
    ViewsOfToday(plan.kept, plan.filled, day);
  }

  /** With distinct ids, a row's id is among the dropped ones exactly when the row is one of the user's stale rows. */
  lemma DroppedIdIffStale(t: seq<GameRow>, userId: Id, day: Day, i: nat)
    requires DistinctIds(t) && i < |t|
    ensures t[i].id in IdsOf(Dropped(UserRows(t, userId), day)) <==>
            t[i].userId == userId && !InDay(t[i].createdAt, day)
  {
    var d := Dropped(UserRows(t, userId), day);
    if t[i].id in IdsOf(d) {
      var k :| 0 <= k < |d| && IdsOf(d)[k] == t[i].id;
      assert d[k] in t;
      var j :| 0 <= j < |t| && t[j] == d[k];
      assert j == i;
    }
    if t[i].userId == userId && !InDay(t[i].createdAt, day) {
      assert t[i] in d;
      var k :| 0 <= k < |d| && d[k] == t[i];
      assert IdsOf(d)[k] == t[i].id;
    }
  }

  /** After a complete call, the user's rows are the kept rows followed by the new ones. */
  lemma ReconciledUserRows(t: seq<GameRow>, userId: Id, query: seq<GameQuery>, day: Day, corpus: seq<Line>)
    requires DistinctIds(t)
    ensures var plan := PlanOf(t, userId, query, day, corpus);
      UserRows(Reconciled(t, userId, plan), userId) == plan.kept + Rows(userId, plan.filled)
  {
    var plan := PlanOf(t, userId, query, day, corpus);
    var rows := Rows(userId, plan.filled);
    var both := (g: GameRow) => g.userId == userId && InDay(g.createdAt, day);
    forall i | 0 <= i < |t|
      ensures both(t[i]) == (IsNotIn(IdsOf(plan.dropped))(t[i]) && IsOfUser(userId)(t[i]))
    {
      DroppedIdIffStale(t, userId, day, i);
    }
    FilterFilter(t, IsNotIn(IdsOf(plan.dropped)), IsOfUser(userId), both);
    FilterFilter(t, IsOfUser(userId), IsToday(day), both);
    FilterAppend(AfterDelete(t, plan.dropped), rows, IsOfUser(userId));
    FilterKeepsAll(rows, IsOfUser(userId));
  }

  /** A complete call for one user leaves every other user's rows as they were. */
  lemma OtherUsersUntouched(t: seq<GameRow>, userId: Id, other: Id, query: seq<GameQuery>, day: Day, corpus: seq<Line>)
    requires DistinctIds(t) && other != userId
    ensures var plan := PlanOf(t, userId, query, day, corpus);
      UserRows(Reconciled(t, userId, plan), other) == UserRows(t, other)
  {
    var plan := PlanOf(t, userId, query, day, corpus);
    var rows := Rows(userId, plan.filled);
    forall i | 0 <= i < |t|
      ensures IsOfUser(other)(t[i]) == (IsNotIn(IdsOf(plan.dropped))(t[i]) && IsOfUser(other)(t[i]))
    {
      DroppedIdIffStale(t, userId, day, i);
    }
    FilterFilter(t, IsNotIn(IdsOf(plan.dropped)), IsOfUser(other), IsOfUser(other));
    FilterAppend(AfterDelete(t, plan.dropped), rows, IsOfUser(other));
    FilterKeepsNone(rows, IsOfUser(other));
  }

  /** A complete call keeps the primary key. */
  lemma ReconciledKeepsKey(t: seq<GameRow>, userId: Id, plan: Plan)
    requires DistinctIds(t) && CanInsert(AfterDelete(t, plan.dropped), plan.filled)
    ensures DistinctIds(Reconciled(t, userId, plan))
  {
    FilterKeepsDistinct(t, IsNotIn(IdsOf(plan.dropped)));
    InsertKeepsDistinct(AfterDelete(t, plan.dropped), userId, plan.filled);
  }

  /** Rows and scored games that are all of today are stored as rows that are all of today. */
  lemma RowsOfToday(kept: seq<GameRow>, userId: Id, filled: seq<OfsGameJson>, day: Day)
    requires forall g :: g in kept ==> InDay(g.createdAt, day)
    requires forall k :: 0 <= k < |filled| ==> InDay(filled[k].createdAt, day)
    ensures forall g :: g in kept + Rows(userId, filled) ==> InDay(g.createdAt, day)
  {
    var rows := Rows(userId, filled);
    var u := kept + rows;
    forall g | g in u
      ensures InDay(g.createdAt, day)
    {
      var i :| 0 <= i < |u| && u[i] == g;
      if i < |kept| {
        assert g in kept;
      } else {
        var k := i - |kept|;
        assert g == rows[k];
        assert OfsViewJson(rows[k]) == filled[k];
      }
    }
  }

  /** Self-expiry: after a complete call, every row the user has is from today. */
  lemma ReconciledIsTodays(t: seq<GameRow>, userId: Id, query: seq<GameQuery>, day: Day, corpus: seq<Line>)
    requires DistinctIds(t) && TodaysBatch(query, day)
    ensures var plan := PlanOf(t, userId, query, day, corpus);
      forall g :: g in UserRows(Reconciled(t, userId, plan), userId) ==> InDay(g.createdAt, day)
  {
    var plan := PlanOf(t, userId, query, day, corpus);
    ReconciledUserRows(t, userId, query, day, corpus);
    FilledAreTodays(t, userId, query, day, corpus);
    RowsOfToday(plan.kept, userId, plan.filled, day);
  }

  /** After a complete call, a second look at the user's rows keeps all of them and drops none. */
  lemma {:induction false} NothingDroppedAgain(t: seq<GameRow>, userId: Id, query: seq<GameQuery>, day: Day, corpus: seq<Line>)
    requires DistinctIds(t) && TodaysBatch(query, day)
    ensures var t1 := Reconciled(t, userId, PlanOf(t, userId, query, day, corpus));
      var stored1 := UserRows(t1, userId);
      Dropped(stored1, day) == [] && Kept(stored1, day) == stored1
  {
    var t1 := Reconciled(t, userId, PlanOf(t, userId, query, day, corpus));
    var stored1 := UserRows(t1, userId);
    ReconciledIsTodays(t, userId, query, day, corpus);
    assert forall i :: 0 <= i < |stored1| ==> stored1[i] in stored1;
    FilterKeepsNone(stored1, IsStale(day));
    FilterKeepsAll(stored1, IsToday(day));
  }

  /** A submitted game already stored for the user is stored today, so it is kept. */
  lemma StoredGameKept(t: seq<GameRow>, userId: Id, query: seq<GameQuery>, day: Day, corpus: seq<Line>, i: nat)
    requires TodaysBatch(query, day) && i < |query|
    requires SameCreation(query, UserRows(t, userId))
    requires query[i].id in IdsOf(UserRows(t, userId))
    ensures query[i].id in IdsOf(PlanOf(t, userId, query, day, corpus).kept)
  {
    var stored := UserRows(t, userId);
    var j :| 0 <= j < |stored| && IdsOf(stored)[j] == query[i].id;
    assert InDay(query[i].createdAt, day);
    TodayRowKept(stored, day, j);
  }

  /** A stored row of today is among the kept ones. */
  lemma TodayRowKept(stored: seq<GameRow>, day: Day, j: nat)
    requires j < |stored| && InDay(stored[j].createdAt, day)
    ensures stored[j].id in IdsOf(Kept(stored, day))
  {
    var kept := Kept(stored, day);
    assert stored[j] in stored;
    assert stored[j] in kept;
    var k :| 0 <= k < |kept| && kept[k] == stored[j];
    assert IdsOf(kept)[k] == stored[j].id;
  }

  /** A submitted game not yet stored for the user is among the inserted rows. */
  lemma UnseenGameInserted(t: seq<GameRow>, userId: Id, query: seq<GameQuery>, day: Day, corpus: seq<Line>, i: nat)
    requires i < |query| && query[i].id !in IdsOf(UserRows(t, userId))
    ensures query[i].id in IdsOf(Rows(userId, PlanOf(t, userId, query, day, corpus).filled))
  {
    var unseen := NewGames(query, UserRows(t, userId));
    var filled := PlanOf(t, userId, query, day, corpus).filled;
    assert query[i] in unseen;
    var k :| 0 <= k < |unseen| && unseen[k] == query[i];
    FillAllKeepsQueries(corpus, unseen);
    assert QueryOf(filled[k]) == query[i];
    assert IdsOf(Rows(userId, filled))[k] == query[i].id;
  }

  /** After a complete call, a submitted game is stored for the user. */
  lemma {:induction false} SubmittedGameStored(t: seq<GameRow>, userId: Id, query: seq<GameQuery>, day: Day, corpus: seq<Line>, i: nat)
    requires DistinctIds(t) && TodaysBatch(query, day) && i < |query|
    requires SameCreation(query, UserRows(t, userId))
    ensures var t1 := Reconciled(t, userId, PlanOf(t, userId, query, day, corpus));
      query[i].id in IdsOf(UserRows(t1, userId))
  {
    var plan := PlanOf(t, userId, query, day, corpus);
    ReconciledUserRows(t, userId, query, day, corpus);
    IdsOfAppend(plan.kept, Rows(userId, plan.filled));
    if query[i].id in IdsOf(UserRows(t, userId)) {
      StoredGameKept(t, userId, query, day, corpus, i);
    } else {
      UnseenGameInserted(t, userId, query, day, corpus, i);
    }
  }

  /** After a complete call, every submitted game is stored for the user: none is new to a second look. */
  lemma {:induction false} NothingNewAgain(t: seq<GameRow>, userId: Id, query: seq<GameQuery>, day: Day, corpus: seq<Line>)
    requires DistinctIds(t) && TodaysBatch(query, day)
    requires SameCreation(query, UserRows(t, userId))
    ensures var t1 := Reconciled(t, userId, PlanOf(t, userId, query, day, corpus));
      NewGames(query, UserRows(t1, userId)) == []
  {
    var t1 := Reconciled(t, userId, PlanOf(t, userId, query, day, corpus));
    var stored1 := UserRows(t1, userId);
    var n := NewGames(query, stored1);
    if |n| > 0 {
      assert n[0] in n;
      var i :| 0 <= i < |query| && query[i] == n[0];
      SubmittedGameStored(t, userId, query, day, corpus, i);
    }
  }

  /**
   * Idempotence: once a call has gone through, the same call again deletes
   * nothing, inserts nothing, leaves the table as it is and gives the same
   * pages.
   */
  lemma {:induction false} DailyIsIdempotent(t: seq<GameRow>, userId: Id, query: seq<GameQuery>, day: Day, corpus: seq<Line>)
    requires DistinctIds(t) && TodaysBatch(query, day)
    requires SameCreation(query, UserRows(t, userId))
    ensures var plan := PlanOf(t, userId, query, day, corpus);
      var t1 := Reconciled(t, userId, plan);
      var again := PlanOf(t1, userId, query, day, corpus);
      && again.dropped == [] && again.filled == []
      && CanInsert(AfterDelete(t1, again.dropped), again.filled)
      && Reconciled(t1, userId, again) == t1
      && Pages(again) == Pages(plan)
  {
    var plan := PlanOf(t, userId, query, day, corpus);
    var t1 := Reconciled(t, userId, plan);
    var again := PlanOf(t1, userId, query, day, corpus);
    NothingDroppedAgain(t, userId, query, day, corpus);
    NothingNewAgain(t, userId, query, day, corpus);
    ReconciledUserRows(t, userId, query, day, corpus);
    EmptyPlanKeepsTable(t1, userId, again);
    ViewsOfStored(plan.kept, userId, plan.filled);
  }

  /**
   * Why idempotence needs `SameCreation`: a game resubmitted with a creation
   * time of today while its stored copy is from an earlier day. The first call
   * finds the id stored, so it neither scores the game nor repeats it, and it
   * deletes the stale row; the second call no longer finds the id and scores
   * the game.
   */
  lemma StaleResubmissionScoredLater()
    ensures var row := GameRow("x", "u", 0, White, "", "", Blitz, 0, 0, "", 0.0, 0.0, 0, 0, None);
      var game := GameQuery("x", 150, White, "", "", Blitz, false, false, "");
      var day := Day(100, 200);
      var plan := PlanOf([row], "u", [game], day, []);
      var t1 := Reconciled([row], "u", plan);
      var again := PlanOf(t1, "u", [game], day, []);
      && DistinctIds([row]) && TodaysBatch([game], day)
      && !SameCreation([game], UserRows([row], "u"))
      && plan.dropped == [row] && plan.filled == [] && Pages(plan) == []
      && CanInsert(AfterDelete([row], plan.dropped), plan.filled)
      && t1 == []
      && |again.filled| == 1 && again.filled[0].id == "x"
      && Pages(again) != Pages(plan)
  {
    var row := GameRow("x", "u", 0, White, "", "", Blitz, 0, 0, "", 0.0, 0.0, 0, 0, None);
    var game := GameQuery("x", 150, White, "", "", Blitz, false, false, "");
    var day := Day(100, 200);
    assert UserRows([row], "u") == [row] by {
      FilterKeepsAll([row], IsOfUser("u"));
    }
    assert IdsOf([row]) == ["x"];
    assert NewGames([game], [row]) == [] by {
      FilterKeepsNone([game], IsUnseen(IdsOf([row])));
    }
    assert Kept([row], day) == [] by {
      FilterKeepsNone([row], IsToday(day));
    }
    assert Dropped([row], day) == [row] by {
      FilterKeepsAll([row], IsStale(day));
    }
    var plan := PlanOf([row], "u", [game], day, []);
    assert AfterDelete([row], plan.dropped) == [] by {
      FilterKeepsNone([row], IsNotIn(IdsOf(plan.dropped)));
    }
    var t1 := Reconciled([row], "u", plan);
    assert t1 == [];
    assert NewGames([game], UserRows(t1, "u")) == [game] by {
      FilterKeepsAll([game], IsUnseen(IdsOf(UserRows(t1, "u"))));
    }
  }

  /** A plan that drops nothing and scores nothing leaves the table as it is. */
  lemma EmptyPlanKeepsTable(t: seq<GameRow>, userId: Id, plan: Plan)
    requires plan.dropped == [] && plan.filled == []
    ensures Reconciled(t, userId, plan) == t
  {
    FilterKeepsAll(t, IsNotIn(IdsOf(plan.dropped)));
    assert Reconciled(t, userId, plan) == t + [];
  }

  /** Reading back the kept rows and the stored new games gives the kept views and the new games. */
  lemma ViewsOfStored(kept: seq<GameRow>, userId: Id, filled: seq<OfsGameJson>)
    ensures Views(kept + Rows(userId, filled)) == Views(kept) + filled
  {
    var rows := Rows(userId, filled);
    assert Views(rows) == filled;
    assert Views(kept + rows) == Views(kept) + Views(rows);
  }
}
