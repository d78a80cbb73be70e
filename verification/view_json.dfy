/**
 * The JSON views of app/src/view_json.ts and, for the stored games, the
 * encoding that app/src/repository.ts writes: booleans go to storage as 0/1
 * and come back as `=== 1`.
 */
module ViewJson {
  import opened Types

  /** `b ? 1 : 0`, how a boolean is written to a storage column. */
  function Encode(b: bool): ZeroOne
  {
    if b then 1 else 0
  }

  /** `z === 1`, how a storage column is read back as a boolean. */
  function Decode(z: ZeroOne): bool
  {
    z == 1
  }

  /** Storing and reading back a boolean loses nothing, in both directions. */
  lemma CodecRoundTrip(b: bool, z: ZeroOne)
    ensures Decode(Encode(b)) == b
    ensures Encode(Decode(z)) == z
  {
  }

  /** `ofs_view_json`: a stored row as JSON, the three 0/1 flags decoded. */
  function OfsViewJson(g: GameRow): (j: OfsGameJson)
    ensures j.didYouLose <==> g.didYouLose == 1
    ensures j.didYouWin <==> g.didYouWin == 1
    ensures j.didYouDeviated <==> g.didYouDeviated == 1
  {
    OfsGameJson(g.id, g.createdAt, g.color, g.you, g.opponent, g.timeControl,
                Decode(g.didYouLose), Decode(g.didYouWin), g.ucis,
                g.ofs, g.depth, Decode(g.didYouDeviated), g.nbDeviation,
                g.bestMatchLineId)
  }

  /** The row `insert_many_games` stores for a filled game of `userId` (insert, then score update). */
  function ToRow(userId: Id, j: OfsGameJson): (g: GameRow)
    ensures g.id == j.id && g.userId == userId
  {
    GameRow(j.id, userId, j.createdAt, j.color, j.you, j.opponent, j.timeControl,
            Encode(j.didYouLose), Encode(j.didYouWin), j.ucis,
            j.ofs, j.depth, Encode(j.didYouDeviated), j.nbDeviation,
            j.bestMatchLineId)
  }

  /** A filled game read back from storage is the game that was stored. */
  lemma StoredGameRoundTrip(userId: Id, j: OfsGameJson)
    ensures OfsViewJson(ToRow(userId, j)) == j
  {
  }

  /** A row of `userId` rendered as JSON and stored again is the same row. */
  lemma RowRoundTrip(g: GameRow)
    ensures ToRow(g.userId, OfsViewJson(g)) == g
  {
  }

  datatype PlaylistJson = PlaylistJson(
    id: Id, name: string, author: Option<string>, nbLines: int, nbLikes: int,
    createdAt: int, haveLiked: bool)

  /** `playlist_view_json`: `id` becomes `_id`, `have_liked` is decoded. */
  function PlaylistViewJson(p: Playlist): (j: PlaylistJson)
    ensures j.id == p.id
    ensures j.haveLiked <==> p.haveLiked == 1
    ensures j.name == p.name && j.author == p.author && j.nbLines == p.nbLines
    ensures j.nbLikes == p.nbLikes && j.createdAt == p.createdAt
  {
    PlaylistJson(p.id, p.name, p.author, p.nbLines, p.nbLikes, p.createdAt, Decode(p.haveLiked))
  }

  /** No two playlists share a view. */
  lemma PlaylistViewJsonInjective(a: Playlist, b: Playlist)
    requires PlaylistViewJson(a) == PlaylistViewJson(b)
    ensures a == b
  {
  }

  datatype LineJson = LineJson(
    id: Id, playlistId: Id, name: string, moves: string, orientation: string,
    slot: int, nbLikes: int, createdAt: int)

  /** `line_view_json`: `id` becomes `_id`, `playlist_id` becomes `_playlist_id`. */
  function LineViewJson(l: Line): (j: LineJson)
    ensures j.id == l.id && j.playlistId == l.playlistId
    ensures j.name == l.name && j.moves == l.moves && j.orientation == l.orientation
    ensures j.slot == l.slot && j.nbLikes == l.nbLikes && j.createdAt == l.createdAt
  {
    LineJson(l.id, l.playlistId, l.name, l.moves, l.orientation, l.slot, l.nbLikes, l.createdAt)
  }

  /** No two lines share a view. */
  lemma LineViewJsonInjective(a: Line, b: Line)
    requires LineViewJson(a) == LineViewJson(b)
    ensures a == b
  {
  }

  datatype Paginated<T> = Paginated(maxPerPage: nat, nbPages: nat, page: int, list: seq<T>)

  /** `Math.ceil(count / pageSize)` for a positive page size. */
  function PageCount(count: nat, pageSize: nat): (n: nat)
    requires pageSize > 0
    ensures count == 0 ==> n == 0
    ensures count > 0 ==> (n - 1) * pageSize < count <= n * pageSize
  {
    var n := (count + pageSize - 1) / pageSize;
    assert n * pageSize <= count + pageSize - 1 < n * pageSize + pageSize;
    n
  }

  /** `paginated_view_json`: the page count covers `count` items exactly; the rest passes through. */
  function PaginatedViewJson<T>(page: int, pageSize: nat, count: nat, list: seq<T>): (r: Paginated<T>)
    requires pageSize > 0
    ensures r.nbPages == PageCount(count, pageSize)
    ensures r.maxPerPage == pageSize && r.page == page && r.list == list
  {
    Paginated(pageSize, PageCount(count, pageSize), page, list)
  }

  /** The page count is the least number of pages that holds every item. */
  lemma PageCountIsLeast(count: nat, pageSize: nat, m: nat)
    requires pageSize > 0 && count <= m * pageSize
    ensures PageCount(count, pageSize) <= m
  {
  }
}
