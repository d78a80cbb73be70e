/**
 * The records the fitness engine exchanges: saved reference lines, the
 * playlists that hold them, game submissions, the stored `ofs_games` row and
 * its JSON form.
 */
module Types {

  datatype Option<+T> = None | Some(value: T)

  datatype Color = White | Black

  datatype TimeControl = Bullet | Blitz | Rapid | Classical

  /** The 0/1 encoding of a boolean in a storage column. */
  type ZeroOne = x: int | 0 <= x <= 1

  type Id = string

  /** A saved reference line; `moves` is its space-separated UCI plies. */
  datatype Line = Line(
    id: Id, playlistId: Id, name: string, moves: string, orientation: string,
    slot: int, nbLikes: int, createdAt: int)

  /** A playlist as read from storage (`have_liked` is 0/1). */
  datatype Playlist = Playlist(
    id: Id, name: string, author: Option<string>, nbLines: int, nbLikes: int,
    createdAt: int, haveLiked: ZeroOne)

  /** A finished game as submitted (`OFS_Game_Query`). */
  datatype GameQuery = GameQuery(
    id: Id, createdAt: int, color: Color, you: string, opponent: string,
    timeControl: TimeControl, didYouLose: bool, didYouWin: bool, ucis: string)

  /** A game with its fitness statistics, booleans decoded (`OFS_Game_Json`). */
  datatype OfsGameJson = OfsGameJson(
    id: Id, createdAt: int, color: Color, you: string, opponent: string,
    timeControl: TimeControl, didYouLose: bool, didYouWin: bool, ucis: string,
    ofs: real, depth: real, didYouDeviated: bool, nbDeviation: int,
    bestMatchLineId: Option<Id>)

  /** A row of the `ofs_games` table (`Game` plus its `user_id` column); booleans are 0/1. */
  datatype GameRow = GameRow(
    id: Id, userId: Id, createdAt: int, color: Color, you: string, opponent: string,
    timeControl: TimeControl, didYouLose: ZeroOne, didYouWin: ZeroOne, ucis: string,
    ofs: real, depth: real, didYouDeviated: ZeroOne, nbDeviation: int,
    bestMatchLineId: Option<Id>)

  /** `{ ...game, ofs, depth, did_you_deviated, nb_deviation, best_match_line_id }`. */
  function WithStats(g: GameQuery, ofs: real, depth: real, deviated: bool, nb: int, best: Option<Id>): (j: OfsGameJson)
    ensures QueryOf(j) == g
    ensures j.ofs == ofs && j.depth == depth && j.didYouDeviated == deviated
    ensures j.nbDeviation == nb && j.bestMatchLineId == best
  {
    OfsGameJson(g.id, g.createdAt, g.color, g.you, g.opponent, g.timeControl,
                g.didYouLose, g.didYouWin, g.ucis, ofs, depth, deviated, nb, best)
  }

  /** The submission fields of a filled game. */
  function QueryOf(j: OfsGameJson): GameQuery
  {
    GameQuery(j.id, j.createdAt, j.color, j.you, j.opponent, j.timeControl,
              j.didYouLose, j.didYouWin, j.ucis)
  }
}
