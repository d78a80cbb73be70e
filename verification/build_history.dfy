/**
 * The opening builder's history: a list of steps, a cursor into it and the
 * board orientation, as kept by ui/src/state/create_build_store.tsx,
 * ui/src/state/OpeningsBuildState.tsx and the context inside
 * ui/src/sections/SectionOpenings.tsx.
 *
 * The three copies share every action; they differ in how the cursor is
 * stored. In create_build_store the cursor is a writable memo over the steps,
 * so every replacement of the steps puts it back on the last step; in the two
 * others it is a plain signal that a replacement of the steps leaves alone.
 * One class models both, told apart by `memoCursor`.
 */
module BuildHistory {
  import opened Types
  import opened Text
  import opened Steps

  /** `opposite` from chessops. */
  function Opposite(c: Color): (o: Color)
    ensures o != c
  {
    if c == White then Black else White
  }

  /** Flipping the board twice restores the orientation. */
  lemma FlipInvolution(c: Color)
    ensures Opposite(Opposite(c)) == c
  {
  }

  /** `selected_line?.orientation ?? 'white'`, the orientation a stored line opens with. */
  function LineOrientation(line: Option<Line>): (c: Color)
    ensures c == Black <==> line.Some? && line.value.orientation == "black"
  {
    if line.Some? && line.value.orientation == "black" then Black else White
  }

  /** `selected_line?.moves.split(' ') ?? []`, the moves a stored line opens with. */
  function LineMoves(line: Option<Line>): seq<Uci>
  {
    if line.Some? then Split(line.value.moves) else []
  }

  // ---------------------------------------------------------------------------
  // The cursor, as a function of its old value

  /** The cursor `goto_cursor_if_exists(n)` leaves behind, from cursor `c` over `len` steps. */
  function GotoTarget(c: int, len: nat, n: int): int
  {
    if n < 0 then -1 else if n < len then n else c
  }

  /** A cursor on a step, or just before the first, stays so under every jump. */
  lemma GotoStaysInRange(c: int, len: nat, n: int)
    requires -1 <= c < len
    ensures -1 <= GotoTarget(c, len, n) < len
  {
  }

  /** Jumping twice to the same place is jumping once. */
  lemma GotoIdempotent(c: int, len: nat, n: int)
    ensures GotoTarget(GotoTarget(c, len, n), len, n) == GotoTarget(c, len, n)
  {
  }

  /** From a step, one step back and one step forward return to it. */
  lemma PrevThenNext(c: int, len: nat)
    requires 0 <= c < len
    ensures var p := GotoTarget(c, len, c - 1); GotoTarget(p, len, p + 1) == c
  {
  }

  /** Before the last step, one step forward and one back return; on the last step, forward is a no-op. */
  lemma NextThenPrev(c: int, len: nat)
    requires -1 <= c < len
    ensures c + 1 < len ==> var m := GotoTarget(c, len, c + 1); GotoTarget(m, len, m - 1) == c
    ensures c == len - 1 ==> GotoTarget(c, len, c + 1) == c
  {
  }

  // ---------------------------------------------------------------------------
  // What the board shows, as functions of the steps and the cursor

  /** `steps()[cursor()]?.fen ?? INITIAL_FEN`. */
  function FenAt(steps: seq<Step>, cursor: int): Fen
  {
    if 0 <= cursor < |steps| then steps[cursor].fen else InitialFen
  }

  /** `steps()[cursor()]?.uci`. */
  function LastMoveAt(steps: seq<Step>, cursor: int): Option<Uci>
  {
    if 0 <= cursor < |steps| then Some(steps[cursor].uci) else None
  }

  /**
   * The board shows the moves up to the cursor replayed from the start;
   * a cursor past the end shows the start.
   */
  lemma {:induction false} FenAtIsReplay(rules: Rules, steps: seq<Step>, cursor: int)
    requires Chained(rules, steps) && cursor >= -1
    ensures cursor < |steps| ==> FenAt(steps, cursor) == ReplayFrom(rules, InitialFen, UcisOf(steps)[..cursor + 1])
    ensures cursor >= |steps| ==> FenAt(steps, cursor) == InitialFen
  {
    if 0 <= cursor < |steps| {
      StepFenIsReplay(rules, steps, cursor);
    }
  }

  /** The highlighted move is the move at the cursor, when there is one. */
  lemma LastMoveAtCursor(steps: seq<Step>, cursor: int)
    ensures LastMoveAt(steps, cursor).Some? <==> 0 <= cursor < |steps|
    ensures 0 <= cursor < |steps| ==> LastMoveAt(steps, cursor) == Some(UcisOf(steps)[cursor])
  {
  }

  /** `steps().slice(0, cursor() + 1)`: the steps up to and including the cursor. */
  function UptoCursor(steps: seq<Step>, cursor: int): (r: seq<Step>)
    requires cursor >= -1
    ensures r <= steps
    ensures |r| == if cursor < |steps| then cursor + 1 else |steps|
  {
    Take(steps, cursor + 1)
  }

  /** Cutting after the cursor keeps a well-formed line well formed, and keeps what the board shows. */
  lemma UptoCursorKeepsView(rules: Rules, steps: seq<Step>, cursor: int)
    requires Chained(rules, steps) && cursor >= -1
    ensures Chained(rules, UptoCursor(steps, cursor))
    ensures FenAt(UptoCursor(steps, cursor), cursor) == FenAt(steps, cursor)
  {
  }

  /** The steps after `add_uci_and_goto_it(uci)`: the line up to the cursor, then the new move. */
  function AddAfterCursor(rules: Rules, steps: seq<Step>, cursor: int, uci: Uci): seq<Step>
    requires cursor >= -1
  {
    var ss := UptoCursor(steps, cursor);
    ss + [StepsAddUci(rules, ss, uci)]
  }

  /**
   * Adding a move branches the line at the cursor: the steps up to the cursor
   * are kept, the new move ends the line, and the line stays well formed.
   */
  lemma AddAfterCursorBranches(rules: Rules, steps: seq<Step>, cursor: int, uci: Uci)
    requires Chained(rules, steps) && cursor >= -1
    ensures var r := AddAfterCursor(rules, steps, cursor, uci);
      && Chained(rules, r)
      && r[..|r| - 1] == UptoCursor(steps, cursor)
      && UcisOf(r) == UcisOf(UptoCursor(steps, cursor)) + [uci]
  {
    var ss := UptoCursor(steps, cursor);
    var r := ss + [StepsAddUci(rules, ss, uci)];
    assert Chained(rules, ss) by {
      UptoCursorKeepsView(rules, steps, cursor);
    }
    AddKeepsChained(rules, ss, uci);
    assert r[..|r| - 1] == ss;
    assert UcisOf(r) == UcisOf(ss) + [uci] by {
      var u := UcisOf(ss) + [uci];
      assert |UcisOf(r)| == |u|;
      forall i | 0 <= i < |u|
        ensures UcisOf(r)[i] == u[i]
      {
      }
    }
  }

  /**
   * The move is played in the position the board shows when the cursor is on
   * a step or before the first; a cursor left past the end (a plain cursor
   * after an import) shows the start but plays after the last step.
   */
  lemma AddPlaysFromShownPosition(rules: Rules, steps: seq<Step>, cursor: int, uci: Uci)
    requires Chained(rules, steps) && cursor >= -1
    ensures var r := AddAfterCursor(rules, steps, cursor, uci);
      && (cursor < |steps| ==> r[|r| - 1].beforeFen == FenAt(steps, cursor))
      && (cursor >= |steps| ==> r[|r| - 1].beforeFen == LastFen(steps))
      && r[|r| - 1].fen == rules.play(r[|r| - 1].beforeFen, uci)
  {
  }

  // ---------------------------------------------------------------------------
  // Auto-promotion of a dragged pawn

  datatype Role = Pawn | Knight | Bishop | Rook | Queen | King

  /** The rank on which a pawn of the side to move promotes. */
  predicate PromotionRank(rank: char, turn: Color)
  {
    (rank == '8' && turn == White) || (rank == '1' && turn == Black)
  }

  /** The UCI `play_orig_key` plays for a drag from `orig` to `dest`, auto-queening a promoting pawn. */
  function AutoQueenUci(orig: string, dest: string, role: Role, turn: Color): (uci: Uci)
    requires |dest| == 2
    ensures uci == orig + dest + "q" <==> role == Pawn && PromotionRank(dest[1], turn)
    ensures uci == orig + dest || uci == orig + dest + "q"
  {
    if role == Pawn && PromotionRank(dest[1], turn) then orig + dest + "q" else orig + dest
  }

  /** Only a pawn reaching the far rank of its own side is promoted; every other drag is its two squares. */
  lemma AutoQueenOnlyOnLastRank(orig: string, dest: string, role: Role, turn: Color)
    requires |dest| == 2
    ensures |AutoQueenUci(orig, dest, role, turn)| > |orig + dest| ==>
      role == Pawn && dest[1] == (if turn == White then '8' else '1')
    ensures role != Pawn ==> AutoQueenUci(orig, dest, role, turn) == orig + dest
  {
  }

  // ---------------------------------------------------------------------------
  // The store

  class BuildStore {
    /** Whether the cursor is a memo over the steps (create_build_store) or a plain signal. */
    const memoCursor: bool
    const rules: Rules
    var steps: seq<Step>
    var cursor: int
    var orientation: Color

    ghost predicate Valid()
      reads this
    {
      cursor >= -1 && Chained(rules, steps)
    }

    /** `OpeningsBuildStore` and the context of SectionOpenings: no steps, cursor 0, White below. */
    constructor Plain(rules: Rules)
      ensures Valid() && !memoCursor && this.rules == rules
      ensures steps == [] && cursor == 0 && orientation == White
    {
      this.memoCursor := false;
      this.rules := rules;
      this.steps := [];
      this.cursor := 0;
      this.orientation := White;
    }

    /** `create_build_store`: the selected line's moves, the cursor on its last step, its orientation. */
    constructor Memo(rules: Rules, selected: Option<Line>)
      ensures Valid() && memoCursor && this.rules == rules
      ensures steps == MakeSteps(rules, LineMoves(selected))
      ensures cursor == |steps| - 1 && orientation == LineOrientation(selected)
    {
      this.memoCursor := true;
      this.rules := rules;
      var ss := StepsMakeFromUcis(rules, LineMoves(selected));
      this.steps := ss;
      this.cursor := |ss| - 1;
      this.orientation := LineOrientation(selected);
    }

    /** The position on the board. */
    function Fen(): Fen
      reads this
    {
      FenAt(steps, cursor)
    }

    /** The move highlighted on the board. */
    function LastMoveUci(): Option<Uci>
      reads this
    {
      LastMoveAt(steps, cursor)
    }

    /** `set_steps`: a memo cursor follows the new steps to their last one; a plain cursor stays. */
    method SetSteps(ss: seq<Step>)
      requires Valid() && Chained(rules, ss)
      modifies this
      ensures Valid() && steps == ss && orientation == old(orientation)
      ensures cursor == if memoCursor then |ss| - 1 else old(cursor)
    {
      steps := ss;
      if memoCursor {
        cursor := |ss| - 1;
      }
    }

    /** `goto_cursor_if_exists(n)`: before the start goes to -1, onto a step goes there, past the end does nothing. */
    method GotoCursorIfExists(n: int)
      requires Valid()
      modifies this
      ensures Valid() && steps == old(steps) && orientation == old(orientation)
      ensures n < 0 ==> cursor == -1
      ensures 0 <= n < |steps| ==> cursor == n
      ensures n >= |steps| ==> cursor == old(cursor)
      ensures cursor == GotoTarget(old(cursor), |steps|, n)
    {
      if n < 0 {
        cursor := -1;
      } else if n < |steps| {
        cursor := n;
      }
    }

    method GotoNextStep()
      requires Valid()
      modifies this
      ensures Valid() && steps == old(steps) && orientation == old(orientation)
      ensures cursor == GotoTarget(old(cursor), |steps|, old(cursor) + 1)
      ensures old(cursor) == |steps| - 1 ==> cursor == old(cursor)
    {
      GotoCursorIfExists(cursor + 1);
    }

    method GotoPrevStep()
      requires Valid()
      modifies this
      ensures Valid() && steps == old(steps) && orientation == old(orientation)
      ensures cursor == GotoTarget(old(cursor), |steps|, old(cursor) - 1)
      ensures old(cursor) == 0 ==> cursor == -1
    {
      GotoCursorIfExists(cursor - 1);
    }

    method GotoFirstStep()
      requires Valid()
      modifies this
      ensures Valid() && steps == old(steps) && orientation == old(orientation)
      ensures cursor == if |steps| > 0 then 0 else old(cursor)
    {
      GotoCursorIfExists(0);
    }

    method GotoLastStep()
      requires Valid()
      modifies this
      ensures Valid() && steps == old(steps) && orientation == old(orientation)
      ensures cursor == |steps| - 1
    {
      GotoCursorIfExists(|steps| - 1);
    }

    method GotoSetCursor(n: int)
      requires Valid()
      modifies this
      ensures Valid() && steps == old(steps) && orientation == old(orientation)
      ensures cursor == GotoTarget(old(cursor), |steps|, n)
    {
      GotoCursorIfExists(n);
    }

    /** `add_uci_and_goto_it`: branch the line at the cursor with `uci` and put the cursor on the new step. */
    method AddUciAndGotoIt(uci: Uci)
      requires Valid()
      modifies this
      ensures Valid() && orientation == old(orientation)
      ensures steps == AddAfterCursor(rules, old(steps), old(cursor), uci)
      ensures steps[..|steps| - 1] == UptoCursor(old(steps), old(cursor))
      ensures cursor == |steps| - 1 && steps[cursor].uci == uci
    {
      var ss := UptoCursor(steps, cursor);
      var newStep := StepsAddUci(rules, ss, uci);
      AddAfterCursorBranches(rules, steps, cursor, uci);
      SetSteps(ss + [newStep]);
      cursor := |steps| - 1;
    }

    /** `clear_steps`: no steps, and the cursor set to 0 afterwards in both kinds of store. */
    method ClearSteps()
      requires Valid()
      modifies this
      ensures Valid() && steps == [] && cursor == 0 && orientation == old(orientation)
      ensures Fen() == InitialFen && LastMoveUci() == None
    {
      SetSteps([]);
      cursor := 0;
    }

    /** `delete_after`: drop the steps after the cursor. */
    method DeleteAfter()
      requires Valid()
      modifies this
      ensures Valid() && orientation == old(orientation)
      ensures steps == UptoCursor(old(steps), old(cursor))
      ensures forall i :: 0 <= i < |steps| ==> steps[i] == old(steps)[i]
      ensures cursor == if memoCursor then |steps| - 1 else old(cursor)
      ensures old(cursor) < |old(steps)| ==> cursor == old(cursor) && Fen() == old(Fen())
    {
      UptoCursorKeepsView(rules, steps, cursor);
      SetSteps(UptoCursor(steps, cursor));
    }

    /** `import_UCIs`: the steps of the space-separated moves; a memo cursor goes to the last one. */
    method ImportUcis(ucis: string)
      requires Valid()
      modifies this
      ensures Valid() && orientation == old(orientation)
      ensures steps == MakeSteps(rules, Split(ucis))
      ensures UcisOf(steps) == Split(ucis)
      ensures cursor == if memoCursor then |steps| - 1 else old(cursor)
    {
      var ss := StepsMakeFromUcis(rules, Split(ucis));
      SetSteps(ss);
    }

    /** A change of the selected line recomputes every memo of `create_build_store`. */
    method SelectLine(selected: Option<Line>)
      requires Valid() && memoCursor
      modifies this
      ensures Valid()
      ensures steps == MakeSteps(rules, LineMoves(selected)) && UcisOf(steps) == LineMoves(selected)
      ensures cursor == |steps| - 1 && orientation == LineOrientation(selected)
    {
      var ss := StepsMakeFromUcis(rules, LineMoves(selected));
      SetSteps(ss);
      orientation := LineOrientation(selected);
    }

    method Flip()
      requires Valid()
      modifies this
      ensures Valid() && steps == old(steps) && cursor == old(cursor)
      ensures orientation == Opposite(old(orientation))
    {
      orientation := Opposite(orientation);
    }

    method SetOrientation(c: Color)
      requires Valid()
      modifies this
      ensures Valid() && steps == old(steps) && cursor == old(cursor) && orientation == c
    {
      orientation := c;
    }

    /** `play_orig_key`: a drag on the board, auto-queening a pawn that reaches its last rank. */
    method PlayOrigKey(orig: string, dest: string, role: Role, turn: Color)
      requires Valid() && |dest| == 2
      modifies this
      ensures Valid() && orientation == old(orientation)
      ensures steps == AddAfterCursor(rules, old(steps), old(cursor), AutoQueenUci(orig, dest, role, turn))
      ensures cursor == |steps| - 1
    {
      AddUciAndGotoIt(AutoQueenUci(orig, dest, role, turn));
    }

    /** `set_on_wheel_board`: scrolling up steps back, anything else (a zero delta too) steps forward. */
    method OnWheel(delta: real)
      requires Valid()
      modifies this
      ensures Valid() && steps == old(steps) && orientation == old(orientation)
      ensures delta < 0.0 ==> cursor == GotoTarget(old(cursor), |steps|, old(cursor) - 1)
      ensures delta >= 0.0 ==> cursor == GotoTarget(old(cursor), |steps|, old(cursor) + 1)
    {
      if delta < 0.0 {
        GotoPrevStep();
      } else {
        GotoNextStep();
      }
    }
  }
}
