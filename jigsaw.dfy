/**
 * Puzzle 3, the jigsaw, in two phases. Answering a riddle reveals its piece;
 * revealed pieces are dropped onto four board slots, each of which takes a
 * piece only while empty. The puzzle is solved when slot i holds piece i for
 * every i.
 */
module Jigsaw {
  import opened Wrappers
  import Text
  import Progression

  /** The `data-id` of a piece and the `data-index` of a slot, both "0" to "3". */
  type PieceId = i: nat | i < 4

  type SlotIndex = i: nat | i < 4

  type Board = seq<Option<PieceId>>

  /** What the riddle handler compares with the expected answer: the input lower-cased, then trimmed. */
  function Normalize(input: string): (r: string)
    ensures |r| <= |input|
    ensures r == [] || (!Text.IsSpace(r[0]) && !Text.IsSpace(r[|r| - 1]))
  {
    Text.TrimHasNoEdgeSpace(Text.ToLower(input));
    Text.Trim(Text.ToLower(input))
  }

  /** The riddle's `input` handler accepts `input` for `answer`; an answer longer than the input never matches. */
  predicate Answers(input: string, answer: string): (accepted: bool)
    ensures accepted ==> |answer| <= |input|
  {
    Normalize(input) == answer
  }

  lemma {:induction false} ToLowerAppend(a: string, b: string)
    ensures Text.ToLower(a + b) == Text.ToLower(a) + Text.ToLower(b)
  {
  }

  lemma {:induction false} ToLowerOfSpace(s: string)
    requires Text.AllSpace(s)
    ensures Text.ToLower(s) == s
  {
  }

  /** White space typed around an answer does not change whether it is accepted. */
  lemma {:induction false} AnswersIgnorePadding(before: string, input: string, after: string, answer: string)
    requires Text.AllSpace(before) && Text.AllSpace(after)
    ensures Answers(before + input + after, answer) <==> Answers(input, answer)
  {
    ToLowerAppend(before + input, after);
    ToLowerAppend(before, input);
    ToLowerOfSpace(before);
    ToLowerOfSpace(after);
    Text.TrimIgnoresPadding(before, Text.ToLower(input), after);
  }

  /** Typing capitals instead of lower-case letters does not change whether an answer is accepted. */
  lemma {:induction false} AnswersIgnoreCase(input: string, answer: string)
    ensures Answers(Text.ToLower(input), answer) <==> Answers(input, answer)
  {
    assert Text.ToLower(Text.ToLower(input)) == Text.ToLower(input);
  }

  /** What the handler compares has no capital letters. */
  lemma {:induction false} NormalizedHasNoCapitals(input: string)
    ensures forall i :: 0 <= i < |Normalize(input)| ==> !Text.IsUpper(Normalize(input)[i])
  {
    var t := Text.ToLower(input);
    var k := Text.TrimSpan(t);
    var r := Normalize(input);
    assert forall i :: 0 <= i < |r| ==> r[i] == t[k + i];
  }

  /** An expected answer with a capital letter is never accepted. */
  lemma {:induction false} CapitalisedAnswerUnreachable(input: string, answer: string, i: nat)
    requires i < |answer| && Text.IsUpper(answer[i])
    ensures !Answers(input, answer)
  {
    NormalizedHasNoCapitals(input);
  }

  /** An expected answer with white space at either end is never accepted. */
  lemma {:induction false} PaddedAnswerUnreachable(input: string, answer: string)
    requires answer != [] && (Text.IsSpace(answer[0]) || Text.IsSpace(answer[|answer| - 1]))
    ensures !Answers(input, answer)
  {
  }

  /** Slot i holds piece i, for every slot. */
  const Solved: Board := [Some(0), Some(1), Some(2), Some(3)]

  const EmptyBoard: Board := [None, None, None, None]

  /** A piece is in at most one slot (and a slot, holding an `Option`, has at most one piece). */
  predicate EachPieceOnce(slots: Board)
  {
    forall i, j :: 0 <= i < j < |slots| && slots[i].Some? ==> slots[i] != slots[j]
  }

  predicate Holds(slots: Board, i: nat)
    requires i < |slots|
  {
    slots[i].Some? && slots[i].value == i
  }

  /** The counter of `checkJigsawWin`: the slots holding the piece of their own index. */
  function CorrectCount(slots: Board): (n: nat)
    ensures n <= |slots|
  {
    if slots == [] then 0
    else CorrectCount(slots[..|slots| - 1]) + (if Holds(slots, |slots| - 1) then 1 else 0)
  }

  /** `checkJigsawWin`'s loop over the slots. */
  method CountCorrect(slots: Board) returns (n: nat)
    ensures n == CorrectCount(slots)
  {
    n := 0;
    var i := 0;
    while i < |slots|
      invariant 0 <= i <= |slots|
      invariant n == CorrectCount(slots[..i])
    {
      assert slots[..i + 1][..i] == slots[..i];
      if slots[i].Some? && slots[i].value == i {
        n := n + 1;
      }
      i := i + 1;
    }
    assert slots[..i] == slots;
  }

  /** The count reaches the number of slots exactly when every slot holds its own piece. */
  lemma {:induction false} FullCountIffAllInPlace(slots: Board)
    ensures CorrectCount(slots) == |slots| <==> forall i :: 0 <= i < |slots| ==> Holds(slots, i)
    decreases |slots|
  {
    if slots != [] {
      var init := slots[..|slots| - 1];
      FullCountIffAllInPlace(init);
      assert forall i :: 0 <= i < |init| ==> (Holds(init, i) <==> Holds(slots, i));
    }
  }

  /** On the four-slot board the count is 4 exactly for the solved board: no other arrangement wins. */
  lemma {:induction false} WinIffSolved(slots: Board)
    requires |slots| == 4
    ensures CorrectCount(slots) == 4 <==> slots == Solved
  {
    FullCountIffAllInPlace(slots);
    if CorrectCount(slots) == 4 {
      assert Holds(slots, 0) && Holds(slots, 1) && Holds(slots, 2) && Holds(slots, 3);
    }
  }

  /** The board after `slot.appendChild(piece)`: the piece is in slot `s` and no longer where it was. */
  function Place(slots: Board, s: SlotIndex, p: PieceId): (r: Board)
    requires |slots| == 4
    ensures |r| == 4 && r[s] == Some(p)
    ensures forall i :: 0 <= i < 4 && i != s ==> r[i] != Some(p)
    ensures forall i, q: PieceId :: 0 <= i < 4 && i != s && q != p ==> (r[i] == Some(q) <==> slots[i] == Some(q))
  {
    seq(4, i requires 0 <= i < 4 => if i == s then Some(p) else if slots[i] == Some(p) then None else slots[i])
  }

  /**
   * Placing a piece in an empty slot keeps every piece in at most one slot:
   * the piece is in that slot and nowhere else, and every other piece stays
   * where it was.
   */
  lemma {:induction false} PlaceKeepsEachPieceOnce(slots: Board, s: SlotIndex, p: PieceId)
    requires |slots| == 4 && EachPieceOnce(slots) && slots[s] == None
    ensures var r := Place(slots, s, p);
            && |r| == 4 && EachPieceOnce(r)
            && (forall i :: 0 <= i < 4 ==> (r[i] == Some(p) <==> i == s))
            && (forall i, q: PieceId :: 0 <= i < 4 && q != p ==> (r[i] == Some(q) <==> slots[i] == Some(q)))
  {
  }

  /** Every piece on the board has been revealed. */
  predicate PlacedAreRevealed(slots: Board, revealed: set<PieceId>)
  {
    forall i :: 0 <= i < |slots| && slots[i].Some? ==> slots[i].value in revealed
  }

  /** Placing a revealed piece keeps every piece on the board revealed. */
  lemma {:induction false} PlaceKeepsRevealed(slots: Board, s: SlotIndex, p: PieceId, revealed: set<PieceId>)
    requires |slots| == 4 && PlacedAreRevealed(slots, revealed) && p in revealed
    ensures PlacedAreRevealed(Place(slots, s, p), revealed)
  {
    var r := Place(slots, s, p);
    forall i | 0 <= i < 4 && r[i].Some? ensures r[i].value in revealed {
      if i != s {
        assert r[i] == Some(r[i].value);
        assert slots[i] == Some(r[i].value);
      }
    }
  }

  /** The jigsaw can only be solved once all four riddles have been answered. */
  lemma {:induction false} SolvedNeedsAllRiddles(revealed: set<PieceId>)
    requires PlacedAreRevealed(Solved, revealed)
    ensures revealed == {0, 1, 2, 3}
  {
    assert Solved[0].value == 0 && Solved[1].value == 1 && Solved[2].value == 2 && Solved[3].value == 3;
    forall p: PieceId ensures p in revealed {
      assert Solved[p].value == p;
    }
  }

  class JigsawPuzzle {
    const stage: Progression.Stage
    /** The `data-ans` of each riddle input; the riddle at index p reveals piece p. */
    const answers: seq<string>
    /** The pieces whose overlay is hidden and which are draggable. */
    var revealed: set<PieceId>
    /** The piece inside each `.jigsaw-slot`, by slot index. */
    var slots: Board
    /** False once `#p3-game` no longer takes pointer events. */
    var enabled: bool

    ghost predicate Valid()
      reads this
    {
      && |answers| == 4 && |slots| == 4 && EachPieceOnce(slots)
      && PlacedAreRevealed(slots, revealed)
      && (!enabled ==> slots == Solved)
    }

    constructor (stage: Progression.Stage, answers: seq<string>)
      requires |answers| == 4
      ensures Valid() && this.stage == stage && this.answers == answers
      ensures revealed == {} && slots == EmptyBoard && enabled
    {
      this.stage := stage;
      this.answers := answers;
      revealed := {};
      slots := EmptyBoard;
      enabled := true;
    }

    /**
     * The riddle input handler: a matching answer reveals the piece. Nothing
     * hides a piece again. Typing is not a pointer event, so a finished
     * puzzle still handles it.
     */
    method Input(p: PieceId, input: string)
      requires Valid()
      modifies this`revealed
      ensures Valid()
      ensures revealed == old(revealed) + (if Answers(input, answers[p]) then {p} else {})
      ensures old(revealed) <= revealed
    {
      var value := Text.Trim(Text.ToLower(input));
      if value == answers[p] {
        revealed := revealed + {p};
      }
    }

    /**
     * A slot's drop handler. The only `id` payloads come from the `dragstart`
     * listener that `setupPieceDrag` attaches to a piece when its riddle is
     * answered, so a payload naming a piece names a revealed one; any other
     * drag carries no piece id. The payload names a piece only when it is one of
     * the four ids; an unknown id, or a slot that already has a child, leaves
     * everything as it was. Otherwise the piece moves into the slot and
     * `checkJigsawWin` runs.
     */
    method Drop(s: SlotIndex, id: int)
      requires Valid() && stage.Valid()
      requires 0 <= id < 4 ==> id in revealed
      modifies this, stage
      ensures Valid() && stage.Valid()
      ensures !(old(enabled) && 0 <= id < 4 && old(slots)[s] == None) ==> unchanged(this) && unchanged(stage)
      ensures old(enabled) && 0 <= id < 4 && old(slots)[s] == None ==>
                && slots == Place(old(slots), s, id)
                && revealed == old(revealed)
                && var won := slots == Solved;
                   && enabled == !won
                   && stage.unlocked == old(stage.unlocked) + (if won then {3} else {})
                   && stage.scheduled == old(stage.scheduled) + (if won then ["p4-text"] else [])
                   && stage.active == old(stage.active) && stage.showing == old(stage.showing)
    {
      if enabled && 0 <= id < 4 && slots[s] == None {
        PlaceKeepsEachPieceOnce(slots, s, id);
        PlaceKeepsRevealed(slots, s, id, revealed);
        slots := Place(slots, s, id);
        CheckWin();
      }
    }

    /** `checkJigsawWin`: four pieces in place switch the puzzle off and unlock ring 3, leading to "p4-text". */
    method CheckWin()
      requires |slots| == 4 && stage.Valid() && enabled
      modifies this`enabled, stage
      ensures stage.Valid()
      ensures enabled == (slots != Solved)
      ensures stage.unlocked == old(stage.unlocked) + (if slots == Solved then {3} else {})
      ensures stage.scheduled == old(stage.scheduled) + (if slots == Solved then ["p4-text"] else [])
      ensures stage.active == old(stage.active) && stage.showing == old(stage.showing)
    {
      var n := CountCorrect(slots);
      WinIffSolved(slots);
      if n == 4 {
        enabled := false;
        stage.UnlockRing(3, "p4-text");
      }
    }
  }
}
