/**
 * Puzzle 2, the debate: six argument cards, each a boon or a bane, dragged
 * from the card stack into a left or a right zone. The puzzle is solved when
 * the right zone holds at least three bane cards.
 */
module Debate {
  import opened Wrappers
  import Progression

  datatype Kind = Boon | Bane

  datatype Argument = Argument(text: string, kind: Kind)

  /** The six arguments of `setupPuzzle2`, in the order they are written there. */
  const Arguments: seq<Argument> := [
    Argument("Connects people globally", Boon),
    Argument("Threatens privacy", Bane),
    Argument("Empowers education", Boon),
    Argument("Job displacement", Bane),
    Argument("Increases dependency", Bane),
    Argument("Accelerates innovation", Boon)
  ]

  /** A card is named by the position of its argument in `Arguments`. */
  type CardId = i: nat | i < 6

  const AllCards: seq<CardId> := [0, 1, 2, 3, 4, 5]

  predicate IsBane(c: CardId)
  {
    Arguments[c].kind == Bane
  }

  /** The two `.drop-container` zones. */
  datatype Zone = Left | Right

  /** Where a card sits: still in the card stack, or in a zone. */
  datatype Place = InStack | InZone(zone: Zone)

  /** No card occurs twice. */
  predicate NoRepeats(cards: seq<CardId>)
  {
    forall c: CardId :: multiset(cards)[c] <= 1
  }

  /** Every bane card is among `cards`. */
  predicate HoldsAllBanes(cards: seq<CardId>)
  {
    forall c: CardId :: IsBane(c) ==> c in cards
  }

  /** The counter of `checkP2Win`: how many of `cards` are banes. */
  function BaneCount(cards: seq<CardId>): (n: nat)
    ensures n <= |cards|
  {
    if cards == [] then 0
    else BaneCount(cards[..|cards| - 1]) + (if IsBane(cards[|cards| - 1]) then 1 else 0)
  }

  /** The distinct bane cards among `cards`. */
  function BanesIn(cards: seq<CardId>): (s: set<CardId>)
    ensures forall c: CardId :: c in s <==> c in cards && IsBane(c)
  {
    set c: CardId | c in cards && IsBane(c)
  }

  /** `cards` without any occurrence of `x`, the others kept in order. */
  function Without(cards: seq<CardId>, x: CardId): (r: seq<CardId>)
    ensures multiset(r) == multiset(cards)[x := 0]
  {
    if cards == [] then []
    else
      var rest := Without(cards[..|cards| - 1], x);
      var last := cards[|cards| - 1];
      assert cards == cards[..|cards| - 1] + [last];
      if last == x then rest else rest + [last]
  }

  /** The loop of `checkP2Win`, counting the bane cards in a zone. */
  method CountBanes(cards: seq<CardId>) returns (n: nat)
    ensures n == BaneCount(cards)
  {
    n := 0;
    var i := 0;
    while i < |cards|
      invariant 0 <= i <= |cards|
      invariant n == BaneCount(cards[..i])
    {
      assert cards[..i + 1][..i] == cards[..i];
      if IsBane(cards[i]) {
        n := n + 1;
      }
      i := i + 1;
    }
    assert cards[..i] == cards;
  }

  /**
   * In a zone where no card repeats, the count is the number of distinct bane
   * cards present: boon cards neither add to it nor take from it.
   */
  lemma {:induction false} BaneCountIsBanesIn(cards: seq<CardId>)
    requires NoRepeats(cards)
    ensures BaneCount(cards) == |BanesIn(cards)|
    decreases |cards|
  {
    if cards != [] {
      var init: seq<CardId> := cards[..|cards| - 1];
      var x: CardId := cards[|cards| - 1];
      assert cards == init + [x];
      NoRepeatsSplit(init, x);
      BaneCountIsBanesIn(init);
      if IsBane(x) {
        assert BanesIn(cards) == BanesIn(init) + {x};
      } else {
        assert BanesIn(cards) == BanesIn(init);
      }
    }
  }

  /** Without its last card, a zone without repeats has none either, and lacks that card. */
  lemma {:induction false} NoRepeatsSplit(init: seq<CardId>, x: CardId)
    requires NoRepeats(init + [x])
    ensures NoRepeats(init) && x !in init
  {
    var m: multiset<CardId> := multiset(init);
    assert multiset(init + [x]) == m + multiset{x};
    forall c: CardId ensures m[c] <= 1 {
      assert multiset(init + [x])[c] == m[c] + multiset{x}[c];
    }
    assert multiset(init + [x])[x] == m[x] + 1;
  }

  lemma {:induction false} SubsetCardinality<T>(a: set<T>, b: set<T>)
    requires a <= b
    ensures |a| <= |b|
    decreases |b|
  {
    if b != {} {
      var y :| y in b;
      SubsetCardinality(a - {y}, b - {y});
    } else {
      assert a == {};
    }
  }

  /** Exactly three arguments are banes. */
  lemma {:induction false} BaneCards()
    ensures forall c: CardId :: IsBane(c) <==> c in {1, 3, 4}
  {
  }

  /**
   * Three banes in a zone without repeats means every bane is there, since
   * there are only three: the win condition is "all banes in the right zone".
   */
  lemma {:induction false} WinIffAllBanes(cards: seq<CardId>)
    requires NoRepeats(cards)
    ensures BaneCount(cards) >= 3 <==> HoldsAllBanes(cards)
  {
    BaneCountIsBanesIn(cards);
    BaneCards();
    var s := BanesIn(cards);
    assert s <= {1, 3, 4};
    if HoldsAllBanes(cards) {
      assert s == {1, 3, 4};
    } else {
      var c: CardId :| IsBane(c) && c !in cards;
      assert s <= {1, 3, 4} - {c};
      SubsetCardinality(s, {1, 3, 4} - {c});
      assert |{1, 3, 4} - {c}| == 2;
    }
  }

  lemma {:induction false} AllCardsOnce()
    ensures forall c: CardId :: multiset(AllCards)[c] == 1
  {
    assert multiset(AllCards) == multiset{0, 1, 2, 3, 4, 5};
  }

  /** Each card is in exactly one of the three containers, once. */
  predicate Partition(stack: seq<CardId>, left: seq<CardId>, right: seq<CardId>)
  {
    forall c: CardId :: multiset(stack)[c] + multiset(left)[c] + multiset(right)[c] == 1
  }

  function PlaceOf(left: seq<CardId>, right: seq<CardId>, c: CardId): Place
  {
    if c in left then InZone(Left) else if c in right then InZone(Right) else InStack
  }

  /** The zone's contents after `appendChild` of card `x`. */
  function Receive(zone: seq<CardId>, x: CardId, here: bool): (r: seq<CardId>)
    ensures multiset(r) == multiset(zone)[x := if here then 1 else 0]
    ensures here ==> r[|r| - 1] == x
  {
    Without(zone, x) + (if here then [x] else [])
  }

  lemma {:induction false} ReceiveCount(zone: seq<CardId>, x: CardId, here: bool, c: CardId)
    ensures multiset(Receive(zone, x, here))[c] == if c == x then (if here then 1 else 0) else multiset(zone)[c]
  {
    assert multiset(Receive(zone, x, here)) == multiset(zone)[x := 0] + multiset(if here then [x] else []);
  }

  lemma {:induction false} InIffCounted(cards: seq<CardId>, c: CardId)
    ensures c in cards <==> multiset(cards)[c] > 0
  {
  }

  /**
   * `appendChild` moves a card: after the move every container still holds
   * each card once, the moved card is in the target zone, and no other card
   * has changed place.
   */
  lemma {:induction false} MoveKeepsPartition(stack: seq<CardId>, left: seq<CardId>, right: seq<CardId>, x: CardId, z: Zone)
    requires Partition(stack, left, right)
    ensures Partition(Without(stack, x), Receive(left, x, z == Left), Receive(right, x, z == Right))
    ensures NoRepeats(Receive(right, x, z == Right))
    ensures forall c: CardId :: PlaceOf(Receive(left, x, z == Left), Receive(right, x, z == Right), c)
                                == if c == x then InZone(z) else PlaceOf(left, right, c)
  {
    var s': seq<CardId>, l': seq<CardId>, r': seq<CardId> := Without(stack, x), Receive(left, x, z == Left), Receive(right, x, z == Right);
    forall c: CardId
      ensures multiset(s')[c] + multiset(l')[c] + multiset(r')[c] == 1
      ensures PlaceOf(l', r', c) == if c == x then InZone(z) else PlaceOf(left, right, c)
    {
      ReceiveCount(left, x, z == Left, c);
      ReceiveCount(right, x, z == Right, c);
      InIffCounted(l', c);
      InIffCounted(r', c);
      InIffCounted(left, c);
      InIffCounted(right, c);
    }
  }

  class DebatePuzzle {
    const stage: Progression.Stage
    /** The children of `#card-stack`, in document order. */
    var stack: seq<CardId>
    /** The cards in the left zone, in document order. */
    var left: seq<CardId>
    /** The cards in `#zone-right`, in document order. */
    var right: seq<CardId>
    /** False once the puzzle area no longer takes pointer events. */
    var enabled: bool

    /**
     * Every card is in exactly one container, once; the puzzle is switched
     * off only when all banes are in the right zone.
     */
    ghost predicate Valid()
      reads this
    {
      Partition(stack, left, right) && (!enabled ==> HoldsAllBanes(right))
    }

    function Where(c: CardId): Place
      reads this
    {
      PlaceOf(left, right, c)
    }

    /** `setupPuzzle2`: the cards are dealt into the stack in a shuffled order. */
    constructor (stage: Progression.Stage, order: seq<CardId>)
      requires multiset(order) == multiset(AllCards)
      ensures Valid() && this.stage == stage
      ensures stack == order && left == [] && right == [] && enabled
      ensures forall c: CardId :: Where(c) == InStack
    {
      this.stage := stage;
      stack := order;
      left := [];
      right := [];
      enabled := true;
      new;
      AllCardsOnce();
    }

    /**
     * A zone's drop handler: when a card is being dragged, it is appended to
     * the zone and `checkP2Win` runs.
     */
    method Drop(z: Zone, dragged: Option<CardId>)
      requires Valid() && stage.Valid()
      modifies this, stage
      ensures Valid() && stage.Valid()
      ensures !(old(enabled) && dragged.Some?) ==> unchanged(this) && unchanged(stage)
      ensures old(enabled) && dragged.Some? ==>
                && stack == Without(old(stack), dragged.value)
                && left == Receive(old(left), dragged.value, z == Left)
                && right == Receive(old(right), dragged.value, z == Right)
      ensures old(enabled) && dragged.Some? ==>
                var won := HoldsAllBanes(right);
                && enabled == !won
                && stage.unlocked == old(stage.unlocked) + (if won then {2} else {})
                && stage.scheduled == old(stage.scheduled) + (if won then ["interlude"] else [])
                && stage.active == old(stage.active) && stage.showing == old(stage.showing)
    {
      if enabled && dragged.Some? {
        Append(z, dragged.value);
        CheckWin();
      }
    }

    /** `zone.appendChild(card)`: the card leaves its container and goes last in zone `z`. */
    method Append(z: Zone, x: CardId)
      requires Partition(stack, left, right)
      modifies this`stack, this`left, this`right
      ensures Partition(stack, left, right)
      ensures stack == Without(old(stack), x)
      ensures left == Receive(old(left), x, z == Left) && right == Receive(old(right), x, z == Right)
      ensures forall c: CardId :: Where(c) == if c == x then InZone(z) else PlaceOf(old(left), old(right), c)
    {
      MoveKeepsPartition(stack, left, right, x, z);
      stack, left, right := Without(stack, x), Receive(left, x, z == Left), Receive(right, x, z == Right);
    }

    /**
     * `checkP2Win`: counts the banes in the right zone; three of them switch
     * the puzzle off and unlock ring 2, leading to panel "interlude".
     */
    method CheckWin()
      requires Partition(stack, left, right) && stage.Valid() && enabled
      modifies this`enabled, stage
      ensures stage.Valid()
      ensures enabled == !HoldsAllBanes(right)
      ensures stage.unlocked == old(stage.unlocked) + (if HoldsAllBanes(right) then {2} else {})
      ensures stage.scheduled == old(stage.scheduled) + (if HoldsAllBanes(right) then ["interlude"] else [])
      ensures stage.active == old(stage.active) && stage.showing == old(stage.showing)
    {
      forall c: CardId ensures multiset(right)[c] <= 1 {
        assert multiset(stack)[c] + multiset(left)[c] + multiset(right)[c] == 1;
      }
      var n := CountBanes(right);
      WinIffAllBanes(right);
      if n >= 3 {
        enabled := false;
        stage.UnlockRing(2, "interlude");
      }
    }
  }
}
