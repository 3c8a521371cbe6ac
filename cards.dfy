/** Cards, decks and mana: the rule layer the mouse handlers and the state
    dispatcher apply to the deck, hand and board arrays. */
module Cards {
  import opened Values

  /** The card kinds that can be played and what each costs (the
      `manaCost` table). Any other key is `undefined`. */
  function ManaCost(kind: string): (r: Option<nat>)
    ensures r.Some? <==> kind in {"pawn", "bishop", "rook", "knight", "queen"}
    ensures r.Some? ==> 1 <= r.value <= 7
  {
    if kind == "pawn" then Some(1)
    else if kind == "bishop" then Some(3)
    else if kind == "rook" then Some(3)
    else if kind == "knight" then Some(4)
    else if kind == "queen" then Some(7)
    else None
  }

  /** `manaCost[v.substring(2)]`: a card name loses its two-character side
      prefix ("w_" or "b_") before the lookup; any other value has no
      `substring` member, so the expression throws. */
  function CostOf(v: Value): (r: Checked<Option<nat>>)
    ensures r.TypeError? <==> !v.Name?
    ensures v.Name? && |v.s| >= 2 ==> r == Ok(ManaCost(v.s[2..]))
    ensures v.Name? && |v.s| < 2 ==> r == Ok(None)
  {
    match v
    case Name(s) => Ok(ManaCost(Substring2(s)))
    case _ => TypeError
  }

  /** The cost of the card at `id` in `hand`, throwing as `hand[id].substring`
      does when the index is past the end (the element is `undefined`). */
  function CostAt(hand: seq<Value>, id: nat): (r: Checked<Option<nat>>)
    ensures r.TypeError? <==> id >= |hand| || !hand[id].Name?
    ensures r.Ok? && r.value.Some? ==>
      id < |hand| && hand[id].Name? && 1 <= r.value.value <= 7 &&
      Some(r.value.value) == ManaCost(Substring2(hand[id].s))
  {
    if id < |hand| then CostOf(hand[id]) else TypeError
  }

  /** The guard of a drag from the detail card:
      `onDetail && board.length < 7 && mana >= manaCost[hand[id].substring(2)]`,
      evaluated left to right with short-circuiting. A missing cost compares
      false. */
  function DragGuard(onDetail: bool, boardLen: nat, mana: int, hand: seq<Value>, id: nat): (r: Checked<bool>)
    ensures !onDetail || boardLen >= 7 ==> r == Ok(false)
    ensures r == Ok(true) ==>
      CostAt(hand, id).Ok? && CostAt(hand, id).value.Some? && CostAt(hand, id).value.value <= mana
  {
    if !onDetail || boardLen >= 7 then Ok(false)
    else match CostAt(hand, id)
      case TypeError => TypeError
      case Ok(None) => Ok(false)
      case Ok(Some(c)) => Ok(mana >= c)
  }

  /** A drag may start exactly when the pointer is on the detail card, the
      board has room, the card names a costed kind and there is mana for
      it; it throws exactly when the first two hold and the detail card no
      longer names a card in the hand. */
  lemma DragGuardMeaning(onDetail: bool, boardLen: nat, mana: int, hand: seq<Value>, id: nat)
    ensures DragGuard(onDetail, boardLen, mana, hand, id) == Ok(true) <==>
      onDetail && boardLen < 7 && id < |hand| && hand[id].Name? &&
      ManaCost(Substring2(hand[id].s)).Some? && mana >= ManaCost(Substring2(hand[id].s)).value
    ensures DragGuard(onDetail, boardLen, mana, hand, id).TypeError? <==>
      onDetail && boardLen < 7 && (id >= |hand| || !hand[id].Name?)
  {
  }

  /** After the last card of the hand is played, the stale detail index
      points past the end: pressing on the detail card again throws. */
  lemma StaleDetailThrows(boardLen: nat, mana: int, hand: seq<Value>)
    requires boardLen < 7
    ensures DragGuard(true, boardLen, mana, hand, |hand|) == TypeError
  {
  }

  /** `s.splice(i, 1)` for an index inside `s`. */
  function RemoveAt<T>(s: seq<T>, i: nat): (r: seq<T>)
    requires i < |s|
    ensures |r| == |s| - 1
    ensures forall j :: 0 <= j < i ==> r[j] == s[j]
    ensures forall j :: i <= j < |r| ==> r[j] == s[j + 1]
  {
    s[..i] + s[i + 1..]
  }

  /** `s.splice(k, 0, v)` for an index no greater than `|s|`. */
  function InsertAt<T>(s: seq<T>, k: nat, v: T): (r: seq<T>)
    requires k <= |s|
    ensures |r| == |s| + 1 && r[k] == v
    ensures forall j :: 0 <= j < k ==> r[j] == s[j]
    ensures forall j :: k < j < |r| ==> r[j] == s[j - 1]
  {
    s[..k] + [v] + s[k..]
  }

  /** Removing an element takes exactly one occurrence out of the multiset. */
  lemma RemoveAtMultiset<T>(s: seq<T>, i: nat)
    requires i < |s|
    ensures multiset(RemoveAt(s, i)) + multiset{s[i]} == multiset(s)
  {
    assert s == s[..i] + [s[i]] + s[i + 1..];
  }

  /** Inserting and then removing at the same index gives the original back. */
  lemma InsertRemove<T>(s: seq<T>, k: nat, v: T)
    requires k <= |s|
    ensures RemoveAt(InsertAt(s, k, v), k) == s
    ensures multiset(InsertAt(s, k, v)) == multiset(s) + multiset{v}
  {
    RemoveAtMultiset(InsertAt(s, k, v), k);
  }

  /** What `drawCard(deck)` may do: on an empty deck return `null` and leave
      it alone, otherwise take the card at some index out of it. */
  ghost predicate DrawnFrom(deck: seq<Value>, card: Value, rest: seq<Value>)
  {
    if deck == [] then card == Null && rest == deck
    else exists i :: 0 <= i < |deck| && card == deck[i] && rest == RemoveAt(deck, i)
  }

  /** `drawCard`: the index is `Math.floor(Math.random() * deck.length)`,
      which is any index of the deck, so it is chosen here without further
      constraint. The spliced deck is returned as `rest`. */
  method DrawCard(deck: seq<Value>) returns (card: Value, rest: seq<Value>)
    ensures DrawnFrom(deck, card, rest)
  {
    if |deck| == 0 {
      return Null, deck;
    }
    var index :| 0 <= index < |deck|;
    card := deck[index];
    rest := RemoveAt(deck, index);
  }

  /** A draw from a non-empty deck returns one of its cards, shortens it by
      one and keeps the cards together: nothing is lost or duplicated. */
  lemma DrawConserves(deck: seq<Value>, card: Value, rest: seq<Value>)
    requires DrawnFrom(deck, card, rest)
    ensures deck == [] ==> card == Null && rest == []
    ensures deck != [] ==> card in deck && |rest| == |deck| - 1 &&
                           multiset(rest) + multiset{card} == multiset(deck)
    ensures forall v :: v in rest ==> v in deck
  {
    if deck != [] {
      var i :| 0 <= i < |deck| && card == deck[i] && rest == RemoveAt(deck, i);
      RemoveAtMultiset(deck, i);
      forall v | v in rest ensures v in deck {
        assert v in multiset(rest);
      }
    }
  }

  /** Appending the drawn card to a hand keeps the hand and deck together;
      only a draw from an empty deck adds something, the `null`. */
  lemma DrawIntoHand(hand: seq<Value>, deck: seq<Value>, card: Value, rest: seq<Value>)
    requires DrawnFrom(deck, card, rest)
    ensures multiset(hand + [card] + rest) ==
      multiset(hand + deck) + (if deck == [] then multiset{Null} else multiset{})
    ensures Null !in deck ==> Null !in rest && (deck != [] && Null !in hand ==> Null !in hand + [card])
    ensures deck != [] ==> |rest| == |deck| - 1
  {
    DrawConserves(deck, card, rest);
    assert hand + [card] + rest == hand + ([card] + rest);
  }

  /** `[drawCard(deck), ..., drawCard(deck)]` with `n` calls, evaluated
      from left to right, on a deck that holds at least `n` cards. */
  method Deal(deck: seq<Value>, n: nat) returns (hand: seq<Value>, rest: seq<Value>)
    requires n <= |deck|
    ensures |hand| == n && |rest| == |deck| - n
    ensures multiset(hand + rest) == multiset(deck)
    ensures Null !in deck ==> Null !in hand && Null !in rest
    decreases n
  {
    if n == 0 {
      return [], deck;
    }
    var card, deck1 := DrawCard(deck);
    DrawConserves(deck, card, deck1);
    var more;
    more, rest := Deal(deck1, n - 1);
    hand := [card] + more;
    assert hand + rest == [card] + (more + rest);
  }

  /** `init`'s deal: three cards from the white starting deck and four
      from the black one. */
  method StartHands() returns (handW: seq<Value>, deckW: seq<Value>, handB: seq<Value>, deckB: seq<Value>)
    ensures |handW| == 3 && |deckW| == 12 && Null !in handW && Null !in deckW
    ensures multiset(handW + deckW) == multiset(StartDeck("w_"))
    ensures |handB| == 4 && |deckB| == 11 && Null !in handB && Null !in deckB
    ensures multiset(handB + deckB) == multiset(StartDeck("b_"))
  {
    handW, deckW := Deal(StartDeck("w_"), 3);
    handB, deckB := Deal(StartDeck("b_"), 4);
  }

  /** `hand[i] = drawCard(deck)` on a non-empty deck: the replaced card
      is the only thing that leaves hand and deck together, and a deck
      without `null` yields a card. */
  lemma ReplaceFromDeck(hand: seq<Value>, i: nat, deck: seq<Value>, card: Value, rest: seq<Value>)
    requires i < |hand| && deck != [] && DrawnFrom(deck, card, rest)
    ensures multiset(hand[i := card] + rest) + multiset{hand[i]} == multiset(hand + deck)
    ensures |rest| == |deck| - 1
    ensures Null !in deck ==> card != Null && Null !in rest
  {
    DrawConserves(deck, card, rest);
    var replaced := hand[i := card];
    forall v ensures (multiset(replaced + rest) + multiset{hand[i]})[v] == multiset(hand + deck)[v] {
      assert multiset(replaced)[v] + multiset{hand[i]}[v] == multiset(hand)[v] + multiset{card}[v];
      assert (multiset(rest) + multiset{card})[v] == multiset(deck)[v];
    }
  }

  /** The cards the mulligan confirm puts back into the deck, in the order
      it pushes them: those at marked indices `lo <= i < hi` of the hand. */
  function Returned(hand: seq<Value>, marks: seq<bool>, lo: nat, hi: nat): (r: seq<Value>)
    requires lo <= hi <= |hand| && hi <= |marks|
    ensures |r| <= hi - lo
    decreases hi
  {
    if lo == hi then []
    else Returned(hand, marks, lo, hi - 1) + (if marks[hi - 1] then [hand[hi - 1]] else [])
  }

  /** Scanning further never returns fewer cards. */
  lemma {:induction false} ReturnedGrows(hand: seq<Value>, marks: seq<bool>, k: nat, hi: nat)
    requires k <= hi <= |hand| && hi <= |marks|
    ensures |Returned(hand, marks, 0, k)| <= |Returned(hand, marks, 0, hi)|
    decreases hi
  {
    if k < hi {
      ReturnedGrows(hand, marks, k, hi - 1);
    }
  }

  /** The first loop of the mulligan confirm: every marked card among the
      first three is pushed onto the deck, in index order. */
  method PushMarked(hand: seq<Value>, marks: seq<bool>, deck0: seq<Value>) returns (deck: seq<Value>)
    requires |hand| >= 3 && |marks| == 3
    requires forall j :: 0 <= j < 3 ==> hand[j] != Null
    ensures deck == deck0 + Returned(hand, marks, 0, 3)
    ensures Null !in deck0 ==> Null !in deck
  {
    deck := deck0;
    var i := 0;
    while i < 3
      invariant 0 <= i <= 3
      invariant deck == deck0 + Returned(hand, marks, 0, i)
      invariant Null !in deck0 ==> Null !in deck
    {
      if marks[i] {
        deck := deck + [hand[i]];
      }
      i := i + 1;
    }
  }

  /** Bookkeeping of one refill: the card that left hand and deck joins
      the cards counted as returned. */
  lemma MoveToReturned(now: multiset<Value>, before: multiset<Value>, returned: seq<Value>, v: Value,
                       total: multiset<Value>)
    requires now + multiset{v} == before && before + multiset(returned) == total
    ensures now + multiset(returned + [v]) == total
  {
    forall w ensures (now + multiset(returned + [v]))[w] == total[w] {
      assert (now + multiset{v})[w] == before[w];
      assert (before + multiset(returned))[w] == total[w];
    }
  }

  /** Where the second loop of the mulligan confirm stands before slot
      `i`: the cards returned from slots below `i` have left hand and deck
      together, the deck has shrunk by as many, the marked slots below `i`
      hold drawn cards and every other slot is as it was. */
  ghost predicate Refilling(hand0: seq<Value>, marks: seq<bool>, deck0: seq<Value>, i: nat,
                            hand: seq<Value>, deck: seq<Value>)
    requires |hand0| >= 3 && |marks| == 3 && i <= 3
  {
    |hand| == |hand0| &&
    multiset(hand + deck) + multiset(Returned(hand0, marks, 0, i)) == multiset(hand0 + deck0) &&
    |deck| + |Returned(hand0, marks, 0, i)| == |deck0| &&
    (forall j :: 0 <= j < |hand| && (j >= i || !marks[j]) ==> hand[j] == hand0[j]) &&
    (forall j :: 0 <= j < i && marks[j] ==> hand[j] != Null) &&
    Null !in deck
  }

  /** Before a marked slot `i` draws, the deck still holds at least the
      cards returned from slot `i` on, so it is not empty. */
  lemma RefillRoom(hand0: seq<Value>, marks: seq<bool>, deck0: seq<Value>, i: nat,
                   hand: seq<Value>, deck: seq<Value>)
    requires |hand0| >= 3 && |marks| == 3 && i < 3 && marks[i] && |deck0| >= |Returned(hand0, marks, 0, 3)|
    requires Refilling(hand0, marks, deck0, i, hand, deck)
    ensures deck != []
    ensures Returned(hand0, marks, 0, i + 1) == Returned(hand0, marks, 0, i) + [hand0[i]]
  {
    ReturnedGrows(hand0, marks, i + 1, 3);
  }

  /** Refilling marked slot `i` from the deck moves the loop on by one slot. */
  lemma RefillStep(hand0: seq<Value>, marks: seq<bool>, deck0: seq<Value>, i: nat,
                   hand: seq<Value>, deck: seq<Value>, card: Value, rest: seq<Value>)
    requires |hand0| >= 3 && |marks| == 3 && i < 3 && marks[i] && deck != []
    requires Returned(hand0, marks, 0, i + 1) == Returned(hand0, marks, 0, i) + [hand0[i]]
    requires Refilling(hand0, marks, deck0, i, hand, deck) && DrawnFrom(deck, card, rest)
    ensures Refilling(hand0, marks, deck0, i + 1, hand[i := card], rest)
  {
    ReplaceFromDeck(hand, i, deck, card, rest);
    MoveToReturned(multiset(hand[i := card] + rest), multiset(hand + deck), Returned(hand0, marks, 0, i), hand0[i],
                   multiset(hand0 + deck0));
  }

  /** One pass of the second loop: `if (mulligan[i]) hand_w[i] = drawCard(deck_w)`. */
  method RefillSlot(hand0: seq<Value>, marks: seq<bool>, deck0: seq<Value>, i: nat,
                    hand: seq<Value>, deck: seq<Value>) returns (hand1: seq<Value>, deck1: seq<Value>)
    requires |hand0| >= 3 && |marks| == 3 && i < 3 && |deck0| >= |Returned(hand0, marks, 0, 3)|
    requires Refilling(hand0, marks, deck0, i, hand, deck)
    ensures Refilling(hand0, marks, deck0, i + 1, hand1, deck1)
  {
    if marks[i] {
      RefillRoom(hand0, marks, deck0, i, hand, deck);
      var card, rest := DrawCard(deck);
      RefillStep(hand0, marks, deck0, i, hand, deck, card, rest);
      hand1, deck1 := hand[i := card], rest;
    } else {
      assert Returned(hand0, marks, 0, i + 1) == Returned(hand0, marks, 0, i);
      hand1, deck1 := hand, deck;
    }
  }

  /** The second loop of the mulligan confirm: each marked slot of the
      hand is refilled by a draw. The deck holds at least the cards the
      first loop pushed, so no draw finds it empty; only those cards leave
      hand and deck together. */
  method RefillMarked(hand0: seq<Value>, marks: seq<bool>, deck0: seq<Value>) returns (hand: seq<Value>, deck: seq<Value>)
    requires |hand0| >= 3 && |marks| == 3 && Null !in deck0
    requires |deck0| >= |Returned(hand0, marks, 0, 3)|
    ensures |hand| == |hand0| && |deck| + |Returned(hand0, marks, 0, 3)| == |deck0|
    ensures multiset(hand + deck) + multiset(Returned(hand0, marks, 0, 3)) == multiset(hand0 + deck0)
    ensures forall j :: 0 <= j < |hand| && (j >= 3 || !marks[j]) ==> hand[j] == hand0[j]
    ensures forall j :: 0 <= j < 3 && marks[j] ==> hand[j] != Null
    ensures Null !in deck
  {
    hand, deck := hand0, deck0;
    var i := 0;
    while i < 3
      invariant 0 <= i <= 3 && Refilling(hand0, marks, deck0, i, hand, deck)
    {
      hand, deck := RefillSlot(hand0, marks, deck0, i, hand, deck);
      i := i + 1;
    }
  }

  /** The mulligan confirm on the hand and deck: `PushMarked`, then
      `RefillMarked`. Hand and deck together keep their cards. */
  method MulliganSwap(hand0: seq<Value>, marks: seq<bool>, deck0: seq<Value>) returns (hand: seq<Value>, deck: seq<Value>)
    requires |hand0| >= 3 && |marks| == 3 && Null !in deck0
    requires forall j :: 0 <= j < 3 ==> hand0[j] != Null
    ensures |hand| == |hand0| && |deck| == |deck0|
    ensures multiset(hand + deck) == multiset(hand0 + deck0)
    ensures forall j :: 0 <= j < |hand| && (j >= 3 || !marks[j]) ==> hand[j] == hand0[j]
    ensures forall j :: 0 <= j < 3 ==> hand[j] != Null
    ensures Null !in deck
  {
    var deck1 := PushMarked(hand0, marks, deck0);
    hand, deck := RefillMarked(hand0, marks, deck1);
    assert hand0 + deck1 == (hand0 + deck0) + Returned(hand0, marks, 0, 3);
    ghost var before, pushed := multiset(hand0 + deck0), multiset(Returned(hand0, marks, 0, 3));
    assert multiset(hand + deck) + pushed == before + pushed;
    forall v ensures multiset(hand + deck)[v] == before[v] {
      assert (multiset(hand + deck) + pushed)[v] == (before + pushed)[v];
    }
  }

  /** The kind of the card at position `i` of a starting deck: eight
      pawns, two rooks, two knights, two bishops and a queen. */
  function StartKind(i: nat): (k: string)
    ensures ManaCost(k).Some?
  {
    if i < 8 then "pawn" else if i < 10 then "rook" else if i < 12 then "knight"
    else if i < 14 then "bishop" else "queen"
  }

  /** The starting deck of one side, its kinds named with the side's prefix. */
  function StartDeck(prefix: string): (r: seq<Value>)
    ensures |r| == 15 && Null !in r
    ensures forall i :: 0 <= i < 15 ==> r[i] == Name(prefix + StartKind(i))
  {
    seq(15, i requires 0 <= i < 15 => Name(prefix + StartKind(i)))
  }

  /** The largest mana pool after one more upkeep: one more, at most ten. */
  function NextMaxMana(m: int): (r: int)
    ensures r <= 10 && r <= m + 1 && (r == 10 || r == m + 1)
  {
    var n := m + 1;
    if n > 10 then 10 else n
  }

  /** The largest mana pool after `turns` upkeeps from the initial zero. */
  function MaxManaAfter(turns: nat): int
  {
    if turns == 0 then 0 else NextMaxMana(MaxManaAfter(turns - 1))
  }

  /** Mana grows by one per turn until it reaches ten and then stays there. */
  lemma {:induction false} MaxManaAfterTurns(turns: nat)
    ensures MaxManaAfter(turns) == if turns < 10 then turns else 10
  {
    if turns > 0 {
      MaxManaAfterTurns(turns - 1);
    }
  }

  /** One upkeep keeps the pool within `[1, 10]` and never shrinks it. */
  lemma NextMaxManaBounds(m: int)
    requires 0 <= m <= 10
    ensures 1 <= NextMaxMana(m) <= 10 && m <= NextMaxMana(m)
    ensures NextMaxMana(m) == m + 1 <==> m < 10
  {
  }
}
