/** The game's global state and the handlers that change it: the starting
    hands, the mulligan screen's click, the mulligan animation's frame,
    the three mouse handlers of white's turn and the `setState` dispatcher
    with each side's upkeep. */
module Game {
  import opened Values
  import opened Cards
  import opened Layout
  import opened Timeline

  /** `animType`: unset until the first animation, then 'draw' or 'summon'. */
  datatype AnimType = NoAnim | DrawAnim | SummonAnim

  /** `arrowSource`: unset until the first drag, then "hand" or "power".
      (The "minion" source the mouse-up handler tests for is never set.) */
  datatype ArrowSource = NoArrow | FromHand | FromPower

  /** The images of the first three hand entries, `undefined` past the end.
      Only an entry that is a registered card name has one, so three found
      images mean three cards in the hand, none of them `null`. */
  function MulliganCards(images: map<string, Size>, hand: seq<Value>): (r: seq<ImageRef>)
    ensures |r| == 3
    ensures forall j :: 0 <= j < 3 && !r[j].Undefined? ==>
      j < |hand| && hand[j].Name? && hand[j].s in images && r[j] == Image(images[hand[j].s])
    ensures forall j :: 0 <= j < |hand| && j < 3 && hand[j].Name? && hand[j].s in images ==> r[j].Image?
  {
    seq(3, j requires 0 <= j < 3 => if j < |hand| then Lookup(images, hand[j]) else Undefined)
  }

  class HearthChess {
    /** `resources.items`: the size of every registered image. */
    const images: map<string, Size>

    var deckW: seq<Value>
    var deckB: seq<Value>
    var handW: seq<Value>
    var handB: seq<Value>
    var boardW: seq<Value>
    var manaW: int
    var maxManaW: int
    var manaB: int
    var maxManaB: int

    /** Which of the three starting cards are marked for replacement. */
    var mulligan: seq<bool>
    /** The white hand as it was before the mulligan. */
    var preMullHand: seq<Value>

    /** The enlarged card shown above the hand while the pointer hovers. */
    var cardDetailId: nat
    var cardDetail: ImageRef
    var cardDetailX: real
    var cardDetailY: real

    var mouseIsDown: bool
    var arrowSource: ArrowSource
    var arrowStartX: real
    var arrowStartY: real
    var arrowEndX: real
    var arrowEndY: real

    /** The start time of the running animation, in milliseconds. */
    var animTimer: int
    var animType: AnimType
    var animParam: real

    /** `canvas.onclick` is `clickMulligan`. */
    var clickHandler: bool
    /** `canvas.onmousedown`, `onmouseup` and `onmousemove` are the turn's handlers. */
    var turnHandlers: bool
    var screen: Screen

    /** White's pool starts at 1 of 0 and each upkeep sets it to its
        maximum; black's starts at 0 of 0; no maximum exceeds ten. */
    ghost predicate ManaOk()
      reads this`manaW, this`maxManaW, this`manaB, this`maxManaB
    {
      0 <= maxManaW <= 10 && 0 <= manaW && (manaW <= maxManaW || (maxManaW == 0 && manaW == 1)) &&
      0 <= manaB <= maxManaB <= 10
    }

    /** What held when the drag from the hand began and still holds: the
        detail card names a costed card of the hand, there is mana for it
        and room on the board. */
    ghost predicate DragReady()
      reads this`handW, this`cardDetailId, this`manaW, this`boardW
    {
      var c := CostAt(handW, cardDetailId);
      cardDetailId < |handW| && c.Ok? && c.value.Some? && c.value.value <= manaW && |boardW| < 7
    }

    ghost predicate Valid()
      reads this`mulligan, this`manaW, this`maxManaW, this`manaB, this`maxManaB, this`boardW,
            this`deckW, this`deckB, this`cardDetail, this`mouseIsDown, this`arrowSource,
            this`handW, this`cardDetailId
    {
      |mulligan| == 3 && ManaOk() && |boardW| <= 7 &&
      Null !in deckW && Null !in deckB &&
      !cardDetail.Undefined? &&
      (mouseIsDown && arrowSource == FromHand ==> DragReady())
    }

    /** The global initial values and `init`'s starting hands: three cards
        for white, four and the coin for black. */
    constructor (images: map<string, Size>)
      ensures Valid() && this.images == images
      ensures screen == Loading && !clickHandler && !turnHandlers
      ensures |handW| == 3 && Null !in handW && |deckW| == 12
      ensures multiset(handW + deckW) == multiset(StartDeck("w_"))
      ensures |handB| == 5 && Null !in handB[..4] && handB[4] == Name("coin") && |deckB| == 11
      ensures multiset(handB[..4] + deckB) == multiset(StartDeck("b_"))
      ensures boardW == [] && manaW == 1 && maxManaW == 0 && manaB == 0 && maxManaB == 0
      ensures mulligan == [false, false, false] && cardDetail == NullRef && !mouseIsDown
    {
      var hw, w3, hb, b4 := StartHands();
      assert (hb + [Name("coin")])[..4] == hb;
      this.images := images;
      deckW, deckB := w3, b4;
      handW := hw;
      handB := hb + [Name("coin")];
      boardW := [];
      maxManaB, maxManaW, manaB, manaW := 0, 0, 0, 1;
      mulligan := [false, false, false];
      preMullHand := [];
      cardDetailId, cardDetail, cardDetailX, cardDetailY := 0, NullRef, 0.0, 0.0;
      mouseIsDown, arrowSource := false, NoArrow;
      arrowStartX, arrowStartY, arrowEndX, arrowEndY := 0.0, 0.0, 0.0, 0.0;
      animTimer, animType, animParam := 0, NoAnim, 0.0;
      clickHandler, turnHandlers, screen := false, false, Loading;
    }

    /** The white deck, hand and mana are as they were. */
    twostate predicate KeepsWhite()
      reads this
    {
      deckW == old(deckW) && handW == old(handW) && manaW == old(manaW) && maxManaW == old(maxManaW)
    }

    /** The black deck, hand and mana are as they were. */
    twostate predicate KeepsBlack()
      reads this
    {
      deckB == old(deckB) && handB == old(handB) && manaB == old(manaB) && maxManaB == old(maxManaB)
    }

    /** `setState("mulligan")`: the mulligan click handler is installed. */
    twostate predicate EnteredMulligan()
      reads this
    {
      screen == Mulligan && clickHandler && turnHandlers == old(turnHandlers) &&
      KeepsWhite() && KeepsBlack() &&
      animTimer == old(animTimer) && animType == old(animType) && animParam == old(animParam)
    }

    /** `setState("mulligan_anim")`: the click handler is removed and the
        animation clock starts at `now`. */
    twostate predicate EnteredMulliganAnim(now: int)
      reads this
    {
      screen == MulliganAnim && !clickHandler && turnHandlers == old(turnHandlers) &&
      KeepsWhite() && KeepsBlack() &&
      animTimer == now && animType == old(animType) && animParam == old(animParam)
    }

    /** `setState("turn_w")`, white's upkeep: the turn's handlers are
        installed, the mana maximum grows by one up to ten and the pool is
        refilled, and the card drawn from the white deck (`null` when it is
        empty) is appended to the hand with a draw animation on it. */
    twostate predicate WhiteUpkeep(now: int)
      reads this
    {
      screen == TurnW && turnHandlers && clickHandler == old(clickHandler) &&
      maxManaW == NextMaxMana(old(maxManaW)) && manaW == maxManaW &&
      |handW| == |old(handW)| + 1 && handW[..|old(handW)|] == old(handW) &&
      DrawnFrom(old(deckW), handW[|old(handW)|], deckW) &&
      animTimer == now && animType == DrawAnim && animParam == (|handW| - 1) as real
    }

    /** `setState("turn_b")`, black's upkeep: the turn's handlers are
        removed, black's mana grows and refills as white's does and the card
        drawn from the black deck is appended to the black hand. The branch
        ends with `drawfunc = drawBlackTurn`, a name the program never
        declares: reading it throws a ReferenceError, so the screen stays
        what it was. */
    twostate predicate BlackUpkeep(now: int)
      reads this
    {
      screen == old(screen) && !turnHandlers && clickHandler == old(clickHandler) &&
      maxManaB == NextMaxMana(old(maxManaB)) && manaB == maxManaB &&
      |handB| == |old(handB)| + 1 && handB[..|old(handB)|] == old(handB) &&
      DrawnFrom(old(deckB), handB[|old(handB)|], deckB) &&
      animTimer == now && animType == old(animType) && animParam == old(animParam)
    }

    method EnterMulligan()
      requires Valid()
      modifies this`clickHandler, this`screen
      ensures Valid() && EnteredMulligan()
    {
      clickHandler := true;
      screen := Mulligan;
    }

    method EnterMulliganAnim(now: int)
      requires Valid()
      modifies this`clickHandler, this`animTimer, this`screen
      ensures Valid() && EnteredMulliganAnim(now)
    {
      clickHandler := false;
      animTimer := now;
      screen := MulliganAnim;
    }

    /** One upkeep of white's pool: the maximum grows by one up to ten and
        the pool is refilled to it. */
    method RefillW()
      requires Valid()
      modifies this`maxManaW, this`manaW
      ensures Valid()
      ensures maxManaW == NextMaxMana(old(maxManaW)) && manaW == maxManaW && 1 <= manaW <= 10
    {
      maxManaW := maxManaW + 1;
      if maxManaW > 10 {
        maxManaW := 10;
      }
      manaW := maxManaW;
    }

    /** One upkeep of black's pool, as white's. */
    method RefillB()
      requires Valid()
      modifies this`maxManaB, this`manaB
      ensures Valid()
      ensures maxManaB == NextMaxMana(old(maxManaB)) && manaB == maxManaB && 1 <= manaB <= 10
    {
      maxManaB := maxManaB + 1;
      if maxManaB > 10 {
        maxManaB := 10;
      }
      manaB := maxManaB;
    }

    /** `hand_w.push(drawCard(deck_w))`. */
    method DrawW()
      requires Valid()
      modifies this`handW, this`deckW
      ensures Valid()
      ensures |handW| == |old(handW)| + 1 && handW[..|old(handW)|] == old(handW)
      ensures DrawnFrom(old(deckW), handW[|old(handW)|], deckW)
      ensures multiset(handW + deckW) == multiset(old(handW) + old(deckW)) +
                                         (if old(deckW) == [] then multiset{Null} else multiset{})
      ensures old(deckW) == [] ==> handW == old(handW) + [Null]
    {
      var card, rest := DrawCard(deckW);
      DrawIntoHand(handW, deckW, card, rest);
      var hand := handW + [card];
      assert hand[|handW|] == card && hand[..|handW|] == handW;
      assert cardDetailId < |handW| ==> CostAt(hand, cardDetailId) == CostAt(handW, cardDetailId);
      handW, deckW := hand, rest;
    }

    /** `hand_b.push(drawCard(deck_b))`. */
    method DrawB()
      requires Valid()
      modifies this`handB, this`deckB
      ensures Valid()
      ensures |handB| == |old(handB)| + 1 && handB[..|old(handB)|] == old(handB)
      ensures DrawnFrom(old(deckB), handB[|old(handB)|], deckB)
    {
      var card, rest := DrawCard(deckB);
      DrawIntoHand(handB, deckB, card, rest);
      var hand := handB + [card];
      assert hand[|handB|] == card && hand[..|handB|] == handB;
      handB, deckB := hand, rest;
    }

    method EnterTurnW(now: int)
      requires Valid()
      modifies this`turnHandlers, this`maxManaW, this`manaW, this`handW, this`deckW,
               this`animTimer, this`animType, this`animParam, this`screen
      ensures Valid() && WhiteUpkeep(now)
      ensures 1 <= manaW == maxManaW <= 10
      ensures multiset(handW + deckW) == multiset(old(handW) + old(deckW)) +
                                         (if old(deckW) == [] then multiset{Null} else multiset{})
      ensures old(deckW) == [] ==> handW == old(handW) + [Null]
    {
      RefillW();
      DrawW();
      turnHandlers := true;
      animTimer, animType, animParam := now, DrawAnim, (|handW| - 1) as real;
      screen := TurnW;
    }

    /** The `"turn_b"` branch up to the assignment that throws: handlers
        removed, black's upkeep, the clock restarted. */
    method EnterTurnB(now: int)
      requires Valid()
      modifies this`turnHandlers, this`maxManaB, this`manaB, this`handB, this`deckB,
               this`animTimer
      ensures Valid() && BlackUpkeep(now)
      ensures 1 <= manaB == maxManaB <= 10
    {
      RefillB();
      DrawB();
      turnHandlers := false;
      animTimer := now;
    }

    /** `setState`: enters the named screen, or reports an unknown name
        (the game's alert) and changes nothing. `"turn_b"` throws after
        black's upkeep, before `drawfunc` is set. */
    method SetState(name: string, now: int) returns (known: bool, threw: bool)
      requires Valid()
      modifies this`clickHandler, this`turnHandlers, this`screen, this`animTimer, this`animType,
               this`animParam, this`maxManaW, this`manaW, this`handW, this`deckW,
               this`maxManaB, this`manaB, this`handB, this`deckB
      ensures Valid()
      ensures known <==> ParseState(name).Some?
      ensures threw <==> ParseState(name) == Some(TurnB)
      ensures !known ==> unchanged(this)
      ensures ParseState(name) == Some(Mulligan) ==> EnteredMulligan()
      ensures ParseState(name) == Some(MulliganAnim) ==> EnteredMulliganAnim(now)
      ensures ParseState(name) == Some(TurnW) ==> WhiteUpkeep(now) && KeepsBlack()
      ensures ParseState(name) == Some(TurnB) ==> BlackUpkeep(now) && KeepsWhite()
    {
      known, threw := true, false;
      match ParseState(name)
      case Some(Mulligan) => EnterMulligan();
      case Some(MulliganAnim) => EnterMulliganAnim(now);
      case Some(TurnW) => EnterTurnW(now);
      case Some(TurnB) =>
        EnterTurnB(now);
        threw := true;
      case _ => known := false;
    }

    /** The confirm button's work: save the hand, push every marked card
        back onto the deck, then replace each marked card by a draw. */
    method ReplaceMarked()
      requires Valid() && !mouseIsDown
      requires |handW| >= 3 && forall j :: 0 <= j < 3 ==> handW[j] != Null
      modifies this`preMullHand, this`handW, this`deckW
      ensures Valid()
      ensures preMullHand == old(handW)
      ensures |handW| == |old(handW)| && |deckW| == |old(deckW)|
      ensures multiset(handW + deckW) == multiset(old(handW) + old(deckW))
      ensures forall j :: 0 <= j < |handW| && (j >= 3 || !mulligan[j]) ==> handW[j] == old(handW)[j]
      ensures forall j :: 0 <= j < 3 ==> handW[j] != Null
    {
      var hand, deck := MulliganSwap(handW, mulligan, deckW);
      preMullHand, handW, deckW := handW, hand, deck;
    }

    /** `clickMulligan`: a click on a card's box flips that card's mark; a
        click on the confirm button replaces the marked cards and starts the
        mulligan animation; anything else, or a test that throws, changes
        nothing. */
    method ClickMulligan(x: real, y: real, now: int) returns (target: MulliganTarget)
      requires Valid() && !mouseIsDown
      requires |handW| >= 3 && forall j :: 0 <= j < 3 ==> handW[j] != Null
      modifies this`mulligan, this`preMullHand, this`handW, this`deckW, this`clickHandler,
               this`animTimer, this`screen
      ensures Valid()
      ensures target == MulliganHit(x, y, MulliganCards(images, old(handW)), Lookup(images, Name("confirm")))
      ensures target.Toggle? ==>
        mulligan == old(mulligan)[target.slot := !old(mulligan)[target.slot]] &&
        unchanged(this`preMullHand, this`handW, this`deckW, this`clickHandler, this`animTimer, this`screen)
      ensures target.Confirm? ==>
        mulligan == old(mulligan) && preMullHand == old(handW) &&
        |handW| == |old(handW)| && |deckW| == |old(deckW)| &&
        multiset(handW + deckW) == multiset(old(handW) + old(deckW)) &&
        (forall j :: 0 <= j < |handW| && (j >= 3 || !mulligan[j]) ==> handW[j] == old(handW)[j]) &&
        (forall j :: 0 <= j < 3 ==> handW[j] != Null) &&
        screen == MulliganAnim && !clickHandler && animTimer == now
      ensures target.Nothing? || target.Threw? ==> unchanged(this)
    {
      target := MulliganHit(x, y, MulliganCards(images, handW), Lookup(images, Name("confirm")));
      match target
      case Toggle(i) =>
        mulligan := mulligan[i := !mulligan[i]];
      case Confirm =>
        ReplaceMarked();
        EnterMulliganAnim(now);
      case _ =>
    }

    /** The game-state part of `drawMulliganAnim`: which phase the frame at
        time `now` shows, and white's first turn once four seconds have
        passed. */
    method DrawMulliganAnim(now: int) returns (phase: MulliganPhase)
      requires Valid()
      modifies this`turnHandlers, this`maxManaW, this`manaW, this`handW, this`deckW,
               this`animTimer, this`animType, this`animParam, this`screen
      ensures Valid()
      ensures phase == AnimPhase(now - old(animTimer))
      ensures phase != Finished ==> unchanged(this)
      ensures phase == Finished ==> WhiteUpkeep(now)
    {
      phase := AnimPhase(now - animTimer);
      if phase == Finished {
        EnterTurnW(now);
      }
    }

    /** Presses the mouse and starts the arrow from `source` at
        `(sx, sy)`, its tip at `(ex, ey)`. */
    method StartArrow(sx: real, sy: real, ex: real, ey: real, source: ArrowSource)
      requires Valid() && (source == FromHand ==> DragReady())
      modifies this`arrowStartX, this`arrowStartY, this`arrowEndX, this`arrowEndY,
               this`arrowSource, this`mouseIsDown
      ensures Valid() && mouseIsDown && arrowSource == source
      ensures arrowStartX == sx && arrowStartY == sy && arrowEndX == ex && arrowEndY == ey
    {
      arrowStartX, arrowStartY, arrowEndX, arrowEndY := sx, sy, ex, ey;
      arrowSource, mouseIsDown := source, true;
    }

    /** `mousedownMain`: start an arrow from the detail card when the drag
        guard holds, from the hero power when the press is on it, and
        otherwise release the mouse. Evaluating the guard throws when the
        detail index no longer names a card of the hand. */
    method MousedownMain(x: real, y: real) returns (threw: bool)
      requires Valid()
      modifies this`arrowStartX, this`arrowStartY, this`arrowEndX, this`arrowEndY,
               this`arrowSource, this`mouseIsDown
      ensures Valid()
      ensures var g := old(DragGuard(CheckBounds(x, y, cardDetailX, cardDetailY, cardDetail) == Ok(true),
                                     |boardW|, manaW, handW, cardDetailId));
        (threw <==> g.TypeError?) &&
        (g.TypeError? ==> unchanged(this)) &&
        (g == Ok(true) ==>
          mouseIsDown && arrowSource == FromHand &&
          arrowStartX == old(cardDetailX + cardDetail.size.width / 2.0) &&
          arrowStartY == old(cardDetailY + cardDetail.size.height / 2.0) &&
          arrowEndX == x && arrowEndY == y) &&
        (g == Ok(false) && OnHeroPower(x, y) ==>
          mouseIsDown && arrowSource == FromPower &&
          arrowStartX == 880.0 && arrowStartY == 824.0 && arrowEndX == x && arrowEndY == y) &&
        (g == Ok(false) && !OnHeroPower(x, y) ==>
          !mouseIsDown &&
          unchanged(this`arrowStartX, this`arrowStartY, this`arrowEndX, this`arrowEndY, this`arrowSource))
    {
      var onDetail := CheckBounds(x, y, cardDetailX, cardDetailY, cardDetail);
      var guard := DragGuard(onDetail == Ok(true), |boardW|, manaW, handW, cardDetailId);
      if guard.TypeError? {
        return true;
      }
      threw := false;
      if guard.value {
        StartArrow(cardDetailX + cardDetail.size.width / 2.0, cardDetailY + cardDetail.size.height / 2.0,
                   x, y, FromHand);
      } else if OnHeroPower(x, y) {
        StartArrow(880.0, 824.0, x, y, FromPower);
      } else {
        mouseIsDown := false;
      }
    }

    /** Starts an animation: `animTimer = Date.now()`, with its kind and
        parameter. */
    method StartAnimation(now: int, kind: AnimType, param: real)
      requires Valid()
      modifies this`animTimer, this`animType, this`animParam
      ensures Valid() && animTimer == now && animType == kind && animParam == param
    {
      animTimer, animType, animParam := now, kind, param;
    }

    /** The play itself: the detail card's cost is paid, the card leaves
        the hand and its hand index enters the board at the drop index;
        the mouse is released. */
    method PlayFromHand(x: real)
      requires Valid() && mouseIsDown && arrowSource == FromHand
      modifies this`manaW, this`handW, this`boardW, this`mouseIsDown
      ensures Valid() && !mouseIsDown
      ensures var id, cost := old(cardDetailId), old(CostAt(handW, cardDetailId));
        id < |old(handW)| && cost.Ok? && cost.value.Some? &&
        manaW == old(manaW) - cost.value.value && 0 <= manaW &&
        handW == RemoveAt(old(handW), id) &&
        boardW == InsertAt(old(boardW), InsertIndex(x, |old(boardW)|), Num(id)) &&
        |boardW| == |old(boardW)| + 1 <= 7
    {
      var id := cardDetailId;
      manaW, handW, boardW, mouseIsDown :=
        manaW - CostAt(handW, id).value.value, RemoveAt(handW, id),
        InsertAt(boardW, InsertIndex(x, |boardW|), Num(id)), false;
    }

    /** `mouseupMain`: a drag from the hand released inside the board
        region plays the card: its cost is paid, it leaves the hand, and the
        board receives, at the clamped drop index, the card's hand index
        (not its name: the handler inserts `cardDetailID`); the summoning
        animation starts at the clamped, possibly fractional, drop position.
        The mouse is released in every case. */
    method MouseupMain(x: real, y: real, now: int)
      requires Valid()
      modifies this`manaW, this`handW, this`boardW, this`animTimer, this`animType,
               this`animParam, this`mouseIsDown
      ensures Valid() && !mouseIsDown
      ensures !old(mouseIsDown && arrowSource == FromHand && InDropZone(x, y)) ==>
        unchanged(this`manaW, this`handW, this`boardW, this`animTimer, this`animType, this`animParam)
      ensures old(mouseIsDown && arrowSource == FromHand && InDropZone(x, y)) ==>
        var id, cost := old(cardDetailId), old(CostAt(handW, cardDetailId));
        id < |old(handW)| && cost.Ok? && cost.value.Some? &&
        manaW == old(manaW) - cost.value.value && 0 <= manaW &&
        handW == RemoveAt(old(handW), id) &&
        boardW == InsertAt(old(boardW), InsertIndex(x, |old(boardW)|), Num(id)) &&
        |boardW| == |old(boardW)| + 1 <= 7 &&
        animTimer == now && animType == SummonAnim && animParam == DropSlot(x, |old(boardW)|)
    {
      if mouseIsDown && arrowSource == FromHand && InDropZone(x, y) {
        var slot := DropSlot(x, |boardW|);
        PlayFromHand(x);
        StartAnimation(now, SummonAnim, slot);
      } else {
        mouseIsDown := false;
      }
    }

    /** Shows the enlarged card `img` at `(x, y)` for hand card `id`. */
    method ShowDetail(id: nat, img: ImageRef, x: real, y: real)
      requires Valid() && !mouseIsDown && !img.Undefined?
      modifies this`cardDetailId, this`cardDetail, this`cardDetailX, this`cardDetailY
      ensures Valid() && cardDetailId == id && cardDetail == img && cardDetailX == x && cardDetailY == y
    {
      cardDetailId, cardDetail, cardDetailX, cardDetailY := id, img, x, y;
    }

    /** `mousemoveMain`: during a drag the arrow follows the pointer.
        Otherwise the detail card stays while the pointer is on it; if not,
        the hand is scanned from its last card to its first and the first
        card whose box holds the pointer becomes the detail card, which is
        removed when there is none. */
    method MousemoveMain(x: real, y: real) returns (threw: bool)
      requires Valid()
      modifies this`arrowEndX, this`arrowEndY, this`cardDetailId, this`cardDetail,
               this`cardDetailX, this`cardDetailY
      ensures Valid()
      ensures mouseIsDown ==>
        !threw && arrowEndX == x && arrowEndY == y &&
        unchanged(this`cardDetailId, this`cardDetail, this`cardDetailX, this`cardDetailY)
      ensures !mouseIsDown ==> unchanged(this`arrowEndX, this`arrowEndY)
      ensures !mouseIsDown && CheckBounds(x, y, old(cardDetailX), old(cardDetailY), old(cardDetail)) == Ok(true) ==>
        !threw && unchanged(this)
      ensures !mouseIsDown && CheckBounds(x, y, old(cardDetailX), old(cardDetailY), old(cardDetail)) != Ok(true) ==>
        var r := HoverScan(x, y, Spacing(|handW|), LookupAll(images, handW));
        (threw <==> r.TypeError?) &&
        (r.TypeError? ==> unchanged(this)) &&
        (r.Ok? && r.value.Some? ==>
          cardDetailId == r.value.value && cardDetail == Lookup(images, handW[cardDetailId]) &&
          cardDetailX == HandCardX(Spacing(|handW|), cardDetailId) && cardDetailY == 710.0) &&
        (r == Ok(None) ==>
          cardDetail == NullRef && unchanged(this`cardDetailId, this`cardDetailX, this`cardDetailY))
    {
      if mouseIsDown {
        arrowEndX, arrowEndY := x, y;
        return false;
      }
      if CheckBounds(x, y, cardDetailX, cardDetailY, cardDetail) == Ok(true) {
        return false;
      }
      var imgs := LookupAll(images, handW);
      var spacing := Spacing(|handW|);
      var r := ScanHand(x, y, spacing, imgs);
      threw := false;
      match r
      case TypeError =>
        threw := true;
      case Ok(Some(i)) =>
        ShowDetail(i, imgs[i], HandCardX(spacing, i), 710.0);
      case Ok(None) =>
        if cardDetail != NullRef {
          cardDetail := NullRef;
        }
    }
  }
}
