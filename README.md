# HearthChess: the game-rule layer

HearthChess is a browser card game in which chess pieces are played as
minions. This project models the state the game keeps in globals and the
handlers that change it:

- the two decks, the two hands and white's board;
- the mana pools;
- the mulligan marks and the pre-mulligan hand;
- the detail card shown while hovering;
- the drag arrow;
- the animation clock.

It models five steps: `init`'s starting hands, the mulligan screen's click
(marking cards and confirming), the mulligan animation's timeline,
`setState` with each side's upkeep, and white's turn (hover, press and
drop of a card). The class `Game.HearthChess` holds the globals as fields.
Each handler and each `setState` branch is a method that changes only the
fields its `modifies` clause names. `Valid()` states the invariant that
every handler keeps:

- mana is between 0 and 10 (white's pool is 1 of 0 before its first upkeep);
- the board holds at most seven minions;
- neither deck holds `null`;
- the detail card is never `undefined`;
- while a drag from the hand is under way, the card being dragged is in
  the hand, has a cost, and can be paid for.

These modules hold the pure parts:

- `Values` holds the JavaScript values and the TypeError that
  `null.substring` or `undefined.width` raises.
- `Cards` holds the cost table, `drawCard`, the mulligan loops on values,
  the starting deal and the mana upkeep.
- `Layout` holds `checkBounds` and the other hit tests, the hover scan and
  the drop index.
- `Timeline` holds the screens and the mulligan animation's phases.

The model keeps these behaviours of the code as written:

- The board receives the *hand index* of the played card, `Num(id)`, not
  its name (`board_w.splice(new_id, 0, cardDetailID)`).
- The drop position is measured in 65-pixel units, but board minions are
  130 pixels apart. Dropping on the centre of minion `i` inserts at `2 * i`,
  or at the end once `2 * i` reaches the board's length (`Layout.DropOnMinion`). `splice` truncates the clamped, possibly
  fractional, position; `animParam` keeps the fraction.
- Drawing from an empty deck yields `null`, and the upkeep pushes that onto
  the hand (`Game.HearthChess.EnterTurnW`). The hover scan starts at the
  last entry, and no card returns to the deck after the mulligan, so the
  `null` stays last. `checkBounds` compares `x` with the box's left edge
  before it reads the width, so a move off the detail card throws exactly
  when `x >= 400 + spacing * (n - 1)`, the left edge of that last entry;
  a move further left skips the `null` and can still hover an earlier card
  (`Layout.HoverTrailingMissing`, `Layout.HoverScan`,
  `Game.HearthChess.MousemoveMain`).
- After the last hand card is played, the detail index points past the end
  of the hand. While the board has fewer than 7 minions, pressing on the
  detail card again throws (`Cards.StaleDetailThrows`). This needs the
  pointer not to have moved off the detail card in between: such a move
  clears the detail card (HearthChess.js:386-387).
- `setState("turn_b")` performs black's upkeep and then assigns
  `drawfunc = drawBlackTurn`, a name the program never declares. Reading it
  throws a ReferenceError, so the screen stays what it was and the final
  `requestAnimationFrame` does not run (`Game.HearthChess.SetState` reports
  `threw`). No code of the game passes `"turn_b"`.
- White's pool starts at 1 with a maximum of 0. Its first upkeep sets it to
  1 of 1.

`Math.random` in `drawCard` is a nondeterministic choice of index. `Date.now()`
is the parameter `now`. Event coordinates are parameters, already divided by
the scale factor.

## Model

| member | source | states |
|---|---|---|
| Values.Lookup | HearthChess.js:374 | an entry finds an image exactly when it is a registered name; `null` and numbers find `undefined`, never `null` |
| Values.Substring2 | HearthChess.js:269 | `substring(2)` is what follows the two-character prefix, or empty for shorter strings |
| Cards.ManaCost | HearthChess.js:11 | exactly the five piece kinds have a cost, and every cost lies between 1 and 7 |
| Cards.CostOf | HearthChess.js:269 | the cost expression throws exactly when the entry is not a name; otherwise it looks up the name without its two-character prefix, and a name shorter than two characters finds no cost |
| Cards.CostAt | HearthChess.js:269 | the cost expression throws exactly when the index is past the hand or names no card; a found cost belongs to a card of the hand, lies in `[1, 7]` and is the table's entry for the name without its prefix |
| Cards.DragGuard | HearthChess.js:267-269 | a press off the detail card or on a full board is a plain `false` (the cost is never evaluated); a `true` guard means the card has a cost the mana covers |
| Cards.DragGuardMeaning | HearthChess.js:267-269 | a drag starts exactly when the press is on the detail card, the board has fewer than 7 minions, the card has a cost and the mana covers it; the guard throws exactly when the first two hold and the index names no card |
| Cards.StaleDetailThrows | HearthChess.js:267-269 | with fewer than 7 minions on the board and a detail index equal to the hand's length, a press on the detail card throws |
| Cards.RemoveAt | HearthChess.js:315 | `splice(i, 1)` shortens by one, keeping the order of the other elements |
| Cards.InsertAt | HearthChess.js:320 | `splice(k, 0, v)` puts `v` at `k` and shifts the rest right by one |
| Cards.RemoveAtMultiset | HearthChess.js:315 | removal takes exactly one occurrence of the removed element out of the multiset |
| Cards.InsertRemove | HearthChess.js:315-320 | removing what was just inserted gives the original back; an insert adds exactly one occurrence |
| Cards.DrawCard | HearthChess.js:92-99 | an empty deck gives `null` and stays as it is; otherwise some card of the deck is taken out at its index |
| Cards.DrawConserves | HearthChess.js:92-99 | a draw from a non-empty deck returns a card of the deck and shortens it by one; the drawn card and the rest make up the old deck as a multiset |
| Cards.DrawIntoHand | HearthChess.js:512 | pushing a draw keeps hand plus deck as a multiset, except that an empty deck adds one `null` |
| Cards.Deal | HearthChess.js:542 | `n` draws from a deck of at least `n` cards and no `null` give `n` non-null cards; hand plus rest is the old deck as a multiset |
| Cards.StartDeck | HearthChess.js:22-23 | fifteen cards per side: eight pawns, two each of rooks, knights and bishops, one queen; each has a cost |
| Cards.StartHands | HearthChess.js:540-543 | white holds 3 cards and 12 remain in its deck; black holds 4 and 11 remain; no `null`; each hand plus deck is that side's starting deck |
| Cards.Returned | HearthChess.js:178-182 | the cards the first loop pushes are at most one per slot |
| Cards.ReturnedGrows | HearthChess.js:178-182 | scanning more slots never pushes fewer cards |
| Cards.PushMarked | HearthChess.js:178-182 | the first loop appends the marked cards to the deck, in slot order, and adds no `null` |
| Cards.ReplaceFromDeck | HearthChess.js:187-188 | replacing a hand slot by a draw takes only the old slot card out of hand plus deck |
| Cards.RefillRoom | HearthChess.js:185-189 | before a marked slot draws, the deck is not empty, because each marked card was pushed back first |
| Cards.RefillStep | HearthChess.js:187-188 | refilling one marked slot keeps the second loop's invariant one slot further on |
| Cards.RefillSlot | HearthChess.js:185-189 | one pass of the second loop keeps its invariant |
| Cards.RefillMarked | HearthChess.js:185-189 | the second loop refills just the marked slots with non-null cards; only the pushed cards leave hand plus deck |
| Cards.MulliganSwap | HearthChess.js:176-189 | the confirm keeps the sizes of hand and deck and the multiset of hand plus deck; unmarked slots are kept; no `null` is drawn |
| Cards.MaxManaAfterTurns | HearthChess.js:507-508 | after `t` upkeeps the maximum is `min(t, 10)` |
| Cards.NextMaxMana | HearthChess.js:507-508 | the new maximum is `min(m + 1, 10)` |
| Cards.NextMaxManaBounds | HearthChess.js:507-508 | one upkeep keeps the maximum in `[1, 10]`, never lowers it, and raises it by one below ten |
| Layout.CheckBounds | HearthChess.js:133-137 | false for `null`; for `undefined` a TypeError exactly when the point is not left of the image (the short-circuit reaches `img.width`), false otherwise; true exactly for an image and a point inside the closed rectangle |
| Layout.CheckBoundsTranslate | HearthChess.js:133-137 | the test depends only on the point's offset from the image |
| Layout.CheckBoundsCorners | HearthChess.js:133-137 | all four corners of an image hit |
| Layout.Spacing | HearthChess.js:372 | `floor(500 / (n + 1))` is the largest step that fits `n + 1` times into 500 |
| Layout.HoverScan | HearthChess.js:372-384 | the card found is the highest index whose box holds the point; none found means no box holds it; a throw means an entry with no image, whose left edge is not right of the point, comes before any hit |
| Layout.HoverTrailingMissing | HearthChess.js:372-384 | with a last entry that has no image, the scan throws exactly when the point is at or right of that entry's left edge, and otherwise scans the earlier entries |
| Layout.ScanHand | HearthChess.js:373-384 | the backwards loop computes the hover scan |
| Layout.InDropZone | HearthChess.js:310 | the drop region is the open rectangle `125 < x < 1200`, `500 < y < 680`; no point of it is on the hero power |
| Layout.RawSlot | HearthChess.js:317 | the raw position counts 65-pixel units from the board's left edge `720 - 65 * len` |
| Layout.OnHeroPower | HearthChess.js:281 | the hero power is the open disc of radius 73 around `(880, 824)`; it lies inside `807 < x < 953`, `751 < y < 897` |
| Layout.DropSlot | HearthChess.js:317-319 | the drop position is clamped into `[0, len]` and equals the raw position inside it |
| Layout.InsertIndex | HearthChess.js:317-320 | the board index is the floor of the clamped position and lies in `[0, len]` |
| Layout.InsertIndexMonotone | HearthChess.js:317-320 | dropping further right never inserts further left |
| Layout.DropOnMinion | HearthChess.js:317-320 | dropping on the centre of minion `i` inserts at `2 * i`, or at the end |
| Layout.MulliganHit | HearthChess.js:165-174 | the three card boxes are tested in order, then the confirm button: the first test that hits decides (box `i` toggles `i`, the button confirms), the first test that throws before any hit makes the click throw, and four misses hit nothing; conversely a throw names such a test. An entry with no image throws only for a point not left of its box |
| Timeline.ParseState | HearthChess.js:489-535 | a recognised name is exactly the name of the screen it names; `Loading` is never entered by name |
| Timeline.AnimPhase | HearthChess.js:201-255 | the animation is finished exactly from 4000 ms on; before that each phase covers its own second, and a negative offset shows the first phase |
| Timeline.ParseStateNames | HearthChess.js:489-535 | exactly the four state names are understood, one per screen |
| Timeline.AnimPhaseBySeconds | HearthChess.js:201-255 | the phase is the number of whole seconds elapsed; four or more seconds end the animation |
| Timeline.AnimPhaseMonotone | HearthChess.js:201-255 | the phase never goes back as time moves on |
| Game.MulliganCards | HearthChess.js:165-171 | a found image belongs to a registered card name in that slot of the hand, so three found images mean three non-null cards; every registered name in the first three slots has its image |
| Game.HearthChess.constructor | HearthChess.js:540-543 | `init`'s hands on the globals' initial values (empty board, white 1 of 0 mana, black 0 of 0, no marks, no detail card): white 3 cards with 12 remaining, black 4 cards plus the coin with 11 remaining, each side's cards being its starting deck |
| Game.HearthChess.EnterMulligan | HearthChess.js:490-494 | installs the click handler and changes no card or mana |
| Game.HearthChess.EnterMulliganAnim | HearthChess.js:494-499 | removes the click handler and starts the animation clock |
| Game.HearthChess.RefillW | HearthChess.js:506-509 | white's maximum grows by one up to ten and the pool is refilled |
| Game.HearthChess.RefillB | HearthChess.js:524-527 | black's maximum grows by one up to ten and the pool is refilled |
| Game.HearthChess.DrawW | HearthChess.js:512 | the drawn card is appended to white's hand; hand plus deck is kept, plus a `null` from an empty deck |
| Game.HearthChess.DrawB | HearthChess.js:530 | the drawn card is appended to black's hand |
| Game.HearthChess.EnterTurnW | HearthChess.js:500-517 | white's upkeep: handlers installed, `1 <= mana == max <= 10`, one card drawn and appended, a draw animation on its index |
| Game.HearthChess.EnterTurnB | HearthChess.js:518-532 | black's upkeep up to the ReferenceError: handlers removed, `1 <= mana == max <= 10`, one card drawn and appended, the clock restarted, the screen unchanged |
| Game.HearthChess.SetState | HearthChess.js:489-537 | `"mulligan"`, `"mulligan_anim"` and `"turn_w"` enter their screens; `"turn_b"` does black's upkeep and throws, leaving the screen; each leaves the other side's cards and mana alone; any other name changes nothing |
| Game.HearthChess.ReplaceMarked | HearthChess.js:176-189 | saves the hand, keeps the sizes of hand and deck and the multiset of hand plus deck, keeps unmarked slots, draws no `null` |
| Game.HearthChess.ClickMulligan | HearthChess.js:161-193 | a card box flips exactly that mark; confirm replaces the marked cards and starts the animation; a miss or a throw changes nothing (with the short-circuit test of `Layout.MulliganHit`) |
| Game.HearthChess.DrawMulliganAnim | HearthChess.js:196-205 | the frame's phase is given by the time elapsed; after four seconds white's upkeep runs, before that nothing changes |
| Game.HearthChess.StartArrow | HearthChess.js:271-279 | the mouse is pressed and the arrow runs from the given start to the given tip |
| Game.HearthChess.MousedownMain | HearthChess.js:260-299 | the drag guard starts a hand arrow at the detail card's centre; otherwise a press on the hero power starts a power arrow; otherwise the mouse is released; a throwing guard changes nothing |
| Game.HearthChess.StartAnimation | HearthChess.js:323-325 | the clock, kind and parameter of the animation are set |
| Game.HearthChess.PlayFromHand | HearthChess.js:314-320 | the cost is paid with mana to spare; the card leaves the hand; its index enters the board at the floor of the clamped position; the board stays at most 7 |
| Game.HearthChess.MouseupMain | HearthChess.js:302-336 | a hand drag dropped in the board region plays the card and starts a summon animation at the clamped position; any other release only releases the mouse |
| Game.HearthChess.ShowDetail | HearthChess.js:376-379 | the detail card and its position are set |
| Game.HearthChess.MousemoveMain | HearthChess.js:338-392 | during a drag the tip follows the pointer; on the detail card nothing changes; otherwise the hover scan's card becomes the detail card at `(400 + spacing * i, 710)`, no hit clears it, and a throw changes nothing |

## Left out

- Canvas drawing is not modelled. This covers `drawMulligan`, the rendering in `drawMulliganAnim` and `drawMain`, `drawText`, alpha and interpolation values, and the arrow's `atan2`/`sqrt` transform. These are presentation and floating point.
- `drawMain` resets `animTimer` to 0 once half a second has passed. That write belongs to rendering and is not modelled.
- The window resize handler and `scalefactor` are not modelled. The handlers take coordinates that are already unscaled.
- The `resources` preloader and its load counting are not modelled. Image sizes are a fixed map, `images`, and `setState("mulligan")` is called directly.
- `requestAnimationFrame` and the handler assignments are not modelled. Flags record which handler set is active: `clickHandler` and `turnHandlers`, plus the `screen` tag for `drawfunc`.
- `drawBlackTurn` is never defined, so black's turn has no screen to draw; the model records only the ReferenceError that reading the name raises. The `"power"` and `"minion"` branches of `mouseupMain` are empty in the source, so nothing is modelled for them.
- `health_b`, `health_w` and `board_b` are only drawn, never changed, so they are left out.
- `Math.random` becomes a nondeterministic choice of index. `Date.now()` becomes the parameter `now`. The `alert` for an unknown state becomes the result `known == false`.
- Cards.DrawCard: returns the spliced deck as `rest`, and each caller stores it back into the same field. It does not splice in place, so aliasing of the deck array is not modelled.
- Cards.MulliganSwap: runs the two confirm loops on copies of `hand_w` and `deck_w`, and `Game.HearthChess.ReplaceMarked` stores the results back.
- Game.HearthChess.ClickMulligan: requires `!mouseIsDown`. The mulligan screen runs before any turn handler is installed, so no drag can be under way. `Valid()` ties a drag to `hand_w[cardDetailID]`, which the confirm may replace. It also requires the first three hand entries to exist and to be cards. `init` deals three cards from a full deck and nothing touches the hand before the mulligan, so this holds whenever the mulligan screen is reached from the start. Without it, a click on the confirm button left of the third box, whose hand entry is missing, would confirm past an `undefined` image, and the model's replacement would push that entry onto the deck.
- Cards.ManaCost: covers only the five own properties of `manaCost`. Inherited keys such as `constructor` are not modelled; no starting card names one.
- Event coordinates, the drop position and the box edges are JavaScript doubles; the model computes them as exact reals, so rounding at box edges and at slot boundaries is not modelled.
- Game.HearthChess.SetState: the turn branches update the mana before setting the handler flags. No other code runs in between, so the final state is the same as in the source's order.
