/** Hit-testing in canvas coordinates (a 1440 by 1080 surface): images,
    the hand row, the board drop zone, the hero power and the mulligan
    screen's buttons. */
module Layout {
  import opened Values

  /** `checkBounds`: is the point inside the image placed with its top-left
      corner at `(iX, iY)`, edges included? A `null` image is never hit. The
      four comparisons are evaluated left to right with short-circuiting, so
      `undefined` gives `false` when the point is left of the image, before
      its width is read, and throws otherwise. */
  function CheckBounds(mX: real, mY: real, iX: real, iY: real, img: ImageRef): (r: Checked<bool>)
    ensures r.TypeError? <==> img.Undefined? && iX <= mX
    ensures r == Ok(true) <==>
      img.Image? && iX <= mX <= iX + img.size.width && iY <= mY <= iY + img.size.height
  {
    match img
    case NullRef => Ok(false)
    case Undefined => if mX >= iX then TypeError else Ok(false)
    case Image(size) => Ok(mX >= iX && mX <= iX + size.width && mY >= iY && mY <= iY + size.height)
  }

  /** Hit-testing depends only on where the point is relative to the image:
      moving both by the same offset changes nothing. */
  lemma CheckBoundsTranslate(mX: real, mY: real, iX: real, iY: real, dx: real, dy: real, img: ImageRef)
    ensures CheckBounds(mX + dx, mY + dy, iX + dx, iY + dy, img) == CheckBounds(mX, mY, iX, iY, img)
  {
  }

  /** The rectangle is closed: all four corners of a loaded image hit. */
  lemma CheckBoundsCorners(iX: real, iY: real, size: Size)
    requires size.width >= 0.0 && size.height >= 0.0
    ensures CheckBounds(iX, iY, iX, iY, Image(size)) == Ok(true)
    ensures CheckBounds(iX + size.width, iY, iX, iY, Image(size)) == Ok(true)
    ensures CheckBounds(iX, iY + size.height, iX, iY, Image(size)) == Ok(true)
    ensures CheckBounds(iX + size.width, iY + size.height, iX, iY, Image(size)) == Ok(true)
  {
  }

  /** `Math.floor(500 / (n + 1))`: the horizontal step between the `n`
      cards of the white hand, the largest step that fits `n + 1` times
      into 500 pixels. */
  function Spacing(n: nat): (s: nat)
    ensures s * (n + 1) <= 500 < (s + 1) * (n + 1)
  {
    500 / (n + 1)
  }

  /** The left edge of hand card `i`: `400 + spacing * i`. */
  function HandCardX(spacing: int, i: int): real
  {
    (400 + spacing * i) as real
  }

  /** The hover test of hand card `i`, whose box sits at `y = 930`. */
  function HandBoxHit(x: real, y: real, spacing: int, img: ImageRef, i: int): Checked<bool>
  {
    CheckBounds(x, y, HandCardX(spacing, i), 930.0, img)
  }

  /** The hover scan: the hand is tested from the last card to the first,
      because later cards are drawn over earlier ones. The result is the
      index of the first card found, `None` if no box contains the point,
      or a TypeError if an entry with no image is reached first. */
  function HoverScan(x: real, y: real, spacing: int, imgs: seq<ImageRef>): (r: Checked<Option<nat>>)
    ensures r.Ok? && r.value.Some? ==>
      r.value.value < |imgs| &&
      HandBoxHit(x, y, spacing, imgs[r.value.value], r.value.value) == Ok(true) &&
      forall j :: r.value.value < j < |imgs| ==> HandBoxHit(x, y, spacing, imgs[j], j) == Ok(false)
    ensures r == Ok(None) ==>
      forall j :: 0 <= j < |imgs| ==> HandBoxHit(x, y, spacing, imgs[j], j) == Ok(false)
    ensures r.TypeError? ==>
      exists j :: 0 <= j < |imgs| && imgs[j].Undefined? && HandCardX(spacing, j) <= x &&
        forall k :: j < k < |imgs| ==> HandBoxHit(x, y, spacing, imgs[k], k) == Ok(false)
    decreases |imgs|
  {
    if imgs == [] then Ok(None)
    else
      var last := |imgs| - 1;
      match HandBoxHit(x, y, spacing, imgs[last], last)
      case TypeError =>
        assert imgs[last].Undefined? && HandCardX(spacing, last) <= x;
        TypeError
      case Ok(hit) =>
        if hit then Ok(Some(last))
        else
          var r := HoverScan(x, y, spacing, imgs[..last]);
          assert forall j :: 0 <= j < last ==> imgs[..last][j] == imgs[j];
          r
  }

  /** The hover loop `for (i = len - 1; i >= 0; i--)` over the images of
      the hand, stopping at the first hit or at the first test that throws:
      it computes `HoverScan`. */
  method ScanHand(x: real, y: real, spacing: int, imgs: seq<ImageRef>) returns (r: Checked<Option<nat>>)
    ensures r == HoverScan(x, y, spacing, imgs)
  {
    var i: int := |imgs| - 1;
    assert imgs[..i + 1] == imgs;
    while i >= 0
      invariant -1 <= i < |imgs|
      invariant HoverScan(x, y, spacing, imgs) == HoverScan(x, y, spacing, imgs[..i + 1])
    {
      assert imgs[..i + 1][i] == imgs[i] && imgs[..i + 1][..i] == imgs[..i];
      match HandBoxHit(x, y, spacing, imgs[i], i)
      case TypeError =>
        return TypeError;
      case Ok(hit) =>
        if hit {
          return Ok(Some(i));
        }
      i := i - 1;
    }
    r := Ok(None);
  }

  /** A hand whose last entry has no image (a card drawn from an empty
      deck): the hover throws exactly when the point is at or right of that
      entry's left edge; further left the entry is skipped and the earlier
      cards are scanned as usual. */
  lemma HoverTrailingMissing(x: real, y: real, spacing: int, imgs: seq<ImageRef>)
    requires imgs != [] && imgs[|imgs| - 1].Undefined?
    ensures HandCardX(spacing, |imgs| - 1) <= x ==> HoverScan(x, y, spacing, imgs) == TypeError
    ensures x < HandCardX(spacing, |imgs| - 1) ==>
      HoverScan(x, y, spacing, imgs) == HoverScan(x, y, spacing, imgs[..|imgs| - 1])
  {
  }

  /** Dropping a card played from the hand counts only inside the open
      board region. */
  predicate InDropZone(x: real, y: real)
    ensures InDropZone(x, y) ==> !OnHeroPower(x, y)
  {
    125.0 < x < 1200.0 && 500.0 < y < 680.0
  }

  /** The unclamped drop position `(x - (720 - len * 65)) / 65`. */
  function RawSlot(x: real, len: nat): (r: real)
    ensures x == (720 - len * 65) as real + 65.0 * r
  {
    (x - (720 - len * 65) as real) / 65.0
  }

  /** The drop position after clamping into `[0, len]`; it may be fractional. */
  function DropSlot(x: real, len: nat): (r: real)
    ensures 0.0 <= r <= len as real
    ensures 0.0 <= RawSlot(x, len) <= len as real ==> r == RawSlot(x, len)
    ensures RawSlot(x, len) < 0.0 ==> r == 0.0
    ensures RawSlot(x, len) > len as real ==> r == len as real
  {
    var slot := RawSlot(x, len);
    var slot := if slot < 0.0 then 0.0 else slot;
    if slot > len as real then len as real else slot
  }

  /** The board index `splice` uses: it truncates its start argument toward
      zero, which for the non-negative clamped position is the floor. */
  function InsertIndex(x: real, len: nat): (k: nat)
    ensures k <= len
    ensures k as real <= DropSlot(x, len) < k as real + 1.0
  {
    DropSlot(x, len).Floor
  }

  /** Dropping further right never puts the card further left. */
  lemma InsertIndexMonotone(x1: real, x2: real, len: nat)
    requires x1 <= x2
    ensures InsertIndex(x1, len) <= InsertIndex(x2, len)
  {
    assert RawSlot(x1, len) <= RawSlot(x2, len);
  }

  /** The centre of board minion `i` of `len`: board minions are drawn
      130 pixels apart from `720 - len * 65` and are 120 pixels wide. */
  function MinionCenterX(len: nat, i: nat): real
  {
    (720 - len * 65 + 130 * i + 60) as real
  }

  /** The drop position is measured in 65-pixel units while the minions are
      130 pixels apart: dropping on the centre of minion `i` inserts at
      index `2 * i`, or at the end once that passes the board's length. */
  lemma DropOnMinion(len: nat, i: nat)
    requires i < len
    ensures InsertIndex(MinionCenterX(len, i), len) == if 2 * i < len then 2 * i else len
  {
    var raw := RawSlot(MinionCenterX(len, i), len);
    assert raw == (130 * i + 60) as real / 65.0;
    assert raw == (2 * i) as real + 60.0 / 65.0;
  }

  /** The hero power is a disc of radius 73 around `(880, 824)`; its edge
      does not count. */
  predicate OnHeroPower(x: real, y: real)
    ensures OnHeroPower(x, y) ==> 807.0 < x < 953.0 && 751.0 < y < 897.0
  {
    (x - 880.0) * (x - 880.0) + (y - 824.0) * (y - 824.0) < 5329.0
  }

  /** What a click on the mulligan screen hits, in the order `clickMulligan`
      tests: the three cards' toggle boxes, then the confirm button. */
  datatype MulliganTarget = Toggle(slot: nat) | Confirm | Nothing | Threw

  /** Test `k` of the mulligan screen's chain: card box `k` at
      `(260 + 340 * k, 400)` for `k < 3`, the confirm button at `(600, 800)`
      for `k == 3`. */
  function MulliganTest(x: real, y: real, cards: seq<ImageRef>, confirm: ImageRef, k: nat): Checked<bool>
    requires |cards| == 3 && k <= 3
  {
    if k < 3 then CheckBounds(x, y, 260.0 + 340.0 * k as real, 400.0, cards[k])
    else CheckBounds(x, y, 600.0, 800.0, confirm)
  }

  /** The mulligan screen's hit tests. `cards` holds the images of the
      first three hand entries, `confirm` the confirm button's. A test that
      throws ends the chain. */
  function MulliganHit(x: real, y: real, cards: seq<ImageRef>, confirm: ImageRef): (r: MulliganTarget)
    requires |cards| == 3
    ensures r.Toggle? ==> r.slot < 3 && CheckBounds(x, y, 260.0 + 340.0 * r.slot as real, 400.0, cards[r.slot]) == Ok(true)
    ensures r.Toggle? || r.Confirm? || r.Nothing? ==>
      forall j :: 0 <= j < 3 && (r.Toggle? ==> j < r.slot) ==>
        CheckBounds(x, y, 260.0 + 340.0 * j as real, 400.0, cards[j]) == Ok(false)
    ensures r.Confirm? <==>
      (forall j :: 0 <= j < 3 ==> CheckBounds(x, y, 260.0 + 340.0 * j as real, 400.0, cards[j]) == Ok(false)) &&
      CheckBounds(x, y, 600.0, 800.0, confirm) == Ok(true)
    ensures forall k :: 0 <= k <= 3 && (forall j :: 0 <= j < k ==> MulliganTest(x, y, cards, confirm, j) == Ok(false)) ==>
      (MulliganTest(x, y, cards, confirm, k) == TypeError ==> r == Threw) &&
      (MulliganTest(x, y, cards, confirm, k) == Ok(true) ==> r == if k < 3 then Toggle(k) else Confirm)
    ensures (forall j :: 0 <= j <= 3 ==> MulliganTest(x, y, cards, confirm, j) == Ok(false)) ==> r == Nothing
    ensures r.Threw? ==>
      exists k :: 0 <= k <= 3 && MulliganTest(x, y, cards, confirm, k) == TypeError &&
        forall j :: 0 <= j < k ==> MulliganTest(x, y, cards, confirm, j) == Ok(false)
  {
    match MulliganTest(x, y, cards, confirm, 0)
    case TypeError => Threw
    case Ok(true) => Toggle(0)
    case Ok(false) =>
      match MulliganTest(x, y, cards, confirm, 1)
      case TypeError => Threw
      case Ok(true) => Toggle(1)
      case Ok(false) =>
        match MulliganTest(x, y, cards, confirm, 2)
        case TypeError => Threw
        case Ok(true) => Toggle(2)
        case Ok(false) =>
          match MulliganTest(x, y, cards, confirm, 3)
          case TypeError => Threw
          case Ok(true) => Confirm
          case Ok(false) => Nothing
  }
}
