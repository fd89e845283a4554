/**
 * The NPC trade dialog: where its bottom edge is, found from its top bar and
 * its OK button, and the fixed click, key and text sequences that search an
 * item, set the amount, confirm the purchase and clear the search box.
 */
module RefillCore {
  import opened Wrappers
  import opened Perception
  import opened InputActuator
  import Decimal

  /** The templates visual search looks for. */
  datatype Template = NpcTradeBar | NpcTradeOk | ItemImage(name: string)

  /**
   * The image collaborators: `locate(image, template)` gives the box where
   * the template is found or `None`; `crop(image, x, y, width, height)`
   * gives that part of the image.
   */
  datatype Vision = Vision(
    locate: (Image, Template) -> Option<BBox>,
    crop: (Image, int, int, int, int) -> Image)

  /** Width of the trade dialog, in pixels. */
  const TradeDialogWidth := 174
  /** Height of the box reported for the dialog's bottom edge. */
  const TradeBottomHeight := 2
  /** Rows from the top of the OK button to the dialog's bottom edge. */
  const OkButtonToBottom := 26

  /** The dialog's top bar: where the trade-bar template is found on the screenshot, if anywhere. */
  function TradeTopPosition(v: Vision, s: Image): (top: Option<BBox>)
    ensures top == v.locate(s, NpcTradeBar)
  {
    v.locate(s, NpcTradeBar)
  }

  /**
   * The region searched for the OK button: from the bar's top-left corner,
   * one dialog wide, down to the last row of the screenshot.
   */
  function OkSearchRegion(s: Image, top: BBox): (region: BBox)
    ensures region.x == top.x && region.y == top.y
    ensures region.width == TradeDialogWidth
    ensures region.y + region.height == |s|
  {
    BBox(top.x, top.y, TradeDialogWidth, |s| - top.y)
  }

  /** The OK button, in the coordinates of the cropped region. */
  function OkButtonPosition(v: Vision, s: Image, top: BBox): Option<BBox> {
    var region := OkSearchRegion(s, top);
    v.locate(v.crop(s, region.x, region.y, region.width, region.height), NpcTradeOk)
  }

  /** Whenever the top bar is found, the OK button is found below it (the bottom edge is computed without a check). */
  predicate OkButtonShownWithBar(v: Vision, s: Image) {
    TradeTopPosition(v, s).Some? ==> OkButtonPosition(v, s, TradeTopPosition(v, s).value).Some?
  }

  /**
   * The dialog's bottom edge: "not found" exactly when the top bar is not
   * found (and then the OK button is not searched for); otherwise a strip one
   * dialog wide and two rows high, in the bar's column, 26 rows below the top
   * of the OK button.
   */
  function TradeBottomPos(v: Vision, s: Image): (bottom: Option<BBox>)
    requires OkButtonShownWithBar(v, s)
    ensures bottom.None? <==> TradeTopPosition(v, s).None?
    ensures bottom.Some? ==>
      var top := TradeTopPosition(v, s).value;
      && bottom.value.x == top.x
      && bottom.value.y == top.y + OkButtonPosition(v, s, top).value.y + OkButtonToBottom
      && bottom.value.width == TradeDialogWidth
      && bottom.value.height == TradeBottomHeight
  {
    match TradeTopPosition(v, s)
    case None => None
    case Some(top) =>
      var ok := OkButtonPosition(v, s, top).value;
      Some(BBox(top.x, top.y + ok.y + OkButtonToBottom, TradeDialogWidth, TradeBottomHeight))
  }

  /**
   * Visual search reports boxes that lie within the rows of the image it
   * searched, and a crop inside the image has the rows it was asked for.
   */
  ghost predicate RowsRespected(v: Vision) {
    && (forall img, t :: v.locate(img, t).Some? ==>
          0 <= v.locate(img, t).value.y
          && 0 <= v.locate(img, t).value.height
          && v.locate(img, t).value.y + v.locate(img, t).value.height <= |img|)
    && (forall img, x, y, w, h :: 0 <= y && 0 <= h && y + h <= |img| ==> |v.crop(img, x, y, w, h)| == h)
  }

  /**
   * With row-respecting collaborators, the OK button the bottom edge is
   * measured from lies between the top bar and the last row of the
   * screenshot, so the bottom edge is at least 26 rows below the bar.
   */
  lemma TradeBottomBelowBar(v: Vision, s: Image)
    requires RowsRespected(v)
    requires OkButtonShownWithBar(v, s)
    requires TradeBottomPos(v, s).Some?
    ensures var top := TradeTopPosition(v, s).value;
      var ok := OkButtonPosition(v, s, top).value;
      var okTop := TradeBottomPos(v, s).value.y - OkButtonToBottom;
      top.y <= okTop && okTop + ok.height <= |s|
  {
  }

  /** The dialog is open on the screenshot: its bottom edge can be computed and is found. */
  predicate TradeDialogOpen(v: Vision, s: Image) {
    OkButtonShownWithBar(v, s) && TradeBottomPos(v, s).Some?
  }

  /** Where the found item is clicked: 10 pixels right of and below its top-left corner. */
  function ItemClickPoint(item: BBox): Point {
    Point(item.x + 10, item.y + 10)
  }

  /** Clicks the search box's two spots, types the name, then clicks the item found after typing. */
  function FindItemEvents(bottom: BBox, itemName: string, item: BBox): seq<Event> {
    [ LeftClick(Point(bottom.x + 160, bottom.y - 75)),
      LeftClick(Point(bottom.x + 16, bottom.y - 75)),
      Write(itemName),
      LeftClick(ItemClickPoint(item)) ]
  }

  /** Clicks the amount field, selects all, erases it and types the amount in decimal. */
  function SetAmountEvents(bottom: BBox, amount: int): seq<Event> {
    [ LeftClick(Point(bottom.x + 115, bottom.y - 42)),
      Hotkey("ctrl", "a"),
      Press("backspace"),
      Write(Decimal.IntToString(amount)) ]
  }

  /** Clicks the buy button. */
  function ConfirmBuyItemEvents(bottom: BBox): seq<Event> {
    [LeftClick(Point(bottom.x + 150, bottom.y - 18))]
  }

  /** Moves to the search box's clear spot, clicks it, then moves 20 rows down off it. */
  function ClearSearchBoxEvents(bottom: BBox): seq<Event> {
    var x := bottom.x + 115 + 45;
    var y := bottom.y - 42 - 35;
    [MoveTo(Point(x, y)), LeftClick(Point(x, y)), MoveTo(Point(x, y + 20))]
  }

  /** The whole purchase: the four steps in order. */
  function BuyItemEvents(bottom: BBox, itemName: string, item: BBox, amount: int): seq<Event> {
    FindItemEvents(bottom, itemName, item)
    + SetAmountEvents(bottom, amount)
    + ConfirmBuyItemEvents(bottom)
    + ClearSearchBoxEvents(bottom)
  }

  /**
   * Searches the item by name in the open dialog; `after` is the screenshot
   * taken once the name has been typed, on which the item is located.
   */
  method FindItem(io: Actuator, v: Vision, s: Image, itemName: string, after: Image)
    requires TradeDialogOpen(v, s)
    requires v.locate(after, ItemImage(itemName)).Some?
    modifies io
    ensures io.trace == old(io.trace)
      + FindItemEvents(TradeBottomPos(v, s).value, itemName, v.locate(after, ItemImage(itemName)).value)
  {
    var bottom := TradeBottomPos(v, s).value;
    io.LeftClick(Point(bottom.x + 160, bottom.y - 75));
    io.LeftClick(Point(bottom.x + 16, bottom.y - 75));
    io.Write(itemName);
    var item := v.locate(after, ItemImage(itemName)).value;
    io.LeftClick(ItemClickPoint(item));
  }

  method SetAmount(io: Actuator, v: Vision, s: Image, amount: int)
    requires TradeDialogOpen(v, s)
    modifies io
    ensures io.trace == old(io.trace) + SetAmountEvents(TradeBottomPos(v, s).value, amount)
  {
    var bottom := TradeBottomPos(v, s).value;
    io.LeftClick(Point(bottom.x + 115, bottom.y - 42));
    io.Hotkey("ctrl", "a");
    io.Press("backspace");
    io.Write(Decimal.IntToString(amount));
  }

  method ConfirmBuyItem(io: Actuator, v: Vision, s: Image)
    requires TradeDialogOpen(v, s)
    modifies io
    ensures io.trace == old(io.trace) + ConfirmBuyItemEvents(TradeBottomPos(v, s).value)
  {
    var bottom := TradeBottomPos(v, s).value;
    io.LeftClick(Point(bottom.x + 150, bottom.y - 18));
  }

  method ClearSearchBox(io: Actuator, v: Vision, s: Image)
    requires TradeDialogOpen(v, s)
    modifies io
    ensures io.trace == old(io.trace) + ClearSearchBoxEvents(TradeBottomPos(v, s).value)
  {
    var bottom := TradeBottomPos(v, s).value;
    var x := bottom.x + 115 + 45;
    var y := bottom.y - 42 - 35;
    io.MoveTo(Point(x, y));
    io.LeftClick(Point(x, y));
    io.MoveTo(Point(x, y + 20));
  }

  /** Runs the four steps in order against the same screenshot. */
  method BuyItem(io: Actuator, v: Vision, s: Image, itemName: string, after: Image, itemQuantity: int)
    requires TradeDialogOpen(v, s)
    requires v.locate(after, ItemImage(itemName)).Some?
    modifies io
    ensures io.trace == old(io.trace)
      + BuyItemEvents(TradeBottomPos(v, s).value, itemName, v.locate(after, ItemImage(itemName)).value, itemQuantity)
  {
    FindItem(io, v, s, itemName, after);
    SetAmount(io, v, s, itemQuantity);
    ConfirmBuyItem(io, v, s);
    ClearSearchBox(io, v, s);
  }

  /** The two texts typed during a purchase are the item's name, then the amount in a form that reads back as that amount. */
  lemma BuyItemWritesNameThenAmount(bottom: BBox, itemName: string, item: BBox, amount: int)
    ensures var writes := CallsTo(BuyItemEvents(bottom, itemName, item, amount), WriteFn);
      && writes == [Write(itemName), Write(Decimal.IntToString(amount))]
      && Decimal.DecimalValue(writes[1].text) == Some(amount)
  {
    var text := Decimal.IntToString(amount);
    assert CallsTo(BuyItemEvents(bottom, itemName, item, amount), WriteFn) == [Write(itemName), Write(text)] by {
      BuyItemSpied(bottom, itemName, item, amount, WriteFn);
    }
    Decimal.IntToStringValue(amount);
  }

  /**
   * The only keys used during a purchase are one ctrl+a chord and one
   * backspace; no key is held down, so none is left held.
   */
  lemma BuyItemKeyboard(bottom: BBox, itemName: string, item: BBox, amount: int)
    ensures var e := BuyItemEvents(bottom, itemName, item, amount);
      && CallsTo(e, HotkeyFn) == [Hotkey("ctrl", "a")]
      && CallsTo(e, PressFn) == [Press("backspace")]
      && CallsTo(e, KeyDownFn) == []
      && CallsTo(e, KeyUpFn) == []
  {
    var e := BuyItemEvents(bottom, itemName, item, amount);
    assert CallsTo(e, HotkeyFn) == [Hotkey("ctrl", "a")] by {
      BuyItemSpied(bottom, itemName, item, amount, HotkeyFn);
    }
    assert CallsTo(e, PressFn) == [Press("backspace")] by {
      BuyItemSpied(bottom, itemName, item, amount, PressFn);
    }
    assert CallsTo(e, KeyDownFn) == [] by {
      BuyItemSpied(bottom, itemName, item, amount, KeyDownFn);
    }
    assert CallsTo(e, KeyUpFn) == [] by {
      BuyItemSpied(bottom, itemName, item, amount, KeyUpFn);
    }
  }

  /** A spy on a purchase sees the calls of each of its events one after another. */
  lemma BuyItemSpied(bottom: BBox, itemName: string, item: BBox, amount: int, p: Primitive)
    ensures var f, a, c, k := FindItemEvents(bottom, itemName, item), SetAmountEvents(bottom, amount),
        ConfirmBuyItemEvents(bottom), ClearSearchBoxEvents(bottom);
      CallsTo(BuyItemEvents(bottom, itemName, item, amount), p)
      == (CallOf(f[0], p) + (CallOf(f[1], p) + (CallOf(f[2], p) + CallOf(f[3], p))))
      + (CallOf(a[0], p) + (CallOf(a[1], p) + (CallOf(a[2], p) + CallOf(a[3], p))))
      + CallOf(c[0], p)
      + (CallOf(k[0], p) + (CallOf(k[1], p) + CallOf(k[2], p)))
  {
    var f, a, c, k := FindItemEvents(bottom, itemName, item), SetAmountEvents(bottom, amount),
      ConfirmBuyItemEvents(bottom), ClearSearchBoxEvents(bottom);
    CallsToAppend(f + a + c, k, p);
    CallsToAppend(f + a, c, p);
    CallsToAppend(f, a, p);
    CallsToFour(f[0], f[1], f[2], f[3], p);
    CallsToFour(a[0], a[1], a[2], a[3], p);
    CallsToCons(c[0], [], p);
    assert [c[0]] + [] == c;
    CallsToThree(k[0], k[1], k[2], p);
  }

  /**
   * Every point the pointer visits during a purchase, except the click on the
   * found item, lies in the dialog's columns and between 77 and 18 rows above
   * its bottom edge.
   */
  lemma BuyItemPointerStaysInDialog(bottom: BBox, itemName: string, item: BBox, amount: int)
    ensures forall q :: q in PointerTargets(BuyItemEvents(bottom, itemName, item, amount)) && q != ItemClickPoint(item) ==>
      && bottom.x <= q.x < bottom.x + TradeDialogWidth
      && bottom.y - 77 <= q.y <= bottom.y - 18
  {
    var e := BuyItemEvents(bottom, itemName, item, amount);
    forall q | q in PointerTargets(e) && q != ItemClickPoint(item)
      ensures bottom.x <= q.x < bottom.x + TradeDialogWidth && bottom.y - 77 <= q.y <= bottom.y - 18
    {
      assert LeftClick(q) in e || MoveTo(q) in e;
    }
  }
}
