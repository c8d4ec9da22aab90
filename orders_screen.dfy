/**
 * The order action-visibility policy of the restaurant owner's orders screen:
 * which icon each order card shows, and whether its "Previous" (revert) and
 * "Next" (advance) buttons are shown.
 *
 * The helpers compare the raw status string sent by the server, exactly as the
 * screen does; their contracts are stated through the Status classification
 * computed by ParseStatus. Timestamps are milliseconds since the epoch; a
 * timestamp that is missing or that Date.parse cannot read (NaN) is None. The
 * current time is a parameter.
 */
module OrdersScreen {
  import opened Wrappers

  /** Milliseconds in one minute: the divisor the window test uses. */
  const MillisPerMinute: int := 60000
  /** Width of the revert window, in minutes, on either side of the reference. */
  const WindowMinutes: int := 5
  /** The same window in milliseconds. */
  const WindowMillis: int := 300000

  /** The status literals the screen compares against. */
  const PendingText: string := "pending"
  const InProcessText: string := "in process"
  const SentText: string := "sent"
  const DeliveredText: string := "delivered"

  // ---------------------------------------------------------------------------
  // Statuses
  // ---------------------------------------------------------------------------

  /** The statuses the screen recognises, and every other string. */
  datatype Status = Pending | InProcess | Sent | Delivered | Other(text: string)

  predicate IsKnownText(s: string) {
    s == PendingText || s == InProcessText || s == SentText || s == DeliveredText
  }

  /** A status value with exactly one spelling: Other never holds a known literal. */
  predicate WellFormed(st: Status) {
    st.Other? ==> !IsKnownText(st.text)
  }

  /** The string the server sends for a status. */
  function StatusText(st: Status): string {
    match st
    case Pending => PendingText
    case InProcess => InProcessText
    case Sent => SentText
    case Delivered => DeliveredText
    case Other(s) => s
  }

  /** Classifies a raw status string; every string outside the four literals is Other. */
  function ParseStatus(s: string): (st: Status)
    ensures WellFormed(st)
    ensures StatusText(st) == s
    ensures st.Other? <==> !IsKnownText(s)
  {
    if s == PendingText then Pending
    else if s == InProcessText then InProcess
    else if s == SentText then Sent
    else if s == DeliveredText then Delivered
    else Other(s)
  }

  /** Reading back the text of a well-formed status gives the status again. */
  lemma ParseStatusText(st: Status)
    requires WellFormed(st)
    ensures ParseStatus(StatusText(st)) == st
  {
  }

  // ---------------------------------------------------------------------------
  // Orders and the timestamp of the current status
  // ---------------------------------------------------------------------------

  /** The fields of an order the policy reads (the card's display text is left out). */
  datatype Order = Order(
    id: int,
    status: string,
    startedAt: Option<int>,
    sentAt: Option<int>,
    deliveredAt: Option<int>)

  /**
   * The timestamp of the order's current status: when it was started, sent or
   * delivered; null for "pending" and for any string the screen does not know.
   */
  function CurrentStatusDate(item: Order): (r: Option<int>)
    ensures ParseStatus(item.status) == InProcess ==> r == item.startedAt
    ensures ParseStatus(item.status) == Sent ==> r == item.sentAt
    ensures ParseStatus(item.status) == Delivered ==> r == item.deliveredAt
    ensures ParseStatus(item.status) == Pending || ParseStatus(item.status).Other? ==> r == None
  {
    if item.status == InProcessText then item.startedAt
    else if item.status == SentText then item.sentAt
    else if item.status == DeliveredText then item.deliveredAt
    else None
  }

  // ---------------------------------------------------------------------------
  // The revert window and the two buttons
  // ---------------------------------------------------------------------------

  function Abs(x: int): (r: nat)
    ensures r == x || r == -x
  {
    if x < 0 then -x else x
  }

  /**
   * The window test as the screen writes it: the absolute difference in
   * milliseconds, divided by 60000, is at most 5 minutes. The division is exact
   * here; it agrees with the integer bound of WindowMillis on both sides.
   */
  function WithinFiveMinutes(now: int, reference: int): (b: bool)
    ensures b <==> -WindowMillis <= now - reference <= WindowMillis
  {
    (Abs(now - reference) as real) / (MillisPerMinute as real) <= WindowMinutes as real
  }

  /**
   * Whether the "Previous" button is shown: never for "pending"; otherwise only
   * when the reference can be read and lies within five minutes of now, before
   * or after it.
   */
  function ShowPrevious(status: string, reference: Option<int>, now: int): (b: bool)
    ensures b <==> ParseStatus(status) != Pending && reference.Some?
                   && Abs(now - reference.value) <= WindowMillis
  {
    if status == PendingText then false
    else
      match reference
      case None => false
      case Some(t) => WithinFiveMinutes(now, t)
  }

  /** Whether the "Next" button is shown: for every status except "delivered". */
  function ShowNext(status: string): (b: bool)
    ensures b <==> ParseStatus(status) != Delivered
  {
    status != DeliveredText
  }

  // ---------------------------------------------------------------------------
  // The status icon
  // ---------------------------------------------------------------------------

  datatype Logo = TimerSand | ChefHat | Food | TruckDelivery

  /**
   * The card's icon: one per recognised status, with "sent" sharing the truck
   * icon with every unrecognised string.
   */
  function OrderLogo(status: string): (l: Logo)
    ensures l == TimerSand <==> ParseStatus(status) == Pending
    ensures l == ChefHat <==> ParseStatus(status) == InProcess
    ensures l == Food <==> ParseStatus(status) == Delivered
    ensures l == TruckDelivery <==> ParseStatus(status) == Sent || ParseStatus(status).Other?
  {
    if status == PendingText then TimerSand
    else if status == InProcessText then ChefHat
    else if status == DeliveredText then Food
    else TruckDelivery
  }

  // ---------------------------------------------------------------------------
  // One card per order, and the list of cards
  // ---------------------------------------------------------------------------

  /** What a rendered order card shows that the policy decides. */
  datatype Card = Card(key: int, logo: Logo, title: string, previous: bool, next: bool)

  /** The card drawn for one order at time now. */
  function RenderOrder(item: Order, now: int): (c: Card)
    ensures c.key == item.id && c.title == item.status
    ensures c.logo == OrderLogo(item.status)
    ensures c.next <==> ParseStatus(item.status) != Delivered
    ensures c.previous <==>
              ParseStatus(item.status) != Pending && CurrentStatusDate(item).Some?
              && Abs(now - CurrentStatusDate(item).value) <= WindowMillis
  {
    Card(item.id, OrderLogo(item.status), item.status,
         ShowPrevious(item.status, CurrentStatusDate(item), now),
         ShowNext(item.status))
  }

  /** The list draws one card per order, in the order of the fetched list. */
  function RenderList(orders: seq<Order>, now: int): (cards: seq<Card>)
    ensures |cards| == |orders|
    ensures forall i :: 0 <= i < |orders| ==> cards[i] == RenderOrder(orders[i], now)
  {
    if orders == [] then []
    else [RenderOrder(orders[0], now)] + RenderList(orders[1..], now)
  }

  /** The screen shows the empty-list message, or the cards. */
  datatype View = EmptyMessage | Cards(cards: seq<Card>)

  /**
   * The screen for the current list state: null (no logged-in user) and the
   * empty list both show the empty-list message. One time now is used for all
   * cards; the screen itself reads the clock each time a card is drawn.
   */
  function Screen(orders: Option<seq<Order>>, now: int): (v: View)
    ensures v.EmptyMessage? <==> orders.None? || orders.value == []
    ensures v.Cards? ==> |v.cards| == |orders.value|
    ensures v.Cards? ==> forall i :: 0 <= i < |v.cards| ==>
              v.cards[i] == RenderOrder(orders.value[i], now)
  {
    match orders
    case None => EmptyMessage
    case Some(list) => if list == [] then EmptyMessage else Cards(RenderList(list, now))
  }

  // ---------------------------------------------------------------------------
  // Properties of the policy
  // ---------------------------------------------------------------------------

  /** A pending order never shows "Previous", whatever the reference and the time. */
  lemma PendingHidesPrevious(reference: Option<int>, now: int)
    ensures !ShowPrevious(PendingText, reference, now)
  {
  }

  /** For any other status, "Previous" shows exactly within five minutes, bounds included. */
  lemma PreviousWindowBoundary(status: string, t: int)
    requires status != PendingText
    ensures ShowPrevious(status, Some(t), t + WindowMillis)
    ensures ShowPrevious(status, Some(t), t - WindowMillis)
    ensures !ShowPrevious(status, Some(t), t + WindowMillis + 1)
    ensures !ShowPrevious(status, Some(t), t - WindowMillis - 1)
  {
  }

  /** The window is symmetric: a reference d ms ahead counts like one d ms behind. */
  lemma PreviousSymmetric(status: string, t: int, d: int)
    ensures ShowPrevious(status, Some(t), t + d) == ShowPrevious(status, Some(t), t - d)
  {
  }

  /** The window is monotone: any time at least as close to the reference also shows it. */
  lemma PreviousMonotone(status: string, t: int, now: int, now': int)
    requires Abs(now' - t) <= Abs(now - t)
    requires ShowPrevious(status, Some(t), now)
    ensures ShowPrevious(status, Some(t), now')
  {
  }

  /** With no readable reference, "Previous" is hidden for every status. */
  lemma MissingReferenceHidesPrevious(status: string, now: int)
    ensures !ShowPrevious(status, None, now)
  {
  }

  /**
   * A status the screen does not recognise has no reference timestamp, so its card
   * hides "Previous" but shows "Next" and the truck icon.
   */
  lemma UnrecognisedStatusCard(item: Order, now: int)
    requires !IsKnownText(item.status)
    ensures CurrentStatusDate(item) == None
    ensures !RenderOrder(item, now).previous
    ensures RenderOrder(item, now).next
    ensures RenderOrder(item, now).logo == TruckDelivery
  {
  }

  /** The underscore spelling "in_process" is one such unrecognised status. */
  lemma UnderscoreInProcessCard(item: Order, now: int)
    requires item.status == "in_process"
    ensures !RenderOrder(item, now).previous && RenderOrder(item, now).next
    ensures RenderOrder(item, now).logo == TruckDelivery
  {
    UnrecognisedStatusCard(item, now);
  }

  /**
   * A delivered order never shows "Next", but shows "Previous" exactly while its
   * delivery time is within five minutes of now: delivered is not terminal for revert.
   */
  lemma DeliveredCard(item: Order, now: int)
    requires item.status == DeliveredText
    ensures !RenderOrder(item, now).next
    ensures RenderOrder(item, now).previous <==>
              item.deliveredAt.Some? && Abs(now - item.deliveredAt.value) <= WindowMillis
    ensures RenderOrder(item, now).logo == Food
  {
  }

  /** An order delivered at time t can still be reverted at t. */
  lemma DeliveredRevertible(id: int, t: int)
    ensures RenderOrder(Order(id, DeliveredText, None, None, Some(t)), t).previous
  {
  }

  /** "Next" is hidden exactly on the cards that show the food icon. */
  lemma NextHiddenIffFood(status: string)
    ensures !ShowNext(status) <==> OrderLogo(status) == Food
  {
  }

  /** The time only affects "Previous": two renderings differ in nothing else. */
  lemma OnlyPreviousDependsOnTime(orders: seq<Order>, now: int, now': int)
    ensures |RenderList(orders, now)| == |RenderList(orders, now')|
    ensures forall i :: 0 <= i < |orders| ==>
              RenderList(orders, now)[i].(previous := false)
              == RenderList(orders, now')[i].(previous := false)
  {
  }
}
