# Order action visibility on the owner's orders screen

This project models the decision logic of the DeliverUS restaurant owner's
orders screen. For every order of a restaurant the screen draws a card. The
card shows an icon for the order's status. It may also show two buttons:
"Previous", which asks the server to move the order back one status, and
"Next", which asks it to move the order forward. The model states which icon
is chosen and when each button is shown:

- "Next" is shown for every status except `delivered`, unknown strings included.
- "Previous" is never shown for `pending`. For any other status it is shown when
  the timestamp of the current status (`startedAt`, `sentAt` or `deliveredAt`)
  can be read and lies within five minutes of the time the card is drawn. The window is
  symmetric and its bound is included.
- The icon is a timer for `pending`, a chef's hat for `in process`, food for
  `delivered` and a delivery truck for `sent` and for every other string.

The helpers in `orders_screen.dfy` compare the raw status string exactly as
the screen does; `wrappers.dfy` only declares the `Option` type. Their contracts are stated through a
`Status` classification computed by `ParseStatus`. A timestamp is an
`Option<int>` of milliseconds. `None` stands for a null or missing field, and
for any string that `Date.parse` cannot read (it yields NaN, and every
comparison with NaN is false). The time `now` is a parameter: the moment a card is drawn.

The screen tests `Math.abs(now - reference) / 60000 <= 5`. The model writes
this test with exact real division, and `WithinFiveMinutes` proves it equal to
`|now - reference| <= 300000`. For integer millisecond values the JavaScript
double arithmetic gives the same answer, since 5 and every quotient next to it
are far apart compared with double precision.

Where the code and its comments, or the usual reading of the status names, disagree, the model
follows the code:

- The comment at `OrdersScreen.js:110` says that a delivered order cannot go
  back. The code shows "Previous" for `delivered` while `deliveredAt` is within
  five minutes (`DeliveredCard`, `DeliveredRevertible`).
- The code compares against `'in process'`, with a space. The spelling
  `in_process` is therefore an unknown string: its card hides "Previous" and shows "Next" and the truck
  (`UnderscoreInProcessCard`).
- The window is not clamped to reference times in the past. A reference up to
  five minutes in the future also shows "Previous" (`PreviousSymmetric`).

## Model

| member | source | states |
|---|---|---|
| OrdersScreen.ParseStatus | DeliverUS-Frontend-Owner/src/screens/restaurants/OrdersScreen.js:80-97 | classifies a status string against the four literals the screen compares with; the result spells back to the same string and is Other exactly for unknown strings |
| OrdersScreen.ParseStatusText | DeliverUS-Frontend-Owner/src/screens/restaurants/OrdersScreen.js:80-97 | round trip: parsing the text of a well-formed status gives that status back |
| OrdersScreen.CurrentStatusDate | DeliverUS-Frontend-Owner/src/screens/restaurants/OrdersScreen.js:92-94 | startedAt for in process, sentAt for sent, deliveredAt for delivered, none for pending and for any other string |
| OrdersScreen.Abs | DeliverUS-Frontend-Owner/src/screens/restaurants/OrdersScreen.js:84 | Math.abs: the result is the argument or its negation, and never negative |
| OrdersScreen.WithinFiveMinutes | DeliverUS-Frontend-Owner/src/screens/restaurants/OrdersScreen.js:82-84 | the division-based test abs(now - reference) / 60000 <= 5 holds exactly when now - reference lies in [-300000, 300000] |
| OrdersScreen.ShowPrevious | DeliverUS-Frontend-Owner/src/screens/restaurants/OrdersScreen.js:80-86 | Previous is shown iff the status is not pending, the reference is readable and it is within 300000 ms of now |
| OrdersScreen.ShowNext | DeliverUS-Frontend-Owner/src/screens/restaurants/OrdersScreen.js:88-90 | Next is shown iff the status is not delivered |
| OrdersScreen.OrderLogo | DeliverUS-Frontend-Owner/src/screens/restaurants/OrdersScreen.js:97 | each icon in terms of the status: timer iff pending, chef's hat iff in process, food iff delivered, truck iff sent or unknown |
| OrdersScreen.RenderOrder | DeliverUS-Frontend-Owner/src/screens/restaurants/OrdersScreen.js:95-148 | a card carries the order's id and status text, its icon, Next iff not delivered, and Previous iff not pending and the current status's timestamp is within the window |
| OrdersScreen.RenderList | DeliverUS-Frontend-Owner/src/screens/restaurants/OrdersScreen.js:153-161 | one card per fetched order, in the fetched order, each the card of that order |
| OrdersScreen.Screen | DeliverUS-Frontend-Owner/src/screens/restaurants/OrdersScreen.js:19-27 | a null list (no logged-in user) or an empty list shows the empty-list message; otherwise one card per order, in order, each the card RenderOrder draws for it (key, title, icon and both buttons) |
| OrdersScreen.PendingHidesPrevious | DeliverUS-Frontend-Owner/src/screens/restaurants/OrdersScreen.js:81 | a pending order never shows Previous, whatever the reference and the time |
| OrdersScreen.PreviousWindowBoundary | DeliverUS-Frontend-Owner/src/screens/restaurants/OrdersScreen.js:82-84 | for a non-pending status Previous shows at exactly 5 minutes on either side and is hidden 1 ms beyond |
| OrdersScreen.PreviousSymmetric | DeliverUS-Frontend-Owner/src/screens/restaurants/OrdersScreen.js:84 | Previous at reference + d iff Previous at reference - d |
| OrdersScreen.PreviousMonotone | DeliverUS-Frontend-Owner/src/screens/restaurants/OrdersScreen.js:84 | if Previous shows at now, it shows at every time at least as close to the reference |
| OrdersScreen.MissingReferenceHidesPrevious | DeliverUS-Frontend-Owner/src/screens/restaurants/OrdersScreen.js:83-84 | with no readable reference, Previous is hidden for every status |
| OrdersScreen.UnrecognisedStatusCard | DeliverUS-Frontend-Owner/src/screens/restaurants/OrdersScreen.js:93 | an unknown status has no reference, so its card hides Previous and shows Next and the truck |
| OrdersScreen.UnderscoreInProcessCard | DeliverUS-Frontend-Owner/src/screens/restaurants/OrdersScreen.js:93 | the spelling in_process is unknown: Previous hidden, Next shown, truck icon |
| OrdersScreen.DeliveredCard | DeliverUS-Frontend-Owner/src/screens/restaurants/OrdersScreen.js:110 | a delivered card never shows Next and shows Previous iff deliveredAt is within 5 minutes of now |
| OrdersScreen.DeliveredRevertible | DeliverUS-Frontend-Owner/src/screens/restaurants/OrdersScreen.js:110 | an order delivered at t still shows Previous at t, so delivered is not terminal for revert |
| OrdersScreen.NextHiddenIffFood | DeliverUS-Frontend-Owner/src/screens/restaurants/OrdersScreen.js:97-130 | Next is hidden exactly on the cards with the food icon |
| OrdersScreen.OnlyPreviousDependsOnTime | DeliverUS-Frontend-Owner/src/screens/restaurants/OrdersScreen.js:110-130 | two renderings of the same list at different times differ only in the Previous buttons |

## Left out

- Fetching orders and the Previous/Next button handlers (`fetchOrders`, `backward`, `forward`, `OrdersScreen.js:29-76`): network calls, React state updates and error toasts. They are I/O.
- The status transitions themselves and the timestamps they set. The server performs them behind `PATCH /orders/:id/forward` and `PATCH /orders/:id/backward`. The screen only re-fetches afterwards, and no shown code computes a next or previous status.
- The endpoint wrappers `getAll`, `forwardOrder` and `backwardOrder` in `api/OrderEndpoints.js`. They only build URLs for a request helper, and that helper is not part of this model.
- OrdersScreen.Screen: `now` is the moment a card is drawn, and one `now` is used for the whole list. The screen redraws only after a fetch, a route change or a login change (`OrdersScreen.js:21-27`, `:53`, `:67`), so a "Previous" button already drawn stays visible after its five minutes end, and a card drawn later while scrolling uses a later time. The model does not capture redrawing over time.
- `Date.parse` and `Date.now()`. A reference is an already-parsed optional millisecond count, and the current time is a parameter.
- Double-precision rounding. The window test uses exact division, which gives the same result for integer millisecond values.
- The card's display text (`createdAt`, price, shipping costs, address, user name), styles, button icons, navigation and the authorization effect other than its null list.
