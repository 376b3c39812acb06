# Dogueria ordering core, modelled in Dafny

Dogueria is a hot-dog shop's ordering system. This project models its core.

The client side covers:

- the shopping cart provider (`src/context/CartContext.tsx`);
- the cart modal, which shows the total, validates the customer form and posts the order (`src/components/CartModal.tsx`);
- the dashboard, which labels orders, hides orders from the screen and builds the default day, week and month filters (`src/app/dashboard/page.tsx`).

The server side covers these endpoints of `backend-dogueria/server.js`:

- `POST /finalizar-pedido`: finds or creates the customer, prices the cart from the store's prices, and writes the order and its lines.
- `GET /pedidos`: lists the orders, newest first, with totals recomputed from the current prices.
- `GET /financeiro`: counts the orders and sums the revenue for a day, a week and a month window.
- `DELETE /produtos/:id`: deletes a product.

Conventions:

- Money is integer cents.
- Dates are whole day numbers, counted from 1970-01-01. `Date` arithmetic follows the formulas of section 21.4.1 of ECMA-262 (DayFromYear, MakeDay, WeekDay).
- "Today" is a parameter: a valid civil date.

Modules:

| module | file | contents |
|---|---|---|
| `Wrappers` | wrappers.dfy | `Option` and `Result` |
| `Text` | text.dfy | `toString` of naturals, `padStart`, `split`, `join` and `parseInt` |
| `Calendar` | calendar.dfy | the ECMAScript day arithmetic |
| `Tokens` | tokens.dfy | the `YYYY-Www` and `YYYY-MM` filter tokens |
| `Store` | store.dfy | the order endpoints (see below) |
| `Finance` | finance.dfy | the financial windows and rollups |
| `Cart` | cart.dfy | the cart provider's updates |
| `CartModal` | cart_modal.dfy | the modal |
| `Dashboard` | dashboard.dfy | the dashboard helpers and its orders panel (see below) |

In `Store`, the database is a class: each table is a `seq` or `map` field, and each SQL statement is a method that changes those fields. In `Dashboard`, the orders panel is a class holding the displayed orders and the stored list of hidden ids.

The cart modal's own `+`, `-`, remove and note handlers (`CartModal.tsx` lines 18-40) do the same updates as the cart provider's. The model reuses the `Cart` functions for them.

## Model

| member | source | states |
|---|---|---|
| Store.PaymentCode | backend-dogueria/server.js:232-233 | The stored payment code is 1, 2 or 3: 2 exactly for "Pix", 3 exactly for "Cartão", and 1 for every other label, a missing or unknown one included |
| Store.LookupCustomer | backend-dogueria/server.js:237-243 | No id is found exactly when no customer has all four identifying fields equal to the request's; a found id belongs to a customer with exactly that identity |
| Store.Resolve | backend-dogueria/server.js:236-250 | When a customer matches, its id is reused and nothing is inserted; otherwise one customer is appended with the next id; either way the returned id names a customer with the requested identity |
| Store.LookupAppend | backend-dogueria/server.js:237-243 | Appending a customer never changes an existing match (the first row wins), and makes the new customer findable when nothing matched before |
| Store.ResolveIdempotent | backend-dogueria/server.js:236-250 | Submitting the same customer twice gives the same id and inserts nothing the second time |
| Store.ResolveInsertsAtMostOne | backend-dogueria/server.js:242-250 | The customer table is unchanged exactly when a customer matched; at most one row is added, and earlier rows are kept |
| Store.CustomerById | backend-dogueria/server.js:323 | The join finds a customer exactly when one has the order's customer id, and the one it finds has that id |
| Store.CartTotal | backend-dogueria/server.js:253-266 | The total accumulated over the submitted items; specified by `Store.Database.PriceItems` (the loop), `Store.CartTotalAppend`, `Store.CartTotalSwap`, `Store.CartTotalSkipsUnknown` and `Store.CartTotalOfKnownItems` |
| Store.CartTotalAppend | backend-dogueria/server.js:253-266 | The priced total of two batches of items is the sum of their totals |
| Store.CartTotalSwap | backend-dogueria/server.js:255-266 | The total does not depend on the order of the submitted items |
| Store.CartTotalSkipsUnknown | backend-dogueria/server.js:262 | An item whose product does not exist adds nothing, and the pricing goes on past it |
| Store.KnownItems | backend-dogueria/server.js:257-262 | The submitted items whose product exists, in submission order; specified by `Store.KnownItemsCounts` and `Store.KnownItemsAppend` |
| Store.KnownItemsCounts | backend-dogueria/server.js:257-262 | Each item of a known product is kept as many times as it was submitted, and every other item is dropped |
| Store.KnownItemsAppend | backend-dogueria/server.js:255-262 | The filter keeps submission order: filtering two batches one after the other is filtering each and concatenating |
| Store.CartTotalOfKnownItems | backend-dogueria/server.js:253-266 | The total is the total of the known items alone: unknown products are dropped without an error |
| Store.CartTotalNonNegative | backend-dogueria/server.js:253-266 | With non-negative prices and quantities the total is non-negative |
| Store.CartTotalExample | backend-dogueria/server.js:253-266 | Two items at 12.50 and one at 5.00 are priced at 30.00 |
| Store.StoredNote | backend-dogueria/server.js:285 | A stored note is never the empty string, and is the submitted note when there is one; an empty or missing note becomes NULL |
| Store.NoteRoundTrip | backend-dogueria/server.js:340-343 | A note written by the order endpoint (line 285) is read back unchanged by the listing, the empty note included |
| Store.LinesFor | backend-dogueria/server.js:281-287 | One line row per submitted item, in submission order, with the order's id, the item's product and quantity, and the stored form of its note |
| Store.JoinItems | backend-dogueria/server.js:329-335 | The joined items of one order, with the current product names and prices; specified by `Store.JoinItemsAppend`, `Store.JoinItemsOtherOrders` and `Store.JoinLinesFor` |
| Store.ItemsTotal | backend-dogueria/server.js:338 | The reduce over the listed items; specified by `Store.ItemsTotalAppend` and `Store.JoinLinesFor` |
| Store.ListedTotal | backend-dogueria/server.js:338-344 | The total the listing shows for an order; specified by `Store.ListedTotalOfNewOrder` and `Store.ListedTotalDrifts` |
| Store.Listed | backend-dogueria/server.js:312-344 | One listed order: header, customer fields, joined items and recomputed total; specified by `Store.Database.ListarPedidos` |
| Store.JoinItemsAppend | backend-dogueria/server.js:329-335 | Joining the lines of two batches of rows gives the joined items of each batch, one after the other |
| Store.ItemsTotalAppend | backend-dogueria/server.js:338 | The listed total of two lists of items is the sum of their totals |
| Store.JoinItemsOtherOrders | backend-dogueria/server.js:329-335 | Line rows of other orders contribute no item to an order's listing |
| Store.JoinLinesFor | backend-dogueria/server.js:329-338 | Reading back the lines written for a cart gives the same total as the pricing at submission time |
| Store.ListedTotalOfNewOrder | backend-dogueria/server.js:338-344 | While prices stay the same, the listing's recomputed total of a newly written order equals its priced total |
| Store.ListedTotalDrifts | backend-dogueria/server.js:338-344 | The listing prices an order with current prices: after a price change, or after the product is deleted, the listed total differs from what was charged |
| Store.Database.FindCustomer | backend-dogueria/server.js:237-243 | The loop returns the first matching customer's id, which is `LookupCustomer` |
| Store.Database.InsertCustomer | backend-dogueria/server.js:245-249 | Appends a customer with the next auto-increment id and returns that id; the other tables are unchanged and the database invariant is kept |
| Store.Database.ResolveCustomer | backend-dogueria/server.js:236-250 | The new customer table, next id and returned id are those of `Resolve`; the other tables are unchanged |
| Store.Database.PriceItems | backend-dogueria/server.js:253-266 | The loop, which skips unknown products with `continue`, computes `CartTotal` of the submitted items from the store's prices |
| Store.Database.InsertOrder | backend-dogueria/server.js:272-278 | Appends an order header with the next id and returns that id; the other tables are unchanged |
| Store.Database.InsertLine | backend-dogueria/server.js:282-286 | Appends one line row and changes nothing else |
| Store.Database.InsertLines | backend-dogueria/server.js:281-287 | The line table grows by exactly `LinesFor` the order and its items |
| Store.Database.FinalizarPedido | backend-dogueria/server.js:228-294 | The customer tables become those of `Resolve`. One header is appended with the next order id, the time given, the payment code, status 1, the resolved customer and the priced total. One line per item is appended. The reply carries the new id, the total and the message. The listing's total of the new order equals the total in the reply |
| Store.Database.ListarPedidos | backend-dogueria/server.js:310-347 | One listed order per order, newest id first, each joined with its customer and with its lines joined to the current products; each listed total is recomputed from the current prices |
| Store.Database.DeleteProduct | backend-dogueria/server.js:205-218 | Answers not found exactly when the product did not exist, and then changes nothing; otherwise it removes only that product |
| Store.CustomersGrow | backend-dogueria/server.js:245-249 | Inserting a customer keeps every existing customer findable by id |
| Calendar.LastDayOfMonth | backend-dogueria/server.js:143-145 | `new Date(y, m, 0)` is the last day of month `m`, December included, where the roll-over crosses into the next year |
| Finance.WeekDayOrSeven | backend-dogueria/server.js:104 | `getDay() \|\| 7` is in 1..7 and is the weekday with Sunday counted as 7 |
| Finance.DecodeWeek | backend-dogueria/server.js:103-114 | The decoded week starts on a Monday and ends six days later, and contains the day `7 * (n - 1)` days after January 1 |
| Finance.MondayOnOrBefore | backend-dogueria/server.js:104-108 | Stepping back to the Monday of January 1's week and forward whole weeks lands on a Monday |
| Finance.DefaultWeek | backend-dogueria/server.js:115-124 | Without a week token the window is the Monday-to-Sunday week that contains today |
| Finance.WeekWindow | backend-dogueria/server.js:98-125 | A window, when there is one, is a Monday-to-Sunday week; an empty `semana` always gives the week that contains today |
| Finance.MonthWindow | backend-dogueria/server.js:133-145 | The month range of the `mes` parameter; specified by `Finance.MonthTokenDecodes`, `Finance.DefaultMonthIsTodaysMonth` and `Finance.Financeiro` |
| Finance.MonthRange | backend-dogueria/server.js:136-145 | For a month number in 1..12 the range runs from the first to the true last day of that month; for any other month number the range matches nothing |
| Finance.Rollup | backend-dogueria/server.js:150-162 | A rollup counts at most the number of orders |
| Finance.Matching | backend-dogueria/server.js:157 | The orders whose date is in the range, in table order; specified by `Finance.MatchingCounts` and `Finance.MatchingAppend` |
| Finance.MatchingCounts | backend-dogueria/server.js:157 | Each order in range is kept as many times as it occurs, and every other order is dropped |
| Finance.MatchingAppend | backend-dogueria/server.js:157 | The filter keeps table order: filtering two batches one after the other is filtering each and concatenating |
| Finance.SumTotalsAppend | backend-dogueria/server.js:155 | The sum of stored totals of two batches of orders is the sum of their sums |
| Finance.RollupIsMatching | backend-dogueria/server.js:150-162 | Each rollup's count is the number of orders in range, and its revenue is the sum of their stored totals |
| Finance.RollupZeroWhenNoneMatch | backend-dogueria/server.js:184-189 | The count is 0 exactly when no order is in range, and then the revenue is also 0 (the `\|\| 0` defaults) |
| Finance.RollupAllInRange | backend-dogueria/server.js:150-162 | When every order is in range, the rollup is the number of orders and the sum of all stored totals |
| Finance.RollupMonotone | backend-dogueria/server.js:150-162 | A range that contains another never counts fewer orders |
| Finance.Financeiro | backend-dogueria/server.js:85-196 | The report fails exactly when the week or the month token does not parse. On success the day rollup is taken over the given date, or over today when none is given. The week and month rollups are taken over the decoded week and month windows |
| Finance.WeekTokenDecodes | backend-dogueria/server.js:99-101 | A `YYYY-Www` token built from a year and a week decodes to that week of that year |
| Finance.MonthTokenDecodes | backend-dogueria/server.js:136-137 | A `YYYY-MM` token built from a year and a month gives that month's range |
| Finance.DefaultMonthIsTodaysMonth | backend-dogueria/server.js:133-145 | Without a month token the range runs from the first to the last day of today's month, and contains today |
| Finance.DefaultMonthToken | backend-dogueria/server.js:133-134 | Without a month token the token in force is today's year and 1-based month |
| Finance.MonthOfTokenDecodes | backend-dogueria/server.js:136-145 | Splitting and parsing a generated month token gives back its year and month range |
| Finance.DefaultReportCoversToday | backend-dogueria/server.js:89-145 | With no parameter the report succeeds, and today lies in its week and in its month window |
| Finance.FirstWeekOf2024 | backend-dogueria/server.js:103-111 | 2024 starts on a Monday, so its week 1 is January 1 to January 7 |
| Finance.FebruaryRanges | backend-dogueria/server.js:143-145 | February's range ends on the 29th in 2024 and on the 28th in 2023 |
| Finance.RollupExample | backend-dogueria/server.js:168-178 | Of three orders on consecutive days, the day rollup of the middle day sees only the middle order, and a three-day range sees all three |
| Tokens.Fields | backend-dogueria/server.js:99-101 | `split` then `parseInt` of the two pieces; the first field is `parseInt` of the first piece, and both are specified on generated tokens by `Tokens.WeekTokenFields` and `Tokens.MonthTokenFields` |
| Tokens.WeekTokenFields | backend-dogueria/server.js:99-101 | A week token split on "-W" and parsed gives back the year and the week number |
| Tokens.MonthTokenFields | backend-dogueria/server.js:136-137 | A month token split on "-" and parsed gives back the year and the month number |
| Text.NatToString | src/app/dashboard/page.tsx:38 | The decimal rendering of a natural: at least one character, all digits, no leading zero; read back by `Text.NatToStringValue` |
| Text.Pad2 | src/app/dashboard/page.tsx:27 | `pad(n)`; specified by `Text.Pad2Value` |
| Text.PadStart | src/app/dashboard/page.tsx:27 | `padStart`: the result has the requested width, or the string's own length when longer, and is fill characters followed by the string |
| Text.ParseInt | backend-dogueria/server.js:100-101 | `parseInt` yields NaN exactly when the string is empty or does not start with a digit; specified by `Text.ParseIntDigits` |
| Text.Split | backend-dogueria/server.js:99 | `split` gives at least one piece; specified by `Text.JoinSplit` and `Text.SplitDigitsThenTail` |
| Text.NatToStringValue | src/app/dashboard/page.tsx:38 | The decimal rendering of a natural reads back as that natural |
| Text.Pad2Value | src/app/dashboard/page.tsx:27 | `pad(n)` has at least two characters, all digits, and is worth `n`; it is `"0"` and the digit below 10, and the plain rendering from 10 up |
| Text.ParseIntDigits | backend-dogueria/server.js:100-101 | `parseInt` reads a digit string followed by a non-digit, or by nothing, as the value of those digits |
| Text.JoinSplit | backend-dogueria/server.js:99 | `split` loses nothing: joining the pieces with the separator gives the string back |
| Text.SplitDigitsThenTail | backend-dogueria/server.js:136 | Digits, then the separator, then a tail without it, split into exactly those digits and that tail |
| Cart.AddToCart | src/context/CartContext.tsx:39-52 | `addToCart`; specified by `Cart.AddExisting`, `Cart.AddNew` and `CartModal.TotalAddExisting` / `CartModal.TotalAddNew` |
| Cart.AumentarQtd | src/context/CartContext.tsx:54-60 | `aumentarQtd`; specified by `Cart.AumentarAt`, `Cart.UnknownIdUnchanged` and `CartModal.TotalAumentar` |
| Cart.DiminuirQtd | src/context/CartContext.tsx:62-70 | `diminuirQtd`; specified by `Cart.DiminuirAt`, `Cart.DiminuirFloor` and `CartModal.TotalDiminuir` |
| Cart.RemoverItem | src/context/CartContext.tsx:72-74 | `removerItem`; specified by `Cart.RemoverMembers`, `Cart.RemoverAppend`, `Cart.RemoverAt` and `CartModal.TotalRemover` |
| Cart.AtualizarObservacao | src/context/CartContext.tsx:81-87 | `atualizarObservacao`; specified by `Cart.AtualizarOnlyNote` and `CartModal.TotalObservacao` |
| Cart.ClearCart | src/context/CartContext.tsx:76 | `clearCart`; specified by `Cart.ClearAndToggle` |
| Cart.ToggleCart | src/context/CartContext.tsx:78 | `toggleCart`; specified by `Cart.ClearAndToggle` |
| Cart.Apply | src/context/CartContext.tsx:39-87 | Any one of the provider's updates; specified by `Cart.ApplyKeepsUnique` and `Cart.ApplyKeepsPositive` |
| Cart.Find | src/context/CartContext.tsx:41 | Finds an entry exactly when one has the product's id, and the entry found has that id |
| Cart.MapMatching | src/context/CartContext.tsx:43-47 | The result has the same length; entries with the id are transformed and all others are kept as they were |
| Cart.AddExisting | src/context/CartContext.tsx:39-47 | Adding a product already in the cart raises only that entry's quantity, by the given quantity or 1, and keeps its note |
| Cart.AddNew | src/context/CartContext.tsx:48-50 | Adding a product not in the cart appends a new entry with no note; its quantity defaults to 1 |
| Cart.AumentarAt | src/context/CartContext.tsx:54-60 | Increment raises the quantity of exactly the matching entry by one |
| Cart.DiminuirAt | src/context/CartContext.tsx:62-70 | Decrement lowers the matching entry's quantity by one, but not below 1; at quantity 1 the cart is unchanged |
| Cart.UnknownIdUnchanged | src/context/CartContext.tsx:54-87 | Increment, decrement, removal and note update with an id that is not in the cart leave it unchanged |
| Cart.RemoverMembers | src/context/CartContext.tsx:72-74 | Removal keeps exactly the entries with another id |
| Cart.RemoverAppend | src/context/CartContext.tsx:72-74 | Removal distributes over concatenation, so it keeps the relative order |
| Cart.RemoverAt | src/context/CartContext.tsx:72-74 | Removing a product removes its one entry and keeps all the others in order |
| Cart.AtualizarOnlyNote | src/context/CartContext.tsx:81-87 | The note update changes only the note, and only that of the matching entry |
| Cart.ClearAndToggle | src/context/CartContext.tsx:76-78 | Clearing empties the cart and leaves `isOpen` alone; toggling flips only `isOpen`, and toggling twice restores it |
| Cart.RemoverKeepsUnique | src/context/CartContext.tsx:72-74 | Removal keeps product ids unique |
| Cart.ApplyKeepsUnique | src/context/CartContext.tsx:39-87 | Every cart update keeps at most one entry per product |
| Cart.ApplyKeepsPositive | src/context/CartContext.tsx:39-87 | Every cart update keeps every quantity at least 1, provided an added quantity is at least 1 |
| Cart.DiminuirFloor | src/context/CartContext.tsx:66 | After a decrement the matching entries have quantity at least 1, whatever they had before |
| CartModal.Total | src/components/CartModal.tsx:16 | The displayed total; specified by `CartModal.TotalAppend`, the `CartModal.Total…` edit lemmas and `CartModal.ServerTotalMatchesDisplayed` |
| CartModal.Complete | src/components/CartModal.tsx:43-46 | The form is accepted exactly when name, phone, street and district are all non-empty; used by `CartModal.FinalizarPedido` |
| CartModal.Request | src/components/CartModal.tsx:54-65 | The posted body: the four customer fields, the payment label and `CartModal.Itens`; used by `CartModal.FinalizarPedido` |
| CartModal.TotalAppend | src/components/CartModal.tsx:16 | The displayed total of two carts in sequence is the sum of their totals |
| CartModal.TotalAddExisting | src/context/CartContext.tsx:39-47 | Adding a product already in the cart raises the displayed total by the quantity times the price on its entry |
| CartModal.TotalAddNew | src/context/CartContext.tsx:48-50 | Adding a new product raises the displayed total by the quantity times its price |
| CartModal.TotalAumentar | src/components/CartModal.tsx:18-23 | The `+` button raises the total by one unit price |
| CartModal.TotalDiminuir | src/components/CartModal.tsx:25-30 | The `-` button lowers the total by one unit price, except at quantity 1, where the total is unchanged |
| CartModal.TotalRemover | src/components/CartModal.tsx:32-33 | Removing an entry lowers the total by exactly its subtotal |
| CartModal.TotalObservacao | src/components/CartModal.tsx:35-40 | Editing a note leaves the total unchanged |
| CartModal.Itens | src/components/CartModal.tsx:48-52 | One request item per cart entry, in order, with its product id, its quantity and its note ("" when the entry has none) |
| CartModal.FinalizarPedido | src/components/CartModal.tsx:42-80 | An incomplete form sends nothing and changes nothing. A complete form sends exactly the built request. The cart state changes only on a reply with `success` true, and then the cart is empty and the modal toggled |
| CartModal.SuccessClears | src/components/CartModal.tsx:69-72 | A successful reply leaves an empty cart with `isOpen` flipped |
| CartModal.ServerTotalMatchesDisplayed | src/components/CartModal.tsx:16 | When every entry's price is the store's current price, the server's priced total of the posted items equals the total the modal displays |
| CartModal.PostedNotesRoundTrip | src/components/CartModal.tsx:51 | Each posted note comes back from the order listing as the cart's note, or "" when there was none |
| Dashboard.PaymentLabel | src/app/dashboard/page.tsx:181 | Code 1 is shown as "Dinheiro", code 2 as "Pix", and every other code as "Cartão", each in both directions |
| Dashboard.PaymentLabelRoundTrip | src/app/dashboard/page.tsx:181 | Each of the three payment labels the cart offers is shown again unchanged after the server stores it as a code |
| Dashboard.PaymentCodeRoundTrip | src/app/dashboard/page.tsx:181 | Each stored code 1..3 maps to a label that stores back as the same code; any unknown label is shown as "Dinheiro" |
| Dashboard.DaysSinceNewYear | src/app/dashboard/page.tsx:34-36 | The number of whole days since January 1 of today's year is never negative |
| Dashboard.WeekNumber | src/app/dashboard/page.tsx:37 | The dashboard's week number is at least 1, and is the least `w` with `dias + getDay(Jan 1) + 1 <= 7 * w` |
| Dashboard.WeekNumberMonotone | src/app/dashboard/page.tsx:37 | Within a year, the week number never decreases as the day advances |
| Dashboard.WeekNumberMondayBased | src/app/dashboard/page.tsx:37 | The corrected week number is at least 1, and is one more than the number of whole weeks from the Monday on or before January 1 up to today |
| Dashboard.DecodedWeekContainsIff | backend-dogueria/server.js:103-111 | The week the server decodes for number `n` of today's year contains today exactly when `n` is the Monday-based week number |
| Dashboard.SemanaAtualCorrigidaContainsToday | src/app/dashboard/page.tsx:32-39 | The corrected token decodes on the server to a week that contains today |
| Dashboard.WeekNumberAgainstMondayBased | src/app/dashboard/page.tsx:37 | The dashboard's number exceeds the Monday-based one by 1 on a Sunday of a year that does not begin on a Sunday. It falls short by 1 on the other days of a year that does. Otherwise the two are equal |
| Dashboard.SemanaAtualContainsTodayIff | src/app/dashboard/page.tsx:32-41 | The default week token decodes on the server to a week containing today exactly when today and January 1 are both Sundays or both not |
| Dashboard.SemanaAtualMissesSunday | src/app/dashboard/page.tsx:37 | On Sunday 7 January 2024 the default token is week 2, which the server reads as 8 to 14 January, so today is not in it |
| Dashboard.MesAtualSelectsThisMonth | src/app/dashboard/page.tsx:44-46 | The default month token parses as today's year and 1-based month, selects the same range as no token, and contains today |
| Dashboard.SemanaAtual | src/app/dashboard/page.tsx:32-39 | The default week token as written; specified by `Dashboard.SemanaAtualContainsTodayIff` and `Dashboard.SemanaAtualMissesSunday` |
| Dashboard.SemanaAtualCorrigida | src/app/dashboard/page.tsx:32-39 | The default week token with the Monday-based number; specified by `Dashboard.SemanaAtualCorrigidaContainsToday` |
| Dashboard.MesAtual | src/app/dashboard/page.tsx:44-46 | The default month token; specified by `Dashboard.MesAtualSelectsThisMonth` |
| Dashboard.InitialFilters | src/app/dashboard/page.tsx:29-46 | The filters the dashboard starts with, week token as written; specified by `Dashboard.InitialReportCoversToday` |
| Dashboard.InitialReportCoversToday | src/app/dashboard/page.tsx:29-46 | With the initial filters the report succeeds, its day rollup is today's, and today lies in its month window; today lies in its week window exactly when today and January 1 are both Sundays or both not |
| Dashboard.CorrectedInitialFilters | src/app/dashboard/page.tsx:29-46 | The initial filters with the Monday-based week token; specified by `Dashboard.CorrectedInitialReportCoversToday` |
| Dashboard.CorrectedInitialReportCoversToday | src/app/dashboard/page.tsx:29-46 | With the corrected initial filters the report succeeds, its day rollup is today's, and today lies in both its week and its month window |
| Dashboard.Removidos | src/app/dashboard/page.tsx:71-72 | The stored hidden ids, read as the empty list when the stored value is absent or not an array; used by the panel's methods |
| Dashboard.Visible | src/app/dashboard/page.tsx:74 | The fetched orders shown on screen; specified by `Dashboard.VisibleMembers`, `Dashboard.VisibleAppend` and `Dashboard.VisibleNothingHidden` |
| Dashboard.RemoveId | src/app/dashboard/page.tsx:130 | The displayed orders without the hidden one; specified by `Dashboard.RemoveIdMembers` and `Dashboard.RemoveIdIdempotent` |
| Dashboard.VisibleMembers | src/app/dashboard/page.tsx:74 | The shown orders are exactly the fetched orders whose id is not in the hidden list |
| Dashboard.RemoveIdMembers | src/app/dashboard/page.tsx:130 | Hiding an order keeps exactly the displayed orders with another id |
| Dashboard.VisibleAppend | src/app/dashboard/page.tsx:74 | The filter keeps the fetched order: filtering a concatenation filters each part |
| Dashboard.VisibleNothingHidden | src/app/dashboard/page.tsx:71-74 | With nothing hidden the whole fetched list is shown |
| Dashboard.HideThenReload | src/app/dashboard/page.tsx:129-134 | Reloading with the id appended to the hidden list shows what the screen showed right after hiding it |
| Dashboard.RemoveIdIdempotent | src/app/dashboard/page.tsx:130 | Hiding the same order twice gives the same list as hiding it once |
| Dashboard.OrdersPanel.CarregarPedidos | src/app/dashboard/page.tsx:65-79 | A fetched body is shown without the hidden ids, and a body that is not an array shows nothing. A stored value that is valid JSON but not an array hides nothing. A failed fetch, or stored text that is not JSON, leaves the list as it was. The storage is unchanged |
| Dashboard.OrdersPanel.RemoverPedidoDaTela | src/app/dashboard/page.tsx:129-134 | The order leaves the screen and no displayed order has its id. The stored list becomes the old list, or the empty one when it was not an array, with the id appended. When the stored text is not JSON the screen is still updated but nothing is stored |
| Dashboard.HiddenStaysHidden | src/app/dashboard/page.tsx:129-134 | After hiding an order, reloading the same orders shows the same list, without the order |

## Left out

- Clock and time zones: `new Date()`, `NOW()` and `toISOString()` are left out. "Today" and the order time are parameters, and UTC and local calendar days are taken to be the same.
- Time of day: `dias` is computed from whole days, so daylight-saving shifts in the millisecond difference are not modelled.
- Two-digit years: `Date` maps years 0-99 to 1900-1999. No generated token has such a year, so the model does not reproduce this.
- `Text.ParseInt`: models `parseInt` on strings without leading blanks, sign or `0x` prefix, because none of those reach it from a generated token. A token whose pieces do not start with a digit makes the request fail.
- Finance.MonthWindow: the first day of the month is a string built from the raw pieces of the token (line 140 of `backend-dogueria/server.js`). The model reads it as the first of the parsed month, which agrees for every token the dashboard builds. A month outside 1..12 is taken to match nothing, as a date the database cannot parse would.
- Week numbers outside the year: a week number below 1 or above 53 decodes to a Monday-to-Sunday week outside the year, as in JavaScript. That week is modelled, but its dates are not checked against the year.
- Database errors and the 500 answers: the model does not capture foreign keys, NULL handling other than notes, or any other failure of a statement.
- Transactions and concurrency: the endpoint's statements run one after another. Two concurrent submissions of the same new customer could both insert it; the model has no interleaving.
- HTTP responses: the status codes and JSON shapes are represented only by the response datatypes.
- `pagamentoMap` lookups of inherited object keys (such as "toString") are not modelled: any unknown label maps to 1.
- Money: `toFixed(2)` and `parseFloat` on the total are the identity on integer cents. Floating-point rounding of prices is not modelled.
- Client I/O: polling, the `fetch` and JSON layers, `localStorage` reads and writes, and `alert` are not modelled. The fetch result and the stored value are parameters of the dashboard's methods.
- `includes` uses strict equality. The model treats the stored ids and the listed ids as the same integers.
- The UI rendering, product management and the dashboard's other data loads (products, the financial query itself) are not modelled.
- Store.LookupCustomer: compares the four fields as exact strings. The database compares them under the column collation, which may ignore case and accents. The schema is not part of this model, so the collation is not modelled.

## Findings

| source | as written | input that shows it | evidently intended | confidence | as-written member | corrected member |
|---|---|---|---|---|---|---|
| src/app/dashboard/page.tsx:37 | The default week number is `Math.ceil((dias + primeiroDiaAno.getDay() + 1) / 7)`, which counts Sunday-to-Saturday weeks. The server (`backend-dogueria/server.js` lines 103-111) decodes week numbers as Monday-to-Sunday weeks | Today = Sunday 2024-01-07: the token is `2024-W02`, which the server reads as 8-14 January, so today's orders are missing from the weekly figures | The Monday-based number `(dias + (getDay(Jan 1) \|\| 7) - 1) / 7 + 1`, whose decoded week always contains today | not executed | Dashboard.SemanaAtualMissesSunday | Dashboard.SemanaAtualCorrigidaContainsToday |

`Dashboard.SemanaAtualContainsTodayIff` states the general case. For every valid date, the default week contains today exactly when today and January 1 are both Sundays or both not.
