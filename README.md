# Checkout of the omahjajanwatir shop, modelled in Dafny

The shop is a Flask application over remotely hosted tables. Its logic of its own is
the checkout. `checkout()` reads the posted cart and checks that it is neither absent
nor empty. It looks up the id of the "proses" (in progress, `selesai = false`) status
and reads the orderer's full name from `profiles`. It then computes the order total
with Python's `int()` on each price and quantity, and builds the order number
`ORD-<timestamp>-<first four characters of the user id>`. Finally it inserts one
`pesanan` (order) row and one `dipesan` (order line) row per cart item. `pesanan_saya()`
lists a user's orders, newest first, each with the sum of its lines' `jumlah` as
`total_items`. `signup()` refuses a form with a blank field before it calls anything
remote.

The model:

- `coerce.dfy` (`Coerce`) covers CPython's `int()` on the JSON values a cart object
  can hold. An int or bool passes. A string passes when, after the ASCII padding
  `int()` strips (the space and `\t` to `\r`) is removed, it is an optional sign
  followed by at most 4300 digits in groups joined by single underscores. 4300 is
  the default digit limit of CPython 3.11 and of the security releases 3.10.7,
  3.9.14, 3.8.14 and 3.7.14. `None`, a list, a dict and a missing key raise.
- `rows.dfy` (`Rows`) defines the table rows and the `pesanan_id` filter over `dipesan`.
- `pricing.dfy` (`Pricing`) defines the total (the generator `sum`) and the line
  built for each cart item. `reorderings.dfy` (`Reorderings`) holds the multiset
  facts the proof that the total ignores item order uses.
- `lookup.dfy` (`Lookup`) covers `get_checkout_status_id` and the `.single()`
  profile read.
- `order_number.dfy` (`OrderNumbers`) covers the order number.
- `checkout.dfy` (`Checkout`) covers the handler up to its first write (`Prepare`)
  and the loop that builds `dipesan_to_insert` (`CollectLines`).
- `store.dfy` (`Shop`) defines the class `Store`. It stands in for the remote tables
  and has the methods `Checkout`, `PesananSaya` and `Signup`. Its invariant
  `TablesValid` says three things:
  - order ids are positive and increase in insertion order;
  - every line refers to an order;
  - every order either has no lines or has lines that add up to its `total_harga`.

Every remote call that can raise is a parameter: the flags of `Faults`,
`ordersReadFails` and `profileInsertFails`, and `lineReadFailsAt`, the position in the
order list of the line read that raises, if any. The authentication service's answer is a
parameter too (`AuthReply`). The clock reading is the 14-character timestamp `now`.
Flash messages and redirects become an `Outcome` value.

Points where the code behaves in ways a reader may not expect, which the model follows:

- The code does not check that quantities or prices are positive, so a quantity of 0
  or below is accepted. The total lemmas hold for every integer.
- `if not checkout_status_id` also rejects a status whose id is 0 (`IsTruthyId`).
- A cart that is not valid JSON makes `json.loads` raise outside the `try`. The request
  then fails as a whole (`Crash`) instead of being redirected to the cart.
- A cart item without `product_id` raises while the lines are built. That happens after
  the order row was inserted, so the order stays without lines, just as after a failed
  line insert.

## Model

| member | source | states |
|---|---|---|
| Coerce.ParseInt | app.py:282 | `int(s)` for a string: strip the ASCII padding, read an optional sign and at most 4300 digits in underscore-joined groups, None where CPython raises ValueError |
| Coerce.ToInt | app.py:303-304 | `int(item[key])`: integers as they are, booleans as 1 and 0, strings through `ParseInt`, None for a missing key, `null`, a list or a dict |
| Coerce.ParseIntOfDigits | app.py:282 | `int()` of a string of 1 to 4300 decimal digits is the number the digits denote |
| Coerce.ParseIntOfNegatedDigits | app.py:282 | `int()` of `-` followed by 1 to 4300 decimal digits is the negated number |
| Coerce.TooManyDigitsRejected | app.py:282 | `int()` of more than 4300 digits raises, with or without a minus sign |
| Coerce.SeparatorIsNotPadding | app.py:282 | an ASCII separator U+001C to U+001F in front of the digits makes `int()` raise: it is not stripped |
| Coerce.ParseIntRoundTrip | app.py:282 | `int(str(i)) == i` for every integer of at most 4300 digits, so a price or quantity posted as its decimal string converts to that integer |
| Rows.LinesOf | app.py:350 | the lines of one order, `dipesan` filtered on `pesanan_id` in table order: every line kept carries that id |
| Rows.TotalItems | app.py:351 | the sum of `jumlah` over some lines, the `total_items` of the order list |
| Rows.LinesOfAppend | app.py:350 | filtering `dipesan` on `pesanan_id` distributes over appending rows |
| Rows.LinesOfOwnLines | app.py:350 | rows that all carry one `pesanan_id` are exactly that order's lines |
| Rows.LinesOfAbsentOrder | app.py:350 | an order that no row refers to has no lines |
| Pricing.Subtotal | app.py:282 | `int(product_price) * int(jumlah)` of one item, defined exactly when both convert |
| Pricing.ItemLine | app.py:300-306 | the `dipesan` row of one item: the order id, the item's `product_id`, the user id, and a quantity and price whose product is the item's subtotal |
| Pricing.CartTotal | app.py:282 | the total exists exactly when every price and quantity converts with `int()` |
| Pricing.CartLines | app.py:298-306 | one line per cart item, in cart order; line k carries the order id, item k's `product_id`, `int(jumlah)`, `int(product_price)` and the user id |
| Pricing.LineSumIsCartTotal | app.py:282-306 | the order's `total_harga` equals the sum of `jumlah * harga` over the lines built for it |
| Pricing.TotalItemsIsCartQuantity | app.py:298-306 | the lines' `jumlah` add up to the number of pieces in the cart |
| Pricing.ExampleCart | app.py:282-306 | a cart of two pieces at 10000 and one piece at 5000 costs 25000 and gives the two lines with quantities 2 and 1 and prices 10000 and 5000 |
| Pricing.CartTotalAppend | app.py:282 | the total of two carts joined is the sum of their totals, failing if either fails |
| Pricing.CartTotalRemoveAt | app.py:282 | taking one item out of a cart takes its subtotal out of the total |
| Pricing.CartTotalPermutation | app.py:282 | the total does not depend on the order of the cart items |
| Lookup.FirstCheckoutStatus | app.py:76-78 | the position of the first row with `nama = 'proses'` and `selesai = false`, no such row before it |
| Lookup.CheckoutStatusId | app.py:72-85 | an id exactly when the client is connected, the read does not raise and some row matches; that id is the first matching row's |
| Lookup.IsTruthyId | app.py:271 | `if not checkout_status_id`: an id is usable when it exists and is not 0 |
| Lookup.ProfilesOf | app.py:277 | the `user_id` filter keeps exactly the user's profiles |
| Lookup.ProfilesOfAppend | app.py:277 | the `user_id` filter distributes over appending profiles |
| Lookup.PemesanName | app.py:277-278 | `.single()` then `['nama_lengkap']`: a name exactly when the user has one profile, and then that profile's name |
| Lookup.NameAfterSignup | app.py:126-132 | the profile written at sign-up gives the checkout's `pemesan` when it is the user's only profile, and `.single()` fails otherwise |
| OrderNumbers.UserIdPrefix | app.py:285 | `uid[:4]` is a prefix of the id, four characters long or the whole id |
| OrderNumbers.OrderNumber | app.py:285 | `"ORD-" + timestamp + "-" + uid[:4]` |
| OrderNumbers.OrderNumberRoundTrip | app.py:285 | the order number can be split back into its timestamp and user-id prefix |
| OrderNumbers.OrderNumberCollision | app.py:285 | two order numbers are equal exactly when the timestamps and the user-id prefixes are equal |
| Checkout.Prepare | app.py:254-292 | the checkout gets to the insert exactly when the cart is parsed and non-empty, the client is connected, the first "proses" status has a truthy id, the profile read finds one profile and every price and quantity converts; the order row then carries that status id, the user's name, the cart total and the formatted order number |
| Checkout.EmptyCartStops | app.py:257-264 | an absent or empty cart redirects to the cart before any lookup or insert |
| Checkout.MissingStatusStops | app.py:270-273 | without a truthy status id the checkout stops before the profile read and any insert |
| Checkout.ProfileFailureStops | app.py:277-278 | a profile read that raises or does not find exactly one profile stops the checkout before the total and any insert |
| Checkout.UnconvertibleCartStops | app.py:282 | a price or quantity that `int()` rejects stops the checkout with a redirect to the cart, before any insert |
| Checkout.CollectLines | app.py:298-306 | the loop succeeds exactly when every item has a `product_id`, and then builds the lines of `Pricing.CartLines` |
| Shop.OrderInsertKeepsValid | app.py:294-295 | inserting an order row with the next id keeps the tables valid and the new order has no lines |
| Shop.LinesOfOtherOrder | app.py:308-309 | inserting one order's lines leaves every other order's lines unchanged |
| Shop.LineInsertKeepsReferences | app.py:300-309 | lines for an existing order keep every line referring to an order |
| Shop.LineInsertKeepsTotals | app.py:282-309 | lines for the newest order that add up to its total keep every order's lines in agreement with its total |
| Shop.LineInsertKeepsValid | app.py:294-309 | inserting the lines of the new order keeps the tables valid, and that order's lines are then exactly those lines |
| Shop.ConfirmedCheckoutGrowth | app.py:294-312 | a confirmed checkout appended exactly one order and one line per cart item, and the confirmation names the new order |
| Shop.FailedLinesLeaveOrphanOrder | app.py:294-317 | a checkout that fails after the order insert leaves that order in the table with no lines |
| Shop.CheckoutWorkedCart | app.py:251-317 | the worked cart, with every remote call succeeding, writes one order of 25000 under the next id and its two lines, and confirms that order |
| Shop.NewestFirst | app.py:345 | the user's orders newest first: the reverse of table order |
| Shop.NewestFirstSelectsUser | app.py:345 | the order list holds exactly the user's orders |
| Shop.NewestFirstIsDescending | app.py:345 | the order list is newest first: ids strictly decrease |
| Shop.Store.Checkout | app.py:251-317 | a stop before the first insert changes no table; otherwise the writes of `PlaceOrder` happen; the tables stay valid |
| Shop.Store.PlaceOrder | app.py:294-317 | a failed order insert writes nothing; otherwise the order row is appended and stays; the lines are appended only when every item has a `product_id` and the line insert succeeds, and only then is the outcome the confirmation |
| Shop.Store.InsertOrder | app.py:294-295 | the order row is appended with the next id, which the method returns |
| Shop.Store.InsertLines | app.py:308-309 | the cart's lines are appended and the tables stay valid |
| Shop.Store.PesananSaya | app.py:338-358 | the user's orders newest first, each with the sum of its lines' `jumlah`; an exception in a line read keeps the orders listed before it; no list when the client is missing or the order read raises |
| Shop.HasBlankField | app.py:113 | some form field is missing or the empty string |
| Shop.Store.Signup | app.py:107-143 | a blank field stops before any remote call or write; otherwise the sign-up is sent, and the profile is written exactly when a user comes back and the insert succeeds |

## Left out

- Flask routing, `render_template`, `flash`, `redirect` and `url_for` are outcome values. The message texts are not modelled.
- The remote client and its query builder are not modelled. The tables are sequences in `Store`, and each call that can raise is a flag. Database-side constraints (foreign keys, column types) are not modelled.
- The authentication service's sign-up, sign-in and sign-out are not modelled. Sign-up is a reply parameter plus a log of the e-mail addresses sent (`signUps`). Sign-in and sign-out are left out.
- Flask-Login's `User` and `load_user` (app.py:42-60) are left out: they wrap one remote read.
- `format_datetime_filter` (app.py:63-70) is left out: it is date parsing and time-zone conversion in library code.
- `json.loads` of the cart (app.py:261) is left out. The payload arrives as `Missing`, `Malformed` or a parsed list of items. A JSON value that is not a list of objects, and float prices and quantities, are not modelled.
- ParseInt: strips ASCII padding and reads ASCII digits only. CPython's `int()` first turns other Unicode white space into spaces and other Unicode decimal digits into ASCII digits, so it accepts strings the model rejects.
- ParseInt: the 4300-digit limit is CPython's default. A different limit set with `sys.set_int_max_str_digits` or `PYTHONINTMAXSTRDIGITS` is not modelled, and neither is a CPython without the limit (it came with 3.11 and the security releases 3.10.7, 3.9.14, 3.8.14 and 3.7.14).
- ToInt: a JSON number with a fraction or an exponent is a Python float, which `int()` truncates toward zero (and rejects when infinite or NaN). Such prices and quantities have no `Field` case, so the model does not say what checkout does with them.
- ToInt: a JSON integer of more than 4300 digits makes `json.loads` raise before the cart is read. The model does not exclude such a `JInt`.
- `datetime.now()` is a parameter. That it yields 14 digits is a precondition of the order-number lemmas.
- Shop.NewestFirst: `order('created_at', desc=True)` is the reverse of insertion order. Orders are inserted in creation order, and equal timestamps are not modelled. The remote table generates `pesanan.id`, which the code never sees being made; the model assumes it hands out increasing ids, as a serial column does.
- Lookup.CheckoutStatusId: "first" is the table order of the rows; the remote query has no `order` clause.
- The profile, login, logout, dashboard, product list and product detail handlers (app.py:145-249) and `order_confirmation` (app.py:319-336) are left out: they only pass remote rows through.
- Requests are modelled one at a time. Two checkouts running at once could interleave their inserts, so the new order need not be the last `pesanan` row when its lines are written, as `Shop.Store.InsertLines` requires.
- Configuration loading at start-up (app.py:11-39) is left out. Whether the client exists is the `connected` field.
- The `current_user.is_authenticated` redirect and the GET branch of `signup()` are left out.
