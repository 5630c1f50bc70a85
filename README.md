# Online Grocery System — a Dafny model of its order lifecycle and page logic

This project models the core of the Online Grocery System, a Spring web shop with browser scripts.
It covers three parts.

- **The server's order lifecycle.**
  - Placing an order: shape checks, pricing, stock reservation line by line, and items that freeze their price.
  - Cancelling an order.
  - The return sub-states of each item, with the seven-day window.
  - The delivery status steps and the counters and badge of a delivery partner.
  - The online/offline session toggle.
  - The admin projections: unassigned and assigned orders, dashboard figures, status counts, user counts per role, and top products.
  - Notification scheduling, file-name cleaning, and user and partner updates.
- **The account and catalogue tables.**
  - Registration, login, and forgotten or reset passwords.
  - The product filters and the product, category and store inserts.
  - The user repository queries.
  - The `Order` and `User` constructor defaults.
- **The browser scripts' calculators and validators.**
  - The shop and customer carts, with their stock and single-store bounds.
  - The promo tables and the two total formulas.
  - The Luhn card check, expiry parsing and card brand.
  - The order list filters and the return window.
  - The delivery page's status guards, address joining and timeline.
  - The admin page's filters and forms.
  - The registration, login and reset-password checks.

How it is built:

- **Tables.** The server's tables are fields of one `Database.Db` object. Each is a `seq`, and the row at position `k` has id `k + 1`, as an IDENTITY column gives.
- **Entities.** `User` and `Order` are classes whose fields the controllers update in place. Other rows (items, products, stores, categories, sessions, notifications) are datatypes, and a change replaces the row.
- **Controllers.** Each controller's handlers are methods over a `Db`. A refused request is an `Err(Rejection(status, reason))` carrying the source's status and message.
- **Pages.** Each page script is a module. Its global variables, such as the cart, the promo rate or the loaded orders, are fields of a class. Its pure pieces are functions.
- **Money, time and inputs.**
  - Money is `real`.
  - Time is an `int` of milliseconds passed in as `now`.
  - Server replies and user confirmations are parameters.
- **Client and server together.** `Consistency` puts the pages and the controllers side by side. It proves where they agree, and where one side lets through what the other refuses.

The model follows the code as written, including:

- `placeOrder` keeps the order row and the earlier stock changes when a later line is refused.
- `cancelOrder` does not give stock back.
- Neither return handler checks the current return status.
- `assignOrder` checks neither the order's status nor the partner's availability.
- The delivery `updateStatus` does not check PICKED_UP.
- The stored total is the subtotal plus 13%, with no promo and no shipping.
- The shop page and the cart page compute their totals differently.

## Model

| member | source | states |
|---|---|---|
| OrderController.AcceptedLines | src/main/java/com/grocery/localgrocery/controller/OrderController.java:96-106 | the number of leading lines `placeOrder` accepts: every line before it has a positive quantity and enough stock left after the earlier lines, and the line at that position (if any) fails one of the two |
| OrderController.PriceLines | src/main/java/com/grocery/localgrocery/controller/OrderController.java:80-85 | the first loop: no subtotal exactly when some line names an unknown product, otherwise the sum of price times quantity |
| OrderController.SubtotalAppend | src/main/java/com/grocery/localgrocery/controller/OrderController.java:80-85 | the subtotal of two batches of lines is the sum of their subtotals |
| OrderController.ReservationsSubtract | src/main/java/com/grocery/localgrocery/controller/OrderController.java:104-110 | after the first `k` lines, each product's stock is its starting stock less what those lines asked of it, and every other field is untouched |
| OrderController.AcceptedStockNotNegative | src/main/java/com/grocery/localgrocery/controller/OrderController.java:104-110 | accepted lines never raise a stock level and never take one below zero |
| OrderController.ReservationsKeepPrices | src/main/java/com/grocery/localgrocery/controller/OrderController.java:109-110 | taking stock never changes a product's id, name or price |
| OrderController.ReserveLines | src/main/java/com/grocery/localgrocery/controller/OrderController.java:96-118 | the second loop: the product table after the accepted lines' reservations, one item row per accepted line, and the refusal of the first failing line ("quantity must be > 0" or "Not enough stock for: " and the name) |
| OrderController.LinesContent | src/main/java/com/grocery/localgrocery/controller/OrderController.java:112-117 | item row `j` records line `j`'s product and quantity and the price after line `j`'s own reservation |
| OrderController.ItemIdsAfterLines | src/main/java/com/grocery/localgrocery/controller/OrderController.java:117 | saving the new item rows keeps the item table numbered in order |
| OrderController.FrozenPrices | src/main/java/com/grocery/localgrocery/controller/OrderController.java:112-117 | each accepted line's item row belongs to the order, has the requested quantity and return status NONE, and its price is the product's price when the order was placed |
| OrderController.SaveOrder | src/main/java/com/grocery/localgrocery/controller/OrderController.java:75-94 | a fresh order row appended under the next id, with the constructor defaults, the subtotal, 13% tax on it, and a total that is subtotal plus tax, 113% of the subtotal |
| OrderController.SaveAndReserve | src/main/java/com/grocery/localgrocery/controller/OrderController.java:94-120 | the order is saved first; the stock changes and item rows of the accepted lines stay even when a later line is refused |
| OrderController.PlaceOrder | src/main/java/com/grocery/localgrocery/controller/OrderController.java:65-121 | refuses a missing userId, a blank address, no items, an unknown user and an unknown product with nothing written; otherwise the order row, the reservations, the item rows and the result are those of `SaveAndReserve` on the trimmed address, so the saved total is 113% of the lines' subtotal at current prices |
| OrderController.UpdateDeliveryNotes | src/main/java/com/grocery/localgrocery/controller/OrderController.java:125-131 | an unknown order is not found; otherwise only the order's notes change, to the value sent |
| OrderController.ReturnRefusal | src/main/java/com/grocery/localgrocery/controller/OrderController.java:143-165 | a return is accepted exactly when the item is in that order, its return status is NONE, the order is DELIVERED with a delivery time, and now is within seven days of it; every refusal is a 400 |
| OrderController.Requested | src/main/java/com/grocery/localgrocery/controller/OrderController.java:168-174 | an accepted return makes the item REQUESTED at now, records the reason sent and, as its description, the description sent followed by the policy under a "Policy:" label (a null printed as "null"), and sets the refund to price times quantity; nothing else of the item changes |
| OrderController.RequestReturn | src/main/java/com/grocery/localgrocery/controller/OrderController.java:135-185 | a missing item is not found; a refused request changes nothing; an accepted one rewrites only that item's row |
| OrderController.ReturnRequestedOnce | src/main/java/com/grocery/localgrocery/controller/OrderController.java:148-150 | an item whose return was accepted is refused when asked again |
| OrderController.Processed | src/main/java/com/grocery/localgrocery/controller/OrderController.java:207-208 | the item carries the status word sent, stamped with the time, and nothing else changes |
| OrderController.UpdateReturnStatus | src/main/java/com/grocery/localgrocery/controller/OrderController.java:195-217 | any status word is stored with no check of the current one; only REFUNDED touches the order, whose payment becomes REFUND_PROCESSED |
| OrderController.CancelRefusal | src/main/java/com/grocery/localgrocery/controller/OrderController.java:246-254 | cancelling is allowed exactly for the owner on a PLACED or ASSIGNED order; anybody else is forbidden |
| OrderController.CancelReason | src/main/java/com/grocery/localgrocery/controller/OrderController.java:260 | the stored reason is the customer's when given, otherwise "Customer requested cancellation" |
| OrderController.CancelOrder | src/main/java/com/grocery/localgrocery/controller/OrderController.java:239-271 | a cancelled order is CANCELLED, stamped, marked with the user and the reason, and its payment is CANCELLED; no stock is given back |
| OrderController.CancelOnce | src/main/java/com/grocery/localgrocery/controller/OrderController.java:250-257 | a cancelled order cannot be cancelled again, even by its owner |
| DeliveryController.OrdersOf | src/main/java/com/grocery/localgrocery/controller/DeliveryController.java:63 | exactly the orders assigned to the partner, in table order |
| DeliveryController.GetMyOrders | src/main/java/com/grocery/localgrocery/controller/DeliveryController.java:55-64 | an unknown user is not found and a user whose role is not DELIVERY is forbidden; a list comes back only for a DELIVERY user |
| DeliveryController.AssignOrder | src/main/java/com/grocery/localgrocery/controller/DeliveryController.java:68-84 | any existing order, whatever its status, goes to any existing DELIVERY user, available or not: partner set, status ASSIGNED, assignment time stamped; otherwise "Order not found", "Delivery person not found" or "User is not a delivery person" with the order untouched. The admin endpoint (AdminController.java:398-420) does the same with the same replies, and is this member too |
| DeliveryController.TransitionRefusal | src/main/java/com/grocery/localgrocery/controller/DeliveryController.java:101-106 | PAYMENT_RECEIVED needs PICKED_UP and DELIVERED needs PAYMENT_RECEIVED; every other word passes from any status |
| DeliveryController.PickedUpIsUnchecked | src/main/java/com/grocery/localgrocery/controller/DeliveryController.java:101-108 | a delivered or a cancelled order may be set back to PICKED_UP |
| DeliveryController.CheckedSteps | src/main/java/com/grocery/localgrocery/controller/DeliveryController.java:101-106 | for a stored status, DELIVERED passes only from PAYMENT_RECEIVED, and PAYMENT_RECEIVED only from PICKED_UP |
| DeliveryController.PerformanceBadge | src/main/java/com/grocery/localgrocery/controller/DeliveryController.java:278-291 | GOLD iff at least 100 deliveries and rating 4.5; else SILVER iff 50 and 4.0; else BRONZE iff 10; else none |
| DeliveryController.BadgeMonotone | src/main/java/com/grocery/localgrocery/controller/DeliveryController.java:278-291 | more deliveries and a higher rating never earn a lower badge |
| DeliveryController.UpdatePerformanceBadge | src/main/java/com/grocery/localgrocery/controller/DeliveryController.java:278-291 | the partner's badge is recomputed from their own count and rating |
| DeliveryController.UpdateStatus | src/main/java/com/grocery/localgrocery/controller/DeliveryController.java:88-132 | only the assigned partner may move the order; the word is stored once the checks pass; the time stamps and the COD flag follow it; on DELIVERED the partner has one more delivery, 50.00 more earned and a recomputed badge |
| DeliveryController.CloseOpenEffect | src/main/java/com/grocery/localgrocery/controller/DeliveryController.java:214-222 | going offline closes each open session of the partner at now, and leaves ids and other sessions alone |
| DeliveryController.CloseOpenIdempotent | src/main/java/com/grocery/localgrocery/controller/DeliveryController.java:214-222 | going offline a second time closes nothing more |
| DeliveryController.CloseSessions | src/main/java/com/grocery/localgrocery/controller/DeliveryController.java:218-222 | the closing loop yields the session table of `CloseOpen` |
| DeliveryController.SetOnlineStatus | src/main/java/com/grocery/localgrocery/controller/DeliveryController.java:199-227 | offline to online sets the flag and time and opens exactly one session; online to offline clears the flag and closes every open session; a request matching the current state changes nothing |
| DeliveryController.PeriodStart | src/main/java/com/grocery/localgrocery/controller/DeliveryController.java:239-245 | "daily" starts today, "weekly" six days earlier, both ignoring case; any other period has no start |
| DeliveryController.EarlierStartCountsMore | src/main/java/com/grocery/localgrocery/controller/DeliveryController.java:248-251 | a window that starts earlier holds at least as many deliveries |
| DeliveryController.GetEarningsSummary | src/main/java/com/grocery/localgrocery/controller/DeliveryController.java:231-269 | an unknown partner is not found, another period is a 400; otherwise the deliveries of the window, 50.00 for each, and incentives and bonus with null read as zero |
| DeliveryController.WeeklyCoversDaily | src/main/java/com/grocery/localgrocery/controller/DeliveryController.java:239-254 | the weekly summary never reports fewer deliveries or less earned than the daily one |
| AdminController.ProcessReturn | src/main/java/com/grocery/localgrocery/controller/AdminController.java:150-173 | an unknown item is "Return not found" and any action but APPROVED, REJECTED or REFUNDED is "Invalid action"; otherwise the item's return status becomes the action whatever it was, and only REFUNDED marks the order's payment REFUNDED |
| AdminController.UnassignedOrders | src/main/java/com/grocery/localgrocery/controller/AdminController.java:389-395 | exactly the orders with no partner that are neither DELIVERED nor CANCELLED, in table order |
| AdminController.AssignedOrders | src/main/java/com/grocery/localgrocery/controller/AdminController.java:424-429 | exactly the orders with a partner that are not DELIVERED, in table order |
| AdminController.ListsPartitionOpenOrders | src/main/java/com/grocery/localgrocery/controller/AdminController.java:389-429 | no order is on both lists, and every order neither delivered nor cancelled is on one |
| AdminController.AssignmentMovesOrder | src/main/java/com/grocery/localgrocery/controller/AdminController.java:413-415 | an order just assigned is on the assigned list and off the unassigned one |
| AdminController.RevenueAppend | src/main/java/com/grocery/localgrocery/controller/AdminController.java:59-61 | total revenue is additive over any split of the order table |
| AdminController.RevenueCoversEachOrder | src/main/java/com/grocery/localgrocery/controller/AdminController.java:59-61 | with no negative total, revenue is not negative and at least any single order's total |
| AdminController.GetDashboardStats | src/main/java/com/grocery/localgrocery/controller/AdminController.java:55-77 | revenue is the sum of totals, orders are counted, customers are the CUSTOMER count, and pending returns are the REQUESTED items |
| AdminController.OrdersByStatus | src/main/java/com/grocery/localgrocery/controller/AdminController.java:212-230 | one count per label PLACED, ASSIGNED, PICKED_UP, DELIVERED, CANCELLED, each the number of orders with that word |
| AdminController.StatusCountsWithinTotal | src/main/java/com/grocery/localgrocery/controller/AdminController.java:215-224 | the five counts add up to at most the number of orders |
| AdminController.TotalRemove | src/main/java/com/grocery/localgrocery/controller/AdminController.java:438-441 | the sum over a count map does not depend on the order of its keys |
| AdminController.TotalBump | src/main/java/com/grocery/localgrocery/controller/AdminController.java:441 | counting one more under a key adds one to the sum |
| AdminController.RoleCountsSumToTotal | src/main/java/com/grocery/localgrocery/controller/AdminController.java:440-445 | the per-role counts add up to the number of users |
| AdminController.RoleCountIsRoleQuery | src/main/java/com/grocery/localgrocery/controller/AdminController.java:440-442 | each role's count is the number of users with that role word |
| AdminController.GetUserStats | src/main/java/com/grocery/localgrocery/controller/AdminController.java:433-448 | the loop yields the role counts and the total, and the counts sum to the total |
| AdminController.AddSaleShape | src/main/java/com/grocery/localgrocery/controller/AdminController.java:472-475 | counting a sold line bumps its product's one entry by the quantity, or appends a new entry |
| AdminController.NoSaleNoQuantity | src/main/java/com/grocery/localgrocery/controller/AdminController.java:472-475 | a product that no row sold has quantity zero |
| AdminController.TallyCounts | src/main/java/com/grocery/localgrocery/controller/AdminController.java:469-475 | the tally has one entry per sold product and no other, each with the product's total quantity |
| AdminController.InsertSorted | src/main/java/com/grocery/localgrocery/controller/AdminController.java:479 | inserting into a list sorted largest first keeps it sorted |
| AdminController.InsertListed | src/main/java/com/grocery/localgrocery/controller/AdminController.java:479 | inserting a new product keeps one entry per product and adds no other product |
| AdminController.SortByCount | src/main/java/com/grocery/localgrocery/controller/AdminController.java:478-479 | the sort is a permutation of its input, largest count first |
| AdminController.SortKeepsIds | src/main/java/com/grocery/localgrocery/controller/AdminController.java:478-479 | sorting keeps one entry per product and lists no new product |
| AdminController.PermutedTallies | src/main/java/com/grocery/localgrocery/controller/AdminController.java:478-479 | a reordered tally is still a tally of the same rows |
| AdminController.Kept | src/main/java/com/grocery/localgrocery/controller/AdminController.java:480 | the stream keeps `limit` entries, or all of them when there are fewer |
| AdminController.GetTopProducts | src/main/java/com/grocery/localgrocery/controller/AdminController.java:467-488 | a negative limit makes the stream throw; otherwise the tally sorted by count and cut to the limit |
| AdminController.TopProductsMeaning | src/main/java/com/grocery/localgrocery/controller/AdminController.java:467-488 | at most `limit` entries, largest first, one per product, only sold products with their total quantities; a product left off sold no more than any listed one, and all are listed when fewer than the limit exist |
| AdminController.RankingPrefix | src/main/java/com/grocery/localgrocery/controller/AdminController.java:479-480 | any prefix of the ranked tally lists its best sellers |
| AdminController.StatusFor | src/main/java/com/grocery/localgrocery/controller/AdminController.java:278-283 | SCHEDULED exactly when a send time is given and later than now, otherwise SENT |
| AdminController.TargetUsers | src/main/java/com/grocery/localgrocery/controller/AdminController.java:303-314 | CUSTOMERS gives the customers, DELIVERY the partners, and ALL or any other word every user |
| AdminController.LogsFor | src/main/java/com/grocery/localgrocery/controller/AdminController.java:292-298 | one log row per target, in target order, numbered on, for this notification at now |
| AdminController.AppendLogs | src/main/java/com/grocery/localgrocery/controller/AdminController.java:292-298 | the loop appends exactly the rows of `LogsFor` and keeps the log table numbered |
| AdminController.SendNotification | src/main/java/com/grocery/localgrocery/controller/AdminController.java:267-301 | the notification is saved first; a SENT one gets one log per target user, a SCHEDULED one none; a missing audience throws after the save |
| AdminController.LogsMatchTargets | src/main/java/com/grocery/localgrocery/controller/AdminController.java:289-299 | a sent notification logs every target of its audience and nobody else |
| AdminController.SanitizeFileName | src/main/java/com/grocery/localgrocery/controller/AdminController.java:336-337 | a missing name becomes "image"; otherwise the same length, every character outside letters, digits, '.' and '-' replaced by '_' |
| AdminController.Sanitize | src/main/java/com/grocery/localgrocery/controller/AdminController.java:337 | position by position, a safe character is kept and any other becomes '_' |
| AdminController.SanitizeIdempotent | src/main/java/com/grocery/localgrocery/controller/AdminController.java:336-337 | a cleaned name holds only safe characters and '_', and cleaning it again changes nothing |
| AdminController.ImageUrl | src/main/java/com/grocery/localgrocery/controller/AdminController.java:330-343 | the stored URL is the upload folder, the random prefix, '_' and the cleaned name |
| AdminController.ApplyPartnerFields | src/main/java/com/grocery/localgrocery/controller/AdminController.java:537-542 | each non-null partner field overwrites the stored one; the others stay |
| AdminController.UpdateUser | src/main/java/com/grocery/localgrocery/controller/AdminController.java:530-548 | an unknown user is not found; a non-null name or phone overwrites, the partner fields only for a DELIVERY user, and the update time is stamped; an `isAvailable` left out of the body arrives as true, so it makes a DELIVERY user available |
| AdminController.PartnerRefusal | src/main/java/com/grocery/localgrocery/controller/AdminController.java:454-461 | a taken e-mail is a 409; a missing name or phone is a 500 from the NOT NULL columns at the save; otherwise the row is saved |
| AdminController.AddDeliveryPartner | src/main/java/com/grocery/localgrocery/controller/AdminController.java:452-463 | nothing saved on a `PartnerRefusal`; otherwise the body saved as sent under the next id with role DELIVERY: name, phone, vehicle, location and the availability flag (true when left out), and the entity defaults for rating and deliveries |
| AdminController.ToggleAvailability | src/main/java/com/grocery/localgrocery/controller/AdminController.java:552-567 | an unknown user is not found and a non-DELIVERY user is a 400; otherwise only the availability flag changes, to the value sent |
| AuthController.RegisterRefusal | src/main/java/com/grocery/localgrocery/controller/AuthController.java:39-53 | in order: missing e-mail or password, blank phone, a taken e-mail (409), a password equal to the e-mail ignoring case |
| AuthController.RoleFor | src/main/java/com/grocery/localgrocery/controller/AuthController.java:58 | the role stored is the one sent, whatever word it is, or CUSTOMER |
| AuthController.Register | src/main/java/com/grocery/localgrocery/controller/AuthController.java:38-65 | a refused body saves nothing; otherwise a new user with the sent e-mail, password, role, name and phone is saved under the next id, with the entity defaults: available, rating 5.0, no deliveries, created and updated now, no reset token, no vehicle or location, zero earnings, incentives and bonus, no badge, offline |
| AuthController.Login | src/main/java/com/grocery/localgrocery/controller/AuthController.java:69-78 | success exactly when the e-mail's user has the password sent; an unknown e-mail and a wrong password give the same 401 |
| AuthController.FindAppended | src/main/java/com/grocery/localgrocery/controller/AuthController.java:46-64 | a user saved under a free e-mail is the one that e-mail finds |
| AuthController.RegisteredCanLogIn | src/main/java/com/grocery/localgrocery/controller/AuthController.java:38-78 | whoever registered can log in with the e-mail and password they registered |
| AuthController.ForgotPassword | src/main/java/com/grocery/localgrocery/controller/AuthController.java:86-102 | the same reply whether or not the e-mail is known; a known user gets the fresh token, valid for one hour |
| AuthController.ResetRefusal | src/main/java/com/grocery/localgrocery/controller/AuthController.java:112-122 | in order: the lookup's server error when several users hold the token, "Invalid or expired token" when nobody does, "Token expired" for a missing or past expiry, then the new password equal to the e-mail ignoring case |
| AuthController.ResetPassword | src/main/java/com/grocery/localgrocery/controller/AuthController.java:111-131 | an accepted reset sets the password of the one user the lookup finds and clears the token and its expiry; a refused one changes nothing |
| AuthController.IssuedTokenWorks | src/main/java/com/grocery/localgrocery/controller/AuthController.java:87-122 | a token from `forgotPassword`, held by no other row, finds that row and resets the password within its hour to any password other than the e-mail |
| AuthController.UsedTokenIsDead | src/main/java/com/grocery/localgrocery/controller/AuthController.java:112-127 | once a reset cleared a user's token and expiry, no token finds that user, and the null token, which can find them, ends in "Token expired" |
| AuthController.NullTokenRefused | src/main/java/com/grocery/localgrocery/controller/AuthController.java:112-116 | while every user without a token has no expiry, a body without a token is always refused: "Invalid or expired token" with no such user, "Token expired" with one, a 500 with several |
| ProductController.QueryTerm | src/main/java/com/grocery/localgrocery/controller/ProductController.java:49-50 | no term when `q` is null or blank; otherwise `q` trimmed and lower-cased |
| ProductController.Select | src/main/java/com/grocery/localgrocery/controller/ProductController.java:37-55 | the products passing every given filter, in repository order |
| ProductController.CategoryStep | src/main/java/com/grocery/localgrocery/controller/ProductController.java:39-43 | the category filter first, then the others, is the same as all at once |
| ProductController.StoreStep | src/main/java/com/grocery/localgrocery/controller/ProductController.java:44-48 | the store filter first, then the query, is the same as both at once |
| ProductController.NameStep | src/main/java/com/grocery/localgrocery/controller/ProductController.java:49-54 | the name filter keeps the products whose lower-cased name contains the term |
| ProductController.NoFilterSelectsAll | src/main/java/com/grocery/localgrocery/controller/ProductController.java:37-55 | with no filters, or a blank query, every product is kept |
| ProductController.FiltersCompose | src/main/java/com/grocery/localgrocery/controller/ProductController.java:33-56 | the three filters in sequence keep exactly the products passing all of them, in repository order |
| ProductController.NoFiltersIsAll | src/main/java/com/grocery/localgrocery/controller/ProductController.java:37-55 | with no filter and a blank or missing query, `getAll` is the whole table |
| ProductController.CreateRefusal | src/main/java/com/grocery/localgrocery/controller/ProductController.java:68-88 | in order: a blank name, a negative price, a negative stock, a missing category or store id, an unknown store, an unknown category |
| ProductController.Create | src/main/java/com/grocery/localgrocery/controller/ProductController.java:67-98 | a refused body saves nothing; otherwise a product with the trimmed name, the price, the stock and the looked-up store and category is saved under the next id |
| CategoryController.FindByNameIgnoreCase | src/main/java/com/grocery/localgrocery/controller/CategoryController.java:36 | the category whose name equals the given one ignoring case, or none when no name does |
| CategoryController.CreateRefusal | src/main/java/com/grocery/localgrocery/controller/CategoryController.java:30-38 | a null or blank name is a 400, a name already present ignoring case is a 409, and anything else is accepted |
| CategoryController.Create | src/main/java/com/grocery/localgrocery/controller/CategoryController.java:29-41 | a refused name changes nothing; otherwise the trimmed name is saved under the next id, and names stay distinct ignoring case |
| CategoryController.SaveCategory | src/main/java/com/grocery/localgrocery/controller/CategoryController.java:40 | the new category is appended under the next id |
| CategoryController.AppendKeepsDistinct | src/main/java/com/grocery/localgrocery/controller/CategoryController.java:36-40 | a name found nowhere, appended, keeps the names distinct ignoring case |
| CategoryController.SecondSpellingRefused | src/main/java/com/grocery/localgrocery/controller/CategoryController.java:34-37 | two names differing only in case or surrounding blanks cannot both be created |
| StoreController.GetAll | src/main/java/com/grocery/localgrocery/controller/StoreController.java:22-24 | the store table: numbered in order, no two stores with one name |
| StoreController.LocationFor | src/main/java/com/grocery/localgrocery/controller/StoreController.java:39 | the location is trimmed, or empty when none is sent |
| StoreController.Create | src/main/java/com/grocery/localgrocery/controller/StoreController.java:32-46 | a null or blank name is a 400; a name already stored is a 409 with nothing saved; otherwise the store with the trimmed name and location is saved last |
| StoreController.NameTaken | src/main/java/com/grocery/localgrocery/controller/StoreController.java:41-45 | the unique name column is hit exactly when some stored row has the same name |
| StoreController.SaveStore | src/main/java/com/grocery/localgrocery/controller/StoreController.java:42 | a store whose name is free is appended under the next id, and names stay unique |
| UserRepository.FindByEmail | src/main/java/com/grocery/localgrocery/repository/UserRepository.java:12 | the user holding the e-mail, or none when nobody does |
| UserRepository.ExistsIffFound | src/main/java/com/grocery/localgrocery/repository/UserRepository.java:39 | `existsByEmail` holds exactly when `findByEmail` finds someone |
| UserRepository.TokenHolders | src/main/java/com/grocery/localgrocery/repository/UserRepository.java:20 | the rows whose token column equals the argument, in table order; a null argument selects the rows with a null token (IS NULL) |
| UserRepository.FindByResetToken | src/main/java/com/grocery/localgrocery/repository/UserRepository.java:20 | no row exactly when nobody holds the token, the holder when exactly one does, a 500 when several do (a single-result query) |
| UserRepository.SoleHolder | src/main/java/com/grocery/localgrocery/repository/UserRepository.java:20 | a token held by one row only finds that row |
| UserRepository.FindByRole | src/main/java/com/grocery/localgrocery/repository/UserRepository.java:15 | exactly the users with that role, in table order |
| UserRepository.CountIsListSize | src/main/java/com/grocery/localgrocery/repository/UserRepository.java:15-18 | the role count is the size of the role list |
| UserRepository.FindByRoles | src/main/java/com/grocery/localgrocery/repository/UserRepository.java:35-36 | exactly the users whose role is among the given ones, in table order |
| UserRepository.FindByOneRole | src/main/java/com/grocery/localgrocery/repository/UserRepository.java:15-36 | the list query on one role is the single-role query |
| UserRepository.FindDeliveryByAvailability | src/main/java/com/grocery/localgrocery/repository/UserRepository.java:42-43 | exactly the DELIVERY users with that availability, in table order |
| UserRepository.FindAvailableDeliveryPersons | src/main/java/com/grocery/localgrocery/repository/UserRepository.java:23-24 | exactly the available DELIVERY users, in table order |
| UserRepository.AvailabilitySplitsPartners | src/main/java/com/grocery/localgrocery/repository/UserRepository.java:42-43 | available and unavailable partners together are all the partners |
| UserRepository.SearchUsers | src/main/java/com/grocery/localgrocery/repository/UserRepository.java:31-32 | exactly the users whose lower-cased name or e-mail contains the lower-cased term, in table order |
| UserRepository.SearchEmptyIsAll | src/main/java/com/grocery/localgrocery/repository/UserRepository.java:31-32 | the empty term matches every user |
| UserRepository.DeliveryPersonsWithStats | src/main/java/com/grocery/localgrocery/repository/UserRepository.java:27-28 | one pair per DELIVERY user, in table order (the first components are exactly `FindByRole` for DELIVERY), each with the number of orders whose partner they are; every partner appears |
| UserEntity.User.constructor | src/main/java/com/grocery/localgrocery/entity/User.java:43-90 | a new user is available, rated 5.0, with no deliveries, zero earnings, incentives and bonus, no badge, offline, and created and updated now |
| OrderEntity.Order.constructor | src/main/java/com/grocery/localgrocery/entity/Order.java:86-95 | a new order is PLACED now, with zero amounts, cash on delivery, payment PENDING, no partner and no later time stamps |
| OrderEntity.Order.SetCancelledReason | src/main/java/com/grocery/localgrocery/entity/Order.java:144 | the reason setter writes the `cancelReason` column, which the getter reads back |
| Statuses.ParseOrderStatus | src/main/java/com/grocery/localgrocery/entity/Order.java:26 | the stored status word read as a status, keeping any unknown word |
| Statuses.OrderStatusRoundTrip | src/main/java/com/grocery/localgrocery/entity/Order.java:26 | a known status read back from its word is itself, and reading always gives a known status or the word kept |
| Statuses.ParseRole | src/main/java/com/grocery/localgrocery/entity/User.java:23 | the role word read as a role: one of ADMIN, CUSTOMER, DELIVERY, or the word kept; the result is canonical |
| Statuses.RoleNameDecides | src/main/java/com/grocery/localgrocery/controller/DeliveryController.java:75 | for canonical roles, equal roles and equal role words are the same thing, so the queries matching `Delivery` and the controllers matching the word "DELIVERY" agree |
| Database.Db.UserById | src/main/java/com/grocery/localgrocery/repository/UserRepository.java:9 | `findById`: the row with that id, or none when no row has it |
| Database.Db.InsertUser | src/main/java/com/grocery/localgrocery/repository/UserRepository.java:9 | `save` of a new user: appended under the next id, e-mails stay unique |
| Database.Db.OrderById | src/main/java/com/grocery/localgrocery/repository/OrderRepository.java:6 | `findById` on orders: the row with that id, or none when no row has it |
| Database.Db.ProductById | src/main/java/com/grocery/localgrocery/repository/ProductRepository.java:6 | `findById` on products: the row with that id, or none when no row has it |
| Database.Db.StoreById | src/main/java/com/grocery/localgrocery/repository/StoreRepository.java:8 | `findById` on stores: the row with that id, or none when no row has it |
| AdminController.CountReturnStatus | src/main/java/com/grocery/localgrocery/controller/AdminController.java:73-76 | the number of item rows with that return status, never more than the rows |
| AdminController.CountStatus | src/main/java/com/grocery/localgrocery/controller/AdminController.java:215-224 | the number of orders with that status word, never more than the orders |
| AdminController.SaveNotification | src/main/java/com/grocery/localgrocery/controller/AdminController.java:286 | the notification is appended under the next id |
| AdminController.SaveLogs | src/main/java/com/grocery/localgrocery/controller/AdminController.java:289-299 | the log table holds the given rows, numbered in order |
| DeliveryController.CloseOpen | src/main/java/com/grocery/localgrocery/controller/DeliveryController.java:218-222 | the session table keeps its length when a partner goes offline |
| DeliveryController.DeliveredCount | src/main/java/com/grocery/localgrocery/controller/DeliveryController.java:248-254 | the partner's deliveries in a window, never more than the orders |
| ClientCart.FirstWith | src/main/resources/static/js/shop.js:107 | `cart.find` by product: the first line holding it, or -1 when no line does |
| ClientCart.WithoutProduct | src/main/resources/static/js/shop.js:136 | `cart.filter`: every line of other products is kept, in order, and no line of this one |
| ClientCart.CountUpdate | src/main/resources/static/js/shop.js:113 | changing one line's quantity moves the badge count by the difference |
| ClientCart.CountWithout | src/main/resources/static/js/shop.js:135-136 | removing a product takes exactly its quantity off the badge count |
| ShopPage.CartStoreId | src/main/resources/static/js/shop.js:296-299 | no store exactly when no line names one; otherwise the store of some line (the first that has one) |
| ShopPage.AddToCartStep | src/main/resources/static/js/shop.js:99-118 | refused for another store exactly when both store ids are truthy and differ; refused for stock exactly when the existing line would pass the stock; a refusal keeps the cart; an add grows the count by one, on the existing line or a new line of one |
| ShopPage.AddKeepsOneStore | src/main/resources/static/js/shop.js:99-118 | with real store ids, adding keeps the cart to one store and one line per product |
| ShopPage.DecStep | src/main/resources/static/js/shop.js:120-126 | an unknown product changes nothing; the first line loses one; at zero every line of the product goes and the other lines keep their order |
| ShopPage.IncStep | src/main/resources/static/js/shop.js:128-133 | an unknown product changes nothing; otherwise the first line gains one, with no stock check |
| ShopPage.PromoFor | src/main/resources/static/js/shop.js:209-229 | the trimmed, upper-cased code: empty clears, NEPAL10 is 10%, FREESHIP 5%, anything else resets to 0 with "Invalid promo code."; the rate is always below 1 |
| ShopPage.ShopTotals | src/main/resources/static/js/shop.js:192-207 | the discount comes off the subtotal first and tax is 13% of what is left, so the total is subtotal times (1 - rate) times 1.13 |
| ShopPage.DiscountNeverRaisesTotal | src/main/resources/static/js/shop.js:198-202 | a larger discount never shows a larger total |
| ShopPage.LuhnCheck | src/main/resources/static/js/shop.js:242-256 | the loop from the last digit accepts exactly 12 to 19 digits, whitespace deleted, whose Luhn sum is a multiple of ten |
| ShopPage.LuhnChange | src/main/resources/static/js/shop.js:246-254 | changing one digit changes the sum by the difference of that position's weights |
| ShopPage.SingleDigitErrorDetected | src/main/resources/static/js/shop.js:242-256 | mistyping any one digit of a valid number makes it fail the check |
| ShopPage.LastDay | src/main/resources/static/js/shop.js:269 | the last day of a month is between 28 and 31 |
| ShopPage.TwoDigitValue | src/main/resources/static/js/shop.js:262-263 | two digits read as a number below 100 that writes back to the same two digits |
| ShopPage.ExpText | src/main/resources/static/js/shop.js:260 | an MM/YY text is its two numbers written back around the slash |
| ShopPage.ParseExp | src/main/resources/static/js/shop.js:258-273 | accepts exactly a trimmed text of two digits, slash, two digits, with a month from 1 to 12 whose last second is not yet past; the month and year come back |
| ShopPage.CardBrand | src/main/resources/static/js/shop.js:275-281 | on the number with whitespace deleted: VISA for a leading 4, MASTERCARD for 51 to 55, AMEX for 34 or 37, otherwise CARD |
| ShopPage.Last4 | src/main/resources/static/js/shop.js:293 | `slice(-4)`: the last four characters, or the whole text when shorter |
| ShopPage.ValidateCard | src/main/resources/static/js/shop.js:283-294 | the message of the first failing check (number, expiry, CVV), or the brand and the last four digits |
| ShopPage.LineRequests | src/main/resources/static/js/shop.js:331 | one line per cart line, carrying its product and quantity |
| ShopPage.PromoCode | src/main/resources/static/js/shop.js:306 | null for an empty field, otherwise the trimmed, upper-cased code |
| ShopPage.CardFor | src/main/resources/static/js/shop.js:309-326 | a card summary only for card payment: the brand, the last four digits and the trimmed expiry, never the CVV |
| ShopPage.OrderPayload | src/main/resources/static/js/shop.js:301-335 | a blank address, then an empty cart, then bad card details stop the order with their messages; otherwise the body holds the trimmed address, the cart's lines, the promo code, the method and the card |
| ShopPage.Shop.constructor | src/main/resources/static/js/shop.js:6-16 | the page starts from the stored cart with no promo |
| ShopPage.Shop.AddToCart | src/main/resources/static/js/shop.js:99-118 | the cart and the outcome are those of `AddToCartStep` |
| ShopPage.Shop.DecQty | src/main/resources/static/js/shop.js:120-126 | the cart becomes `DecStep` of the old cart, so the lines it keeps stay in order |
| ShopPage.Shop.IncQty | src/main/resources/static/js/shop.js:128-133 | the cart becomes `IncStep` of the old cart |
| ShopPage.Shop.RemoveFromCart | src/main/resources/static/js/shop.js:135-138 | every line of the product goes, the remaining lines are the old ones in their order, and the count drops by exactly their quantity |
| ShopPage.Shop.ClearCart | src/main/resources/static/js/shop.js:140-143 | the cart is empty |
| ShopPage.Shop.ApplyPromo | src/main/resources/static/js/shop.js:209-229 | the rate and the message are those `PromoFor` gives for the field |
| ShopPage.Shop.Totals | src/main/resources/static/js/shop.js:192-207 | the shown figures are `ShopTotals` of the cart at the current rate |
| ShopPage.Shop.PlaceOrder | src/main/resources/static/js/shop.js:301-353 | a refused pre-check sends nothing and keeps the cart; otherwise the body of `OrderPayload` is sent, and only an accepted order clears the cart and the promo |
| ShopPage.Shop.Settle | src/main/resources/static/js/shop.js:343-353 | a failure keeps cart and promo with "Order failed (check stock / server)."; a success clears both |
| CartPage.OrderSummary | src/main/resources/static/js/cart.js:113-117 | tax and discount are both taken on the undiscounted subtotal, and 50 shipping is always added: total = 50 + subtotal times (1.13 - rate) |
| CartPage.EmptyCartPaysShipping | src/main/resources/static/js/cart.js:113-117 | an empty cart shows the shipping fee as its total |
| CartPage.CartPromoRate | src/main/resources/static/js/cart.js:126-143 | the upper-cased code as typed: WELCOME10 10%, SAVE20 20%, FREESHIP 5%, anything else 0 |
| CartPage.PaddedCodeRefused | src/main/resources/static/js/cart.js:127 | a code typed with a leading space is never found, since the field is not trimmed |
| CartPage.SpliceOne | src/main/resources/static/js/cart.js:101 | `splice(index, 1)`: an index in range removes that line, a negative one counts from the end, one past the end removes nothing |
| CartPage.CountSplice | src/main/resources/static/js/cart.js:101 | removing a line takes exactly its quantity off the count |
| CartPage.SpliceKeepsOrder | src/main/resources/static/js/cart.js:101 | the lines before the index stay put and those after move up by one |
| CartPage.ItemPairs | src/main/resources/static/js/cart.js:234-237 | one product and quantity pair per cart line, in cart order |
| CartPage.Cart.constructor | src/main/resources/static/js/cart.js:2-3 | the page starts from the stored cart with no promo |
| CartPage.Cart.Summary | src/main/resources/static/js/cart.js:145-146 | the shown figures are `OrderSummary` of the cart's subtotal at the current rate |
| CartPage.Cart.RemoveItem | src/main/resources/static/js/cart.js:99-105 | only a confirmed removal splices the cart |
| CartPage.Cart.UpdateQuantity | src/main/resources/static/js/cart.js:81-96 | a quantity that would drop below one takes the removal path; otherwise that line's quantity changes and the count by exactly the change |
| CartPage.Cart.ApplyPromoCode | src/main/resources/static/js/cart.js:126-147 | the rate becomes `CartPromoRate` of the field, and the summary is recomputed |
| CartPage.Cart.PlaceOrder | src/main/resources/static/js/cart.js:217-279 | no user, then a blank address, stop the order; otherwise the untrimmed address, the lines and the summary's figures are sent with no empty-cart check, and only success empties the cart |
| CustomerPage.FindProduct | src/main/resources/static/js/customer.js:284 | the product with that id, or none when no product has it |
| CustomerPage.CustomerAdd | src/main/resources/static/js/customer.js:283-313 | an unknown product does nothing, one out of stock and a line already at the stock are refused with the cart kept; otherwise the count grows by one |
| CustomerPage.AddKeepsWithinStock | src/main/resources/static/js/customer.js:287-299 | adding never pushes a line of a known product above its stock |
| CustomerPage.Catalogue.constructor | src/main/resources/static/js/customer.js:1-5 | the page starts from the loaded products and the stored cart |
| CustomerPage.Catalogue.AddToCart | src/main/resources/static/js/customer.js:283-313 | the cart and the outcome are those of `CustomerAdd` |
| CustomerPage.Catalogue.CartBadge | src/main/resources/static/js/customer.js:319-325 | the badge is the sum of the quantities |
| CustomerPage.ApplyFilters | src/main/resources/static/js/customer.js:327-364 | exactly the products that pass the price, stock, category, store and query checks, in catalogue order |
| CustomerPage.OpenPanelShowsAll | src/main/resources/static/js/customer.js:339-361 | with the panel wide open every product is shown, in order |
| CustomerPage.UncategorisedPassesCategoryFilter | src/main/resources/static/js/customer.js:343-345 | a product with no category passes whatever categories are ticked |
| CustomerPage.MoreCategoriesShowMore | src/main/resources/static/js/customer.js:343-345 | once a category is ticked, ticking more never hides a product |
| CustomerPage.GroupLength | src/main/resources/static/js/customer.js:395 | grouping adds one comma per full group of three after the first digit |
| CustomerPage.GroupIsPattern | src/main/resources/static/js/customer.js:395 | the recursive grouping puts commas exactly where the page's regular expression does |
| CustomerPage.UngroupGroup | src/main/resources/static/js/customer.js:395 | deleting the commas gives back the digits |
| CustomerPage.FormatPrice | src/main/resources/static/js/customer.js:393-396 | a point and exactly two decimals whose value is the paisa remainder, after the whole rupees grouped with commas by `CommaAfter` (the page's pattern: a comma after every digit followed by a positive multiple of three digits), which read back, commas deleted, as the amount's integer part |
| CustomerPage.GenerateStars | src/main/resources/static/js/customer.js:398-407 | the loop gives five icons, icon `i` being the one picked for position `i` |
| CustomerPage.StarsLayout | src/main/resources/static/js/customer.js:398-407 | for a rating from 0 to 5: full stars up to its floor, one half star right after when it is fractional, empty ones after that |
| CustomerPage.FirstKey | src/main/resources/static/js/customer.js:425-427 | the first key the lower-cased name contains, or -1 when it contains none |
| CustomerPage.FirstIcon | src/main/resources/static/js/customer.js:425-428 | that key's icon, or the basket |
| CustomerPage.CategoryIcon | src/main/resources/static/js/customer.js:409-429 | a null or empty name gets the basket |
| CustomerPage.FruitsKeyWins | src/main/resources/static/js/customer.js:410-427 | any name containing "fruits" in any case gets the fruit icon, whatever later key it also holds |
| CustomerPage.HeadKeyWins | src/main/resources/static/js/customer.js:425-427 | the first row decides whenever the name contains its key |
| OrdersPage.TabOrders | src/main/resources/static/js/orders.js:73-83 | exactly the orders the tab lists, in the answer's order |
| OrdersPage.AllTabIsEverything | src/main/resources/static/js/orders.js:74 | the "all" tab is the whole history, in order |
| OrdersPage.TabsDisjoint | src/main/resources/static/js/orders.js:75-78 | the delivered and pending tabs share no order, and a paid but undelivered order is on neither |
| OrdersPage.ReturnButtonRule | src/main/resources/static/js/orders.js:183-186 | the return button shows only on a delivered order's line with no return, and always on such a line never requested |
| OrdersPage.StatusLabel | src/main/resources/static/js/orders.js:110-116 | PLACED, ASSIGNED, PICKED_UP, DELIVERED and CANCELLED get "Order Placed", "Assigned to Delivery", "Picked Up", "Delivered" and "Cancelled"; any other is shown as it is |
| OrdersPage.AmountShown | src/main/resources/static/js/orders.js:118 | the stored total unless it is null or zero, else subtotal plus tax |
| OrdersPage.AmountIsTotal | src/main/resources/static/js/orders.js:118 | for a total priced as subtotal plus tax, the fallback never changes the amount |
| OrdersPage.MergeLine | src/main/resources/static/js/orders.js:368-381 | an order line adds its quantity to the product's first cart line, or is appended |
| OrdersPage.MergeLineAdds | src/main/resources/static/js/orders.js:368-381 | merging one line adds its quantity to that product and to the count, and nothing to any other product |
| OrdersPage.MergeAllAdds | src/main/resources/static/js/orders.js:368-381 | after "buy again", each product holds what it held plus what the order had, and the count grows by the order's whole quantity |
| OrdersPage.Reorder | src/main/resources/static/js/orders.js:366-383 | the loop over the order lines yields `MergeAll` of the stored cart, with the count grown by the order's quantity |
| OrdersPage.Hits | src/main/resources/static/js/orders.js:408-427 | exactly the orders whose id, a line's product name or the address contains the term, in order |
| OrdersPage.SearchOrders | src/main/resources/static/js/orders.js:399-427 | the box lower-cased then trimmed: empty shows the current tab again, anything else searches the whole history |
| OrdersPage.SearchByNumber | src/main/resources/static/js/orders.js:410 | an order's number finds it, whatever tab is open |
| OrdersPage.IconIn | src/main/resources/static/js/orders.js:219-239 | the icon of the first group with a keyword in the lower-cased name, else the box |
| OrdersPage.RiceBeforeOil | src/main/resources/static/js/orders.js:222-225 | a name with "rice" gets the seedling even when it holds "oil" too |
| DeliveryPage.StatusCheck | src/main/resources/static/js/delivery.js:415-440 | PICKED_UP needs ASSIGNED, PAYMENT_RECEIVED needs PICKED_UP, DELIVERED needs PAYMENT_RECEIVED, and a cash payment needs the box ticked; a passing check gives the `codCollected` value sent |
| DeliveryPage.IndexOfOrder | src/main/resources/static/js/delivery.js:462 | `findIndex`: the first position holding the order, or -1 |
| DeliveryPage.TabOrders | src/main/resources/static/js/delivery.js:726-735 | exactly the orders the tab shows, in list order |
| DeliveryPage.ActiveCount | src/main/resources/static/js/delivery.js:140-142 | the active box counts at most every order |
| DeliveryPage.CompletedCount | src/main/resources/static/js/delivery.js:149-151 | the completed box counts at most every order |
| DeliveryPage.CountsPartition | src/main/resources/static/js/delivery.js:139-151 | active, completed and cancelled count every order once, so cancelled orders are in neither box |
| DeliveryPage.TabsSplit | src/main/resources/static/js/delivery.js:730-734 | the active and completed tabs split the list, and the active tab holds as many as the active box |
| DeliveryPage.Board.constructor | src/main/resources/static/js/delivery.js:3-5 | the board starts from the loaded orders with nothing selected |
| DeliveryPage.Board.FilterOrders | src/main/resources/static/js/delivery.js:726-739 | the tab's subset is rendered, then the list is exactly as before |
| DeliveryPage.Board.UpdateStatus | src/main/resources/static/js/delivery.js:409-479 | no selection sends nothing; a client check or an unconfirmed step sends nothing; the answer replaces only that order in the list, and a failure changes nothing |
| DeliveryPage.ButtonsFor | src/main/resources/static/js/delivery.js:235-260 | pick-up is usable exactly on ASSIGNED, deliver exactly on PAYMENT_RECEIVED, cancel except on CANCELLED or DELIVERED, and the COD box shows only with the payment button on a cash order |
| DeliveryPage.ButtonsMatchGuards | src/main/resources/static/js/delivery.js:235-260 | a usable button's step passes the page's check, a cash payment also needing its box, and a step whose button is unusable is refused |
| DeliveryPage.BadgeColor | src/main/resources/static/js/delivery.js:507-514 | GOLD, SILVER and BRONZE get #FFD700, #C0C0C0 and #CD7F32; exactly every other badge is white |
| DeliveryPage.AddressParts | src/main/resources/static/js/delivery.js:291-298 | the present parts, none empty; none only when no address field is present |
| DeliveryPage.FullAddress | src/main/resources/static/js/delivery.js:289-300 | no order gives nothing; otherwise the present parts joined with ", " |
| DeliveryPage.JoinEmptyIff | src/main/resources/static/js/delivery.js:299 | joining non-empty parts is empty exactly when there are none |
| DeliveryPage.FullAddressEmptyIff | src/main/resources/static/js/delivery.js:289-300 | the map link's address is empty exactly when the order has no address field |
| DeliveryPage.StructuredAddress | src/main/resources/static/js/delivery.js:303-331 | "Address not specified" exactly when no field is present; otherwise one row per present field, in the order recipient, phone, street, area line, postal code, landmark, each with its heading and value |
| DeliveryPage.AreaLine | src/main/resources/static/js/delivery.js:315-318 | an area line exactly when city, district or province is present: the present ones joined by ", " |
| DeliveryPage.AddRow | src/main/resources/static/js/delivery.js:306-324 | a row is added exactly for a present value, with its heading |
| DeliveryPage.StatusIndex | src/main/resources/static/js/delivery.js:345-346 | `indexOf` in the five steps: the step's position, or -1 for a status not among them |
| DeliveryPage.Timeline | src/main/resources/static/js/delivery.js:333-366 | five step classes: a stamped step is completed; an unstamped one is active at the status's own step, completed before it and pending after it |
| DeliveryPage.TimelineProgress | src/main/resources/static/js/delivery.js:348-354 | every step before the status is completed, the status's own is completed or active, a later step is completed exactly when stamped and pending otherwise, and a cancelled order has no active step and its steps are completed exactly when stamped |
| AdminPage.FilterOrders | src/main/resources/static/js/admin.js:1279-1304 | each row's visibility becomes what the filter gives for it, from its old visibility |
| AdminPage.ShowRow | src/main/resources/static/js/admin.js:1281-1303 | one row's visibility is set and no other row's |
| AdminPage.FilterMeaning | src/main/resources/static/js/admin.js:1287-1302 | "all" shows every badged row, "today" those placed today, delivered and cancelled only their own status, pending hides a paid but undelivered order, and an unknown filter leaves rows as they were |
| AdminPage.ReturnActions | src/main/resources/static/js/admin.js:374-385 | approve and reject exactly while REQUESTED, refund exactly once APPROVED, otherwise no action |
| AdminPage.Truncate | src/main/resources/static/js/admin.js:1224-1227 | empty for no text; the text when it fits; otherwise its first `n` characters and "..." |
| AdminPage.TruncateIdempotent | src/main/resources/static/js/admin.js:1224-1227 | truncating again to the same width changes nothing |
| AdminPage.ProductSubmission | src/main/resources/static/js/admin.js:634-658 | refused exactly for a blank name, a missing or zero price or stock, or no category or store; otherwise the fields sent, the description only when the trimmed field is not blank, and then that trimmed text |
| AdminPage.ScheduleValue | src/main/resources/static/js/admin.js:731 | null for no schedule, otherwise the first space turned into "T" and ":00" added |
| AdminPage.NotificationSubmission | src/main/resources/static/js/admin.js:714-732 | refused exactly for a blank title or message; otherwise both trimmed, with the type, the audience and the schedule |
| AdminPage.UserSubmission | src/main/resources/static/js/admin.js:1139-1167 | refused exactly without name, e-mail, password or role; a DELIVERY user goes to the partner endpoint with the trimmed vehicle type, number and location and the availability box as ticked, anyone else to registration without them |
| AdminPage.SearchUsers | src/main/resources/static/js/admin.js:1123-1129 | a card stays visible exactly when its lower-cased text contains the lower-cased query |
| AdminPage.EmptySearchShowsAll | src/main/resources/static/js/admin.js:1123-1129 | an empty query shows every card |
| AdminPage.SearchIgnoresCase | src/main/resources/static/js/admin.js:1126-1127 | the query's case does not matter |
| AdminPage.PartnerTabSubmission | src/main/resources/static/js/admin.js:945-960 | refused exactly without name, e-mail or password; otherwise the trimmed name and e-mail, the password and the role DELIVERY, with no phone |
| AdminPage.ChartColour | src/main/resources/static/js/admin.js:314-328 | the five known labels get their colours; exactly every other label is grey |
| RegisterPage.CheckedEmailMatches | src/main/resources/static/js/register.js:171 | whatever the computed check accepts, the address pattern matches |
| RegisterPage.MatchedEmailChecks | src/main/resources/static/js/register.js:171 | whatever the pattern matches, the computed check accepts |
| RegisterPage.EmailCheckIsPattern | src/main/resources/static/js/register.js:170-173 | the computed check accepts exactly what the pattern matches |
| RegisterPage.AcceptedEmailShape | src/main/resources/static/js/register.js:171 | an accepted address has exactly one "@", not first, and no whitespace |
| RegisterPage.AcceptedEmailDot | src/main/resources/static/js/register.js:171 | an accepted address has a "." after the "@" with a character on each side |
| RegisterPage.NameCheck | src/main/resources/static/js/register.js:86-89 | a message exactly for an empty name |
| RegisterPage.EmailCheck | src/main/resources/static/js/register.js:91-97 | an empty e-mail has one message, otherwise a message exactly when the address is not valid |
| RegisterPage.PhoneCheck | src/main/resources/static/js/register.js:100-106 | an empty phone has one message, otherwise a message exactly when it is not 10 to 15 digits |
| RegisterPage.PasswordCheck | src/main/resources/static/js/register.js:108-114 | an empty password has one message, otherwise a message exactly when it is shorter than six |
| RegisterPage.ConfirmCheck | src/main/resources/static/js/register.js:116-119 | a message exactly when the two passwords differ |
| RegisterPage.Reported | src/main/resources/static/js/register.js:84-119 | a failing check contributes its message and a passing one nothing |
| RegisterPage.AllChecksReported | src/main/resources/static/js/register.js:84-121 | each failing check's message is shown whatever the other fields hold, and nothing is shown exactly when every field is acceptable |
| RegisterPage.Validate | src/main/resources/static/js/register.js:84-121 | the messages are those of every failing check, and the flag stays set exactly when all fields are acceptable |
| RegisterPage.RegistrationReply | src/main/resources/static/js/register.js:142-162 | success goes to sign-in, 409 is a taken address, any other refusal one generic message, and no answer is a network error |
| RegisterPage.Registration.constructor | src/main/resources/static/js/register.js:2 | the selected role starts as CUSTOMER |
| RegisterPage.Registration.SelectRole | src/main/resources/static/js/register.js:58-60 | the selected role becomes the one picked |
| RegisterPage.Registration.HandleRegistration | src/main/resources/static/js/register.js:72-168 | name, e-mail and phone are trimmed, passwords are not; a body with the selected role is sent exactly when no check failed, and its answer is read by `RegistrationReply` |
| LoginPage.LoginAttempt | src/main/resources/static/js/login.js:58-74 | an empty trimmed e-mail is reported first, then an empty password; the request goes out exactly when both are present, the password untrimmed |
| LoginPage.Dashboard | src/main/resources/static/js/login.js:118-129 | ADMIN goes to the admin page, DELIVERY to the delivery page, anyone else to the shop |
| LoginPage.LoginReply | src/main/resources/static/js/login.js:89-110 | a 2xx signs in and goes to the role's page; any refusal shows one generic message; no answer is a network error |
| LoginPage.RefusalsLookAlike | src/main/resources/static/js/login.js:103-106 | two refusals look the same whatever the server said |
| ResetPasswordPage.Land | src/main/resources/static/js/reset-password.js:2-9 | a missing or empty token sends the visitor to sign-in; any other is kept |
| ResetPasswordPage.ResetCheck | src/main/resources/static/js/reset-password.js:39-47 | a password shorter than six is refused before the confirmation is compared; the form passes exactly when both hold |
| ResetPasswordPage.HandleReset | src/main/resources/static/js/reset-password.js:30-67 | a refused form sends nothing; success alerts, forgets the token and goes to sign-in; a refusal shows the server's text or a fallback and keeps the token |
| Consistency.ServerItems | src/main/resources/static/js/shop.js:331 | the shop page's lines, each read by the order controller with the same product and quantity |
| Consistency.ShopOrderPassesShapeChecks | src/main/java/com/grocery/localgrocery/controller/OrderController.java:66-70 | a body the shop page sends, with a printable character in its address, passes the controller's shape checks |
| Consistency.ControlCharacterTrims | src/main/resources/static/js/shop.js:302 | JavaScript's trim keeps U+0001 and Java's trim removes it |
| Consistency.ControlCharacterAddress | src/main/java/com/grocery/localgrocery/controller/OrderController.java:67-68 | an address of one control character passes the shop page and is refused by the controller |
| Consistency.EmptyCartRefusedByServer | src/main/resources/static/js/cart.js:234-237 | the cart page posts an empty cart, which the controller answers with "items required" |
| Consistency.ServerTotal | src/main/java/com/grocery/localgrocery/controller/OrderController.java:87-92 | the total stored for a subtotal is 113% of it |
| Consistency.SavedTotalIsServerTotal | src/main/java/com/grocery/localgrocery/controller/OrderController.java:87-92 | the order row `placeOrder` saves carries `ServerTotal` of its subtotal, which is subtotal plus tax |
| Consistency.ShopTotalIsServerTotalIff | src/main/resources/static/js/shop.js:199-202 | the shop page's total is the stored one exactly when no promo applies or the cart costs nothing |
| Consistency.CartPageShowsMore | src/main/resources/static/js/cart.js:113-117 | the cart page's total exceeds the shop page's by the shipping fee and 13% of the discount |
| Consistency.PageStatusPassesServer | src/main/resources/static/js/delivery.js:415-427 | every status change the delivery page sends passes the controller's transition checks |
| Consistency.PickUpCheckedOnlyByPage | src/main/resources/static/js/delivery.js:416-419 | the page refuses picking up a delivered order, and the controller lets it through |
| Consistency.EveryBadgeColoured | src/main/resources/static/js/delivery.js:507-514 | every badge the controller awards has its own colour on the page |
| Consistency.OfferedActionsAccepted | src/main/resources/static/js/admin.js:374-385 | every return action the admin page offers is one the controller accepts |
| Consistency.FormPartner | src/main/resources/static/js/admin.js:1159-1164 | the Add-user form's DELIVERY body read by the controller: name, phone, location and availability as sent |
| Consistency.TabPartner | src/main/resources/static/js/admin.js:955-960 | the Delivery tab's body read by the controller: no phone, availability left at the default true |
| Consistency.FormPartnerAccepted | src/main/resources/static/js/admin.js:1159-1164 | a DELIVERY body from the Add-user form under a free e-mail is saved with the location and the availability box as sent |
| Consistency.TabPartnerRefused | src/main/resources/static/js/admin.js:955-960 | every body the Delivery tab sends is refused: a 409 for a taken e-mail, otherwise a 500 for the missing phone |
| Consistency.ChartLabelsDistinctColours | src/main/resources/static/js/admin.js:314-328 | each of the five labels the status endpoint reports is drawn in its own colour, none grey |
| Consistency.PaymentReceivedIsGrey | src/main/resources/static/js/admin.js:328 | the PAYMENT_RECEIVED status would be drawn in the grey fallback |
| Consistency.PageRegistrationRefusals | src/main/java/com/grocery/localgrocery/controller/AuthController.java:39-53 | a body that passed the page can be refused only as a taken e-mail or a password equal to the e-mail |
| Consistency.ConflictShownAsTaken | src/main/resources/static/js/register.js:153-154 | the controller's conflict is the status the page reads as a taken address |
| Consistency.PasswordLikeEmailPassesPage | src/main/resources/static/js/register.js:84-121 | the page lets a password equal to an e-mail of six characters or more through |
| Consistency.PasswordLikeEmailRefused | src/main/java/com/grocery/localgrocery/controller/AuthController.java:51-53 | the controller refuses that password with a 400 |
| Consistency.BadRequestShownAsFailure | src/main/resources/static/js/register.js:155-158 | the page reports that 400 only as a failed registration |

## Left out

- Persistence, HTTP routing, JSON mapping, the DOM, timers, `localStorage` and `sessionStorage` are not modelled. Server replies, confirmation dialogs, the clock (`now`, in milliseconds) and random file prefixes are parameters.
- Numbers:
  - Money is an exact `real`. `BigDecimal` scale and rounding, JavaScript floating point and `toFixed` rounding are left out.
  - Java `int` and `long` overflow of counters is left out.
- Text:
  - Case folding is ASCII only.
  - String length counts characters, not UTF-16 units.
  - `Intl` number and date formatting and time zones are left out. "Today" comparisons on the pages are a field of the row.
- E-mail sending, image file storage, geolocation and the chart library are left out. Proof upload, issue reports and location updates on the delivery page are not part of this model.
- AdminController.GetDashboardStats: the today figures and the growth percentages of the dashboard are not computed. They rely on the clock's calendar and are display constants.
- AdminController.GetTopProducts: products with equal counts are ordered by the sort's stability over the tally. The tally's own order comes from a `HashMap`, which is left unspecified.
- AdminController.GetUserStats: the role map is a Dafny `map`, so its key order is not modelled.
- OrdersPage.StatusLabel: a status word that names an `Object.prototype` member (`toString`, `constructor`, `valueOf`, `__proto__` and the like) is found by the object-literal lookup on the prototype chain and shows the inherited value. The model shows such a word as it is.
- Query results without an ORDER BY (`findByRole`, `findByRoles`, the availability queries, `searchUsers`, the GROUP BY statistics query and the derived finders) have no order in SQL. The model returns them in table order, and the rows that say "in table order" or "order kept" describe that choice.
- UserRepository.SearchUsers: the term is matched as a plain substring. SQL `LIKE` wildcards inside it (`%`, `_`) are not interpreted.
- Null strings inside request bodies are modelled only where the controller tests for them. A null that would throw elsewhere is outside the model.
  - AdminController.ToggleAvailability takes a `bool`: a body without the `isAvailable` key would store null and then fail building the reply after the save.
  - OrderController.UpdateReturnStatus cannot store a null status word, and an `ItemRequest` cannot carry a null product id.
- AdminController.AddDeliveryPartner: an explicit JSON null for `isAvailable` is not modelled (left out it is true). Entity fields other than name, phone, vehicle, location and availability that a body could carry (id, rating, badge, earnings) take the entity defaults in the model.
- AdminController.UpdateUser: an explicit JSON null for `isAvailable` is the only way to leave the flag alone; the model's `Some(true)` stands for a body that leaves the key out.
- CustomerPage.Catalogue.AddToCart: the notification toast and the sort of the product grid are left out.
- What the code does not do, and the model therefore does not do either:
  - Order placement is not all-or-nothing.
  - A cancellation does not give stock back.
  - The refund steps do not check the return status they come from.
  - Assignment checks neither the order's status nor the partner's availability.
  - The stored total ignores any promo and shipping.
