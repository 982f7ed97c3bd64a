# KhushiBites food ordering: a Dafny model of the order core

KhushiBites is a food-ordering web application:

- **Backend.** An Express/Mongoose server stores customers, vendors, menus, orders and reviews. It sends order events to per-user socket rooms.
- **Client.** A React client keeps a cart, the customer's order list, a profile form and a vendor browser.

This project models the data logic of both sides. The backend parts are:

- the order lifecycle: placing, the vendor's status update, the customer's cancel, mock pay and refund, delivery assignment and the manual status;
- review gating;
- menu and vendor-menu editing;
- registration, login and profile updates;
- the authorization chain;
- the socket room handlers.

On the client side, the cart, the order list, the profile address editor and the vendor filter pipeline are modelled.

How the source maps onto Dafny:

- **Schemas.** Each Mongoose schema becomes a value datatype plus a `Validate` function. `Validate` applies the schema's required paths, enums and defaults. A rejected save is the handler's HTTP 500.
- **Route handlers.** A handler that loads a document, assigns fields and saves it is a `method` on a store class: `OrderStore`, `ReviewStore`, `MenuStore`, `VendorStore`, `CustomerStore` or `RoomRegistry`.
- **Decisions.** Each handler's decision (the 404/403/400 chain and the new document) is a pure function with its own contract. The method's `ensures` ties the new store state to that function.
- **Acting user.** The acting customer or vendor is an explicit parameter.
- **Oracles.** Token verification, the user lookup, password hashing and password comparison are parameters.
- **Fresh values.** Fresh ids and the clock reading in the payment id are parameters.
- **Time.** Creation time is a logical clock, so `sort({ createdAt: -1 })` is "newest first" over natural-number stamps.
- **Client ratings.** Ratings are integer tenths: `Text.Tenths` parses `""`, a digit string, and a digit string with one decimal digit. `localeCompare` is the code-unit lexicographic order `Text.LexLe`, which is proved total and transitive.

## Model

| member | source | states |
|---|---|---|
| OrderModel.ParseStatus | backend/models/Order.js:23-27 | only the five enum strings parse, each to the status that prints as it; any other string matches no status |
| OrderModel.ParsePayment | backend/models/Order.js:28-32 | only Pending, Paid and Failed parse; any other string, "Refunded" included, matches none |
| OrderModel.StatusNamesRoundTrip | backend/models/Order.js:23-27 | parsing a status's stored name gives that status back |
| OrderModel.Validate | backend/models/Order.js:5-34 | a save succeeds iff customer, vendor, totalPrice and each item's name and price are present and the enums hold; status defaults to Ordered, payment to Pending and item quantity to 1; both timestamps are set; a failure is 500 |
| OrderModel.CopiedItemsRoundTrip | backend/models/Order.js:15-21 | stored items copied into a new draft validate back to the same items |
| ReviewModel.Validate | backend/models/Review.js:4-11 | a save succeeds iff the three references and the comment are present and the rating lies in 1..5; vendorResponse starts as "" |
| MenuModel.ValidateItem | backend/models/Menu.js:6-30 | an item is accepted iff name and price are present; description defaults to "", image to the placeholder URL, isAvailable to true |
| MenuModel.StoredItemRevalidates | backend/models/Menu.js:6-30 | a stored item passes validation again unchanged |
| VendorModel.NewEntry | backend/models/Vendor.js:10-18 | a new embedded entry keeps every supplied field; `available` is true unless false is supplied |
| VendorModel.Validate | backend/models/Vendor.js:3-20 | a save succeeds iff name, email and hash are present; the menu starts empty and the role defaults to "vendor" |
| CustomerModel.NewAddressEntry | backend/models/Customer.js:9-14 | an address entry is accepted iff its text is present; the label defaults to "Home" |
| CustomerModel.Validate | backend/models/Customer.js:3-24 | a save succeeds iff name, email and hash are present; the role defaults to "customer" |
| OrderLifecycle.Total | backend/routes/order.js:27 | the total is defined iff every line has a price and a quantity; a missing number gives NaN (None) |
| OrderLifecycle.TotalAppend | backend/routes/order.js:27 | the sum of a concatenation is the sum of the parts |
| OrderLifecycle.PlaceOrder | backend/routes/order.js:18-36 | 400 iff vendorId is empty or the items are missing, not an array or empty; then 404 iff the vendor is unknown; success iff neither, with a draft for the acting customer and vendor, the copied items, the server-computed total, Ordered and Pending |
| OrderLifecycle.ClientClaimsIgnored | backend/routes/order.js:18 | two requests with the same vendorId and items give the same result, whatever total, payment status or address the client sends |
| OrderLifecycle.PlacedOrderShape | backend/routes/order.js:27-36 | a stored new order is Ordered and Pending, belongs to the acting customer and the requested vendor, and is priced at the sum of its lines |
| OrderLifecycle.PizzaScenario | backend/routes/order.js:20-36 | one line of two items at 200 is stored as a pending order worth 400 |
| OrderLifecycle.UpdateStatus | backend/routes/order.js:104-111 | 404 for a missing order, then 403 for another vendor's order; otherwise the requested status is written (500 when it is outside the enum) and nothing else changes |
| OrderLifecycle.AnyTransitionAccepted | backend/routes/order.js:110 | the owning vendor may move an order from any status to any status, Delivered and Cancelled included |
| OrderLifecycle.Cancel | backend/routes/order.js:132-142 | 404, then 403 for another customer, then 400 unless the status is exactly Ordered; on success only the status changes, to Cancelled |
| OrderLifecycle.MarkPaid | backend/routes/payment.js:8-12 | 404 for a missing order; otherwise Paid whatever the prior payment status, and nothing else changes |
| OrderLifecycle.PayIdempotent | backend/routes/payment.js:11 | paying a paid order gives the same order again |
| OrderLifecycle.MakeReceipt | backend/routes/payment.js:18-23 | the receipt carries the order's id, its total, its payment status and the payment id |
| OrderLifecycle.MockPaymentId | backend/routes/payment.js:12 | the id is "MOCK_PAYMENT_" followed by the timestamp |
| OrderLifecycle.MarkRefunded | backend/routes/payment.js:32-37 | never succeeds: 404 for a missing order, otherwise 500, because "Refunded" is outside the payment enum |
| OrderLifecycle.Assign | backend/routes/delivery.js:9-14 | 404 for a missing order; otherwise Out for Delivery from any status, and nothing else changes |
| OrderLifecycle.ManualStatus | backend/routes/delivery.js:28-33 | 404 for a missing order; otherwise succeeds iff the requested value is in the enum, with no owner or transition check; otherwise 500 "Server error" |
| OrderLifecycle.PaymentAndDeliveryIndependent | backend/routes/payment.js:11-12 | paying keeps status, items and total; assigning keeps the payment status |
| OrderLifecycle.ReorderDraft | backend/routes/customer.js:150-157 | the copy has the acting customer, the old vendor and items, status Ordered and no totalPrice |
| OrderLifecycle.ReorderAlwaysRejected | backend/routes/customer.js:150-158 | every reorder draft fails validation with 500, because it writes `total` and the required `totalPrice` is missing |
| Notify.NewOrderEvents | backend/routes/order.js:58-62 | a new order is one emission of the order to room vendor-<vendor>, as event new-order-<vendor> |
| Notify.StatusEvents | backend/routes/order.js:114-118 | a status update is one emission to customer-<customer>, as event order-status-<customer> |
| Notify.CancelEvents | backend/routes/order.js:144-149 | a cancel emits to the customer's room, then order-cancelled-<vendor> to the vendor's room |
| Notify.BroadcastEvents | backend/routes/delivery.js:17 | the delivery routes emit orderStatusUpdate to every client, not to a room |
| Notify.RoomNameInjective | backend/server.js:82 | two ids under one role never name the same room |
| Notify.RolesNeverShareRoom | backend/server.js:82 | no customer room is a vendor room |
| Timeline.Latest | backend/routes/order.js:75-77 | the selection holds exactly the stored documents that the filter accepts |
| Timeline.LatestNewestFirst | backend/routes/order.js:75-77 | when creation stamps grow along the insertion log, the selection is strictly newest first |
| Timeline.LatestComplete | backend/routes/order.js:88-90 | every stored document that the filter accepts is selected |
| Timeline.LatestBelow | backend/routes/order.js:75-77 | the selection holds no document stamped at or after a bound that the log stays below |
| OrderRoutes.OrderStore.constructor | backend/models/Order.js:37 | an empty collection |
| OrderRoutes.OrderStore.Find | backend/routes/order.js:104 | the lookup finds an order iff the id is stored, and returns that order |
| OrderRoutes.OrderStore.List | backend/routes/order.js:72-96 | exactly the stored orders of the customer or vendor, strictly newest first |
| OrderRoutes.OrderStore.Insert | backend/routes/order.js:38 | the new order is stored under a fresh id iff it validates, stamped now; a rejected one changes nothing |
| OrderRoutes.Saved | backend/models/Order.js:34 | the document a save leaves: the stored one when no path differs, otherwise the new one stamped now |
| OrderRoutes.OrderStore.Save | backend/routes/order.js:111 | a loaded order that differs from the stored one is written back with its update stamp at now; an unmodified one leaves the collection exactly as it was (`timestamps: true` moves the stamp only on a modification) |
| OrderRoutes.OrderStore.PlaceOrder | backend/routes/order.js:15-69 | a rejected request stores and emits nothing; an accepted one stores the validated order and announces it in the vendor's room |
| OrderRoutes.OrderStore.Apply | backend/routes/order.js:110-118 | a decision's document is saved (stamped only if it differs from the stored one) and its emissions are returned; an error changes nothing |
| OrderRoutes.OrderStore.UpdateStatus | backend/routes/order.js:98-125 | the store applies OrderLifecycle.UpdateStatus to the loaded order and emits the status event |
| OrderRoutes.OrderStore.Cancel | backend/routes/order.js:127-156 | the store applies OrderLifecycle.Cancel and emits to both rooms |
| PaymentRoutes.Pay | backend/routes/payment.js:6-28 | the order is saved as Paid, stamped only if it was not Paid already; the receipt reflects the saved order and the mock id; only that order changes |
| PaymentRoutes.RepayKeepsDocument | backend/routes/payment.js:11-13 | paying an order that is already Paid leaves the stored document, update stamp included, as it was |
| PaymentRoutes.Refund | backend/routes/payment.js:31-43 | the result is OrderLifecycle.MarkRefunded's, and the store never changes |
| DeliveryRoutes.Assign | backend/routes/delivery.js:7-23 | the store applies OrderLifecycle.Assign and broadcasts the saved order |
| DeliveryRoutes.ReassignKeepsDocument | backend/routes/delivery.js:12-14 | assigning an order already Out for Delivery leaves the stored document, update stamp included, as it was |
| DeliveryRoutes.ManualStatus | backend/routes/delivery.js:26-40 | the store applies OrderLifecycle.ManualStatus and broadcasts the saved order |
| ReviewRoutes.ReviewGate | backend/routes/review.js:13-18 | 404, then 403 for another customer, then 400 unless Delivered; it passes iff the acting customer owns a delivered order |
| ReviewRoutes.ReviewDraftOf | backend/routes/review.js:20-27 | the review has the acting customer, the order, the vendor, the rating and the comment; the image defaults to "" |
| ReviewRoutes.ReviewedOrderDelivered | backend/routes/review.js:13-29 | when the gate passes on the order found under the request's order id, the stored review is of that order, by its customer, the order is delivered, the rating is in 1..5 and there is no vendor response yet |
| ReviewRoutes.ReviewStore.constructor | backend/models/Review.js:13 | an empty collection |
| ReviewRoutes.ReviewStore.List | backend/routes/review.js:37-56 | exactly the stored reviews of the vendor or customer, strictly newest first |
| ReviewRoutes.ReviewStore.AddReview | backend/routes/review.js:8-34 | the gate runs on the order stored under the request's order id: its error, or the validated review stored under a fresh id; a stored review is of that delivered order of the acting customer; a rejected one changes nothing |
| ReviewRoutes.ReviewStore.Respond | backend/routes/review.js:59-71 | 404 for a missing review; the stored response posted again leaves the review, update stamp included, as it was; otherwise only vendorResponse and the update stamp change |
| MenuRoutes.MenuOf | backend/routes/menuRoutes.js:17 | the index of the first menu of the vendor, or -1 iff the vendor has none |
| MenuRoutes.Locate | backend/routes/menuRoutes.js:53-56 | the first menu and item position holding the item id, or None iff no menu holds it |
| MenuRoutes.Merge | backend/routes/menuRoutes.js:57-59 | each supplied field overrides the old one, and each unsupplied field keeps it |
| MenuRoutes.UpdatedItem | backend/routes/menuRoutes.js:57-60 | the merged item keeps its id and passes validation iff its name stays present |
| MenuRoutes.EmptyPatchKeepsItem | backend/routes/menuRoutes.js:59 | an update that supplies nothing leaves the item as it was |
| MenuRoutes.MenuStore.constructor | backend/models/Menu.js:46 | no menus |
| MenuRoutes.MenuStore.AddItem | backend/routes/menuRoutes.js:9-31 | 404 for an unknown vendor; otherwise a new menu holding exactly the item, or the item appended to the vendor's menu with the others kept |
| MenuRoutes.MenuStore.GetMenu | backend/routes/menuRoutes.js:34-45 | 404 iff the vendor has no menu; otherwise the first stored menu of that vendor (`MenuOf`, the first index whose vendor matches) |
| MenuRoutes.MenuStore.UpdateItem | backend/routes/menuRoutes.js:48-67 | 404 for an unknown item; otherwise only that item changes, to the merge |
| MenuRoutes.MenuStore.DeleteItem | backend/routes/menuRoutes.js:70-89 | 404 for an unknown item; otherwise exactly that item is removed and returned, and the others keep their order |
| MenuRoutes.DeleteTakesOneItem | backend/routes/menuRoutes.js:77-84 | the deletion takes exactly one copy of the item out of the menu's multiset |
| VendorRoutes.IndexOfId | backend/routes/vendor.js:201 | the position of the vendor with the id, or -1 iff there is none |
| VendorRoutes.IndexOfEmail | backend/routes/vendor.js:20 | the position of the first vendor with the email, or -1 iff there is none |
| VendorRoutes.IndexOfEntry | backend/routes/vendor.js:129-130 | the position of the menu entry with the id, or -1 iff there is none |
| VendorRoutes.PublicView | backend/routes/vendor.js:176-185 | the listing shows id, name, address, contact, cuisine and menu; avgRating is "0" and image is "" |
| VendorRoutes.PublicViewHidesCredentials | backend/routes/vendor.js:176-185 | vendors differing only in email, password hash or role look the same in the listing |
| VendorRoutes.AssignEntry | backend/routes/vendor.js:132 | each supplied field overwrites; the id and the unsupplied fields stay |
| VendorRoutes.AssignOwnFieldsIdentity | backend/routes/vendor.js:132 | assigning an entry's own fields leaves it unchanged |
| VendorRoutes.ApplyTruthy | backend/routes/vendor.js:208-212 | only fields whose supplied value is truthy change; the others, the menu and the credentials are kept |
| VendorRoutes.EmptyUpdateIsIdentity | backend/routes/vendor.js:208-212 | an update that supplies nothing truthy changes nothing |
| VendorRoutes.ApplyTruthyIdempotent | backend/routes/vendor.js:208-212 | applying the same update twice is applying it once |
| VendorRoutes.VendorStore.constructor | backend/models/Vendor.js:22 | an empty collection |
| VendorRoutes.VendorStore.Register | backend/routes/vendor.js:15-45 | 400 for a taken email with nothing created, 500 for a failed validation; otherwise the vendor is appended and emails stay unique |
| VendorRoutes.VendorStore.Login | backend/routes/vendor.js:51-73 | 400 "Vendor not found" for an unknown email, 400 "Invalid credentials" for a wrong password; otherwise the vendor's id and role |
| VendorRoutes.VendorStore.Listing | backend/routes/vendor.js:171-192 | the public view of each stored vendor, in stored order |
| VendorRoutes.VendorStore.MenuOf | backend/routes/vendor.js:103-115 | 404 iff the vendor is unknown; success iff it is known, with its embedded menu |
| VendorRoutes.VendorStore.PushEntry | backend/routes/vendor.js:86-89 | exactly one entry is appended to that vendor's menu, and nothing else changes |
| VendorRoutes.VendorStore.UpdateEntry | backend/routes/vendor.js:124-132 | 404 for an absent entry; otherwise only that entry changes, to the assignment |
| VendorRoutes.VendorStore.DeleteEntry | backend/routes/vendor.js:154-157 | 404 for an absent entry; otherwise that entry is removed and the rest keep their order |
| VendorRoutes.VendorStore.UpdateProfile | backend/routes/vendor.js:205-214 | 404 for an absent vendor; otherwise the truthy-only update, or 500 when the new email is taken |
| VendorRoutes.VendorStore.Remove | backend/routes/vendor.js:232-233 | 404 for an absent vendor; otherwise it is removed and returned |
| VendorRoutes.RegisterRoute | backend/routes/vendor.js:15-45 | 400 for a taken email with nothing changed; otherwise the validated draft with the hashed password, appended on success and 500 with nothing changed when name, email or hash is missing; success iff the email is free and those are present, with the default role |
| VendorRoutes.AddMenuEntry | backend/routes/vendor.js:79-97 | 403 without an acting vendor; otherwise the push onto that vendor's own menu |
| VendorRoutes.OwnMenu | backend/routes/vendor.js:103-115 | 403 without an acting vendor, 404 when it is gone; success iff the acting vendor is stored, with its own menu |
| VendorRoutes.UpdateMenuEntry | backend/routes/vendor.js:121-140 | 403 without an acting vendor; then 404 "Vendor not found", then 404 "Menu item not found", each with nothing changed; otherwise the located entry gets the assigned fields, the rest of its menu and every other vendor unchanged |
| VendorRoutes.DeleteMenuEntry | backend/routes/vendor.js:146-165 | 403 without an acting vendor; then 404 "Vendor not found", then 404 "Menu item not found", each with nothing changed; otherwise exactly the located entry is spliced out of its menu, every other vendor unchanged |
| VendorRoutes.UpdateVendor | backend/routes/vendor.js:198-220 | 403 unless the acting vendor is the one in the path, with nothing changed; then 404 "Vendor not found"; then 500 with nothing changed when the truthy-only update takes another vendor's email; otherwise that update is stored in place |
| VendorRoutes.DeleteVendor | backend/routes/vendor.js:226-239 | 403 unless the acting vendor is the one in the path, with nothing changed; otherwise the removal |
| VendorController.RegisterVendor | backend/controllers/vendorController.js:10-28 | 400 for a taken email with nothing changed; otherwise the validated draft with the hashed password, appended on success and 500 with nothing changed when name, email or hash is missing; success iff the email is free and those are present, with the default role |
| VendorController.LoginVendor | backend/controllers/vendorController.js:33-49 | 400 for an unknown email or a wrong password; otherwise the stored id and role |
| VendorController.LoginsAgree | backend/controllers/vendorController.js:43 | when every stored role is non-empty, the controller and the route sign the same claims |
| VendorController.AddMenuItem | backend/controllers/vendorController.js:54-70 | 403 for another vendor, then 404 for a missing vendor; otherwise one entry is appended |
| VendorController.GetVendorMenu | backend/controllers/vendorController.js:75-84 | 404 iff the vendor is missing; otherwise its menu, with no ownership check |
| VendorController.UpdateVendor | backend/controllers/vendorController.js:102-123 | 403 for another vendor with nothing changed; then 404 "Vendor not found"; then 500 with nothing changed when the truthy-only update takes another vendor's email; otherwise that update is stored in place |
| VendorController.DeleteVendor | backend/controllers/vendorController.js:128-140 | 403 for another vendor, then 404; otherwise the vendor is removed |
| CustomerRoutes.IndexOfId | backend/routes/customer.js:112 | the position of the customer with the id, or -1 iff there is none |
| CustomerRoutes.IndexOfEmail | backend/routes/customer.js:22 | the position of the first customer with the email, or -1 iff there is none |
| CustomerRoutes.ApplyTruthy | backend/routes/customer.js:112-115 | only truthy supplied fields change; a supplied address list replaces the old one wholesale |
| CustomerRoutes.EmptyListClearsAddresses | backend/routes/customer.js:114 | supplying an empty address list clears the addresses |
| CustomerRoutes.NothingSuppliedIsIdentity | backend/routes/customer.js:112-115 | an update that supplies nothing leaves the customer unchanged |
| CustomerRoutes.CustomerStore.constructor | backend/models/Customer.js:26 | an empty collection |
| CustomerRoutes.CustomerStore.Register | backend/routes/customer.js:17-40 | 400 for a taken email; otherwise the customer is appended with addresses exactly [address] |
| CustomerRoutes.CustomerStore.Login | backend/routes/customer.js:46-62 | 400 for an unknown email or a wrong password; otherwise the customer's id and role |
| CustomerRoutes.CustomerStore.UpdateProfile | backend/routes/customer.js:106-122 | the truthy-only update of the acting customer, or 500 when the new email is taken |
| CustomerRoutes.VendorMenu | backend/routes/customer.js:82-91 | 404 iff the vendor is absent; otherwise its embedded menu |
| CustomerRoutes.Orders | backend/routes/customer.js:128-138 | exactly the acting customer's orders, strictly newest first |
| CustomerRoutes.Reorder | backend/routes/customer.js:144-164 | 404 for a missing order; otherwise 500, because the copy always fails validation; the collection never changes |
| AuthMiddleware.Split | backend/middleware/authMiddleware.js:7 | at least one part, and no part contains the separator |
| AuthMiddleware.JoinSplit | backend/middleware/authMiddleware.js:7 | joining the parts with the separator gives the header back |
| AuthMiddleware.SplitNoSep | backend/middleware/authMiddleware.js:7 | a string without the separator splits into itself |
| AuthMiddleware.SplitAfterWord | backend/middleware/authMiddleware.js:7 | a leading word and a separator split off as the first part |
| AuthMiddleware.TokenOf | backend/middleware/authMiddleware.js:7-8 | the token, when there is one, is non-empty and holds no space |
| AuthMiddleware.BearerToken | backend/middleware/authMiddleware.js:7 | from "<scheme> <token>" the token is the second part |
| AuthMiddleware.NoSpaceNoToken | backend/middleware/authMiddleware.js:7-8 | a header without a space yields no token |
| AuthMiddleware.Authenticate | backend/middleware/authMiddleware.js:4-28 | 401 without a token, 401 for a token that does not verify, 401 for an unknown user, 403 for a wrong required role; otherwise the user passes on |
| AuthMiddleware.PassIff | backend/middleware/authMiddleware.js:7-22 | a request passes iff its token verifies, the user exists and the role matches or none is required |
| AuthMiddleware.RoleCheckedAfterLookup | backend/middleware/authMiddleware.js:13-19 | a 403 happens only after the user lookup succeeds |
| AuthMiddleware.NoRoleAnyUser | backend/middleware/authMiddleware.js:17 | with no required role, any verified existing user passes |
| Server.AfterEvent | backend/server.js:80-86 | a join with a truthy role and id adds the connection to `<role>-<id>` only; any other event, disconnect included, leaves the rooms unchanged |
| Server.MembershipOnlyGrows | backend/server.js:76-104 | no event removes a connection from a room |
| Server.EventEmissions | backend/server.js:89-101 | notifyVendor and notifyCustomer emit to the vendor or customer room iff both fields are truthy; nothing else emits |
| Server.JoinedCustomerGetsStatus | backend/server.js:80-86 | a customer who joined their room receives their orders' status events |
| Server.JoinedVendorGetsNewOrders | backend/server.js:80-86 | a vendor who joined their room receives their new-order events |
| Server.VendorRoomNotCustomerRoom | backend/server.js:80-86 | a connection in a vendor room alone receives no customer status event |
| Server.RoomRegistry.constructor | backend/server.js:76 | no rooms |
| Server.RoomRegistry.Handle | backend/server.js:76-104 | the rooms become AfterEvent of the old rooms; the emissions are EventEmissions |
| Server.NotFound | backend/server.js:60-63 | 404, with the URL inside the message |
| Server.NotFoundInjective | backend/server.js:62 | different URLs give different messages |
| Cart.TotalAppend | Cart.js:25-31 | the cart total of a concatenation is the sum of the parts |
| Cart.TotalReplace | Cart.js:25-31 | replacing one entry changes the total by the difference of the two line amounts |
| Cart.UpdateQuantity | Cart.js:33-41 | only the entry at the index changes, to quantity max(1, (old or 1) + change), which is at least 1; the length and the other entries stay; the returned total is the new cart's total |
| Cart.Bump | CustomerDashboard.js:59-61 | the matching entry's quantity goes up by one, and every other entry is kept |
| Cart.BumpCount | CustomerDashboard.js:169 | bumping raises the quantity count by the number of entries bumped |
| Cart.OccurrencesOfHeld | CustomerDashboard.js:56-61 | a held key occurs in the cart |
| Cart.Add | CustomerMenu.js:25-32 | an entry with the same key gets its quantity bumped and the length is kept; otherwise the entry is appended as given |
| Cart.AddKeepsKeysUnique | CustomerMenu.js:25-32 | adding keeps the keys of the entries pairwise distinct |
| Cart.AddCount | CustomerDashboard.js:169 | adding raises the quantity count by one for an item already held, otherwise by the new entry's quantity |
| Cart.AddById | CustomerDashboard.js:56-63 | an existing id gets quantity + 1 with the length kept; a new id is appended with quantity 1 |
| Cart.AddByIdAndVendor | CustomerMenu.js:22-32 | an existing (id, vendor) gets quantity + 1; a new one is appended with quantity 1 and the vendor attached |
| Cart.AddByIdCount | CustomerDashboard.js:169 | with distinct ids, an add keeps ids distinct and the button count goes up by one |
| Cart.AddByIdAndVendorCount | CustomerMenu.js:25-32 | with distinct (id, vendor) keys, an add keeps them distinct and the count goes up by one |
| Cart.SameItemOtherVendorSeparate | CustomerMenu.js:25-31 | the same item id from two vendors gives two entries |
| Cart.ShownAmount | CustomerMenu.js:82 | the displayed amount is the line amount once a quantity is set |
| Cart.OrderItems | Cart.js:77-82 | the order lines copy name and price, with quantity defaulting to 1 |
| Cart.ServerTotalAgrees | Cart.js:25-31 | the server's total of the sent lines equals the cart total |
| Cart.HandlePayment | Cart.js:54-127 | a blank address, then an empty cart, then a missing SDK, then a missing user id or token (`LoginRequired`) stops before any request; otherwise the amount is the total × 100 |
| Cart.CheckoutOrderPending | Cart.js:92-106 | a checkout's request is stored at the cart total as Ordered and Pending, whatever "Paid" and total the client sends |
| Cart.AfterOrder | Cart.js:109-110 | a placed order empties the cart; a failed one keeps it |
| OrderList.Ids | Orders.js:125-128 | the ids of the listed orders, in order |
| OrderList.ReplaceById | Orders.js:50-55 | orders with the updated id are replaced wholesale; the others and the length stay |
| OrderList.ReplaceKeepsIds | CustomerDashboard.js:83-84 | the id sequence is unchanged, so no order is gained, lost or moved |
| OrderList.ReplaceIdempotent | Orders.js:50-55 | delivering the same update twice is delivering it once |
| OrderList.ReplaceAbsentIgnored | Orders.js:50-55 | an update for an order not listed changes nothing |
| OrderList.CancelLocal | Orders.js:26-39 | a success sets only the matching order's status to Cancelled; a failure keeps the list |
| OrderList.CancelAgreesWithServer | Orders.js:30-34 | the local edit equals replacing the order by the server's cancel result |
| OrderList.ShowCancelIffServerAccepts | Orders.js:149-151 | the button shows exactly when the server would accept the owner's cancel |
| OrderList.Displayed | Orders.js:125-128 | the shown list is the fetched list reversed |
| OrderList.DisplayedOldestFirst | Orders.js:125-128 | from the server's newest-first list, the page shows the oldest order first |
| Dashboard.StatusProgress | CustomerDashboard.js:94-95 | the position in the four steps plus one; 0 exactly when the status is not a step |
| Dashboard.ProgressOffOnlyWhenCancelled | CustomerDashboard.js:94-95 | among stored statuses, only Cancelled has progress 0 |
| Dashboard.ProgressFollowsLifecycle | CustomerDashboard.js:94-95 | Ordered, Preparing, Out for Delivery and Delivered show progress 1 to 4 |
| Profile.AddAddress | Profile.js:70-75 | an empty input is ignored; otherwise it is appended at the end and the input is cleared |
| Profile.RemoveAddress | Profile.js:77-80 | the entry at the index is dropped and the others keep their order; an index outside the list removes nothing |
| Profile.AddThenRemoveRoundTrip | Profile.js:70-80 | removing the address just added gives the list back |
| Profile.RemoveTakesOne | Profile.js:77-80 | a removal takes exactly that address out of the multiset |
| Profile.SavedAddresses | Profile.js:50-53 | the saved body always carries the list, [] when absent |
| Profile.SaveReplacesAddresses | Profile.js:47-68 | after a save the stored addresses are exactly the form's; a form without a list clears them |
| Profile.FetchesOrders | Profile.js:31 | orders are fetched iff the user is not a vendor |
| Profile.ReviewOfferedPassesGate | Profile.js:220 | every order offered the review form passes the server's review gate |
| Home.Enrich | Home.js:45-49 | image comes from the extras table, else the vendor, else the placeholder; avgRating from the table, else the vendor, else "0"; nothing else changes |
| Home.EnrichIdempotent | Home.js:45-49 | enriching twice is enriching once |
| Home.UnlistedVendorDefaults | Home.js:45-49 | a listed vendor missing from the table shows the placeholder and rating "0" |
| Home.EnrichAll | Home.js:45-49 | each vendor is enriched, in order |
| Home.TruthyCuisines | Home.js:52 | every non-empty cuisine type, and nothing else |
| Home.Cuisines | Home.js:52 | the cuisine choices are distinct, and they are exactly the non-empty cuisine types |
| Home.Filtered | Home.js:64-67 | the three skipped-when-off filters equal one filter by the conjunction, in fetched order |
| Home.RatingFirstPreorder | Home.js:68 | the rating order is total and transitive |
| Home.NameFirstPreorder | Home.js:69 | the name order is total and transitive |
| Home.SortFor | Home.js:68-69 | a permutation sorted by rating or by name, in which vendors ranked level keep their input order; any other choice keeps the order |
| Home.Pipeline | Home.js:63-71 | a permutation of the selected vendors, holding exactly those that pass all three controls, sorted as chosen with ties in fetched order, or entirely in fetched order |
| Home.ClearAll | Home.js:73-75 | clear resets every control and shows the whole list, which the pipeline gives for the reset controls |
| Home.SearchFindsOwnName | Home.js:65 | a search for a vendor's own name, in any letter case, keeps that vendor |
| Text.ToLower | Home.js:65 | the lower-casing keeps the length and maps each letter |
| Text.Includes | Home.js:65 | `includes`: true iff the needle occurs at some position |
| Text.Tenths | Home.js:67 | `Number` of a rating in tenths: "" is 0, a digit string is its value × 10, and a digit string with one decimal digit is exactly its value in tenths; anything else is NaN (None) |
| Text.LexLeTotal | Home.js:69 | the name order relates any two names |
| Text.LexLeTransitive | Home.js:69 | the name order is transitive |
| Sorting.InsertLevel | Home.js:68-69 | inserting places the new element before every element ranked level with it, so each class of level elements only gains it at the front |
| Sorting.Sort | Home.js:68-69 | the result is a permutation of the input, sorted under the order, and stable: the elements ranked level with any value keep their input order |

## Left out

- **I/O and plumbing.** HTTP routing, the Express middleware plumbing, JSON bodies and status-code transport are left out. Each handler is modelled by its data result (`Result` with the status code and message).
- **Persistence.** Mongoose persistence and queries are in-memory maps or sequences. `populate` is not modelled, because it only joins names for display. `findByIdAndDelete` and `findOne` are index lookups.
- **Foreign code.** bcrypt hashing and comparison, and JWT signing and verification, are parameters: a hash function, a match predicate, and a map from verified tokens to claims. An exception inside `jwt.verify` is a token missing from that map.
- **User lookup.** backend/models/User.js is not part of this model. The middleware's user lookup is a map parameter.
- **Email.** Email sending is fire-and-forget, and its errors are swallowed, so it is a no-op.
- **Sockets.** The socket.io transport, the library's own room cleanup on disconnect and client socket setup are left out. The server's disconnect handler only logs, which `Server.AfterEvent` states as "no change".
- **Concurrency.** Concurrent requests and read-modify-save races are not modelled. Each handler runs atomically.
- **Non-determinism.** `Date.now()` and the timestamps of the Order and Review schemas are a logical clock or a timestamp parameter. Fresh ObjectIds are parameters.
- **Other timestamps.** The Vendor, Customer and Menu schemas and the menu item subschema also set `timestamps: true`. Their `createdAt` and `updatedAt` are not modelled, because no operation of the core reads them.
- **Wrong request fields.** The routes read `req.customer` and `req.vendor`, but the middleware sets only `req.user`. The model takes the acting customer or vendor as a parameter, as if the intended field were set.
- **Uncalled middleware.** backend/routes/delivery.js:7 and backend/routes/review.js:8 pass the middleware factory without calling it. The model treats those routes as reachable with the acting user as a parameter.
- **Unset `req.io`.** backend/routes/delivery.js:17 and :35 emit through `req.io`, which is never set. The model emits as if it were the server's socket.
- **Customer router mount.** The customer router is mounted behind the customer middleware, so its register and login are not reachable without a token. The model describes the handlers themselves.
- **Undeclared order paths.** `deliveryAddress`, `razorpayPaymentId` and `deliveryPerson` are not paths of the Order schema, so a save drops them. The model never stores them. The mock payment id appears only in the receipt.
- **Reorder total.** Reorder writes `total` instead of the required `totalPrice`, so every reorder fails validation (`OrderLifecycle.ReorderAlwaysRejected`). This is modelled as written.
- **Refund status.** Refund writes "Refunded", which the payment enum rejects, so every refund of an existing order answers 500 (`OrderLifecycle.MarkRefunded`). This is modelled as written.
- **Address shape.** The routes and the profile page store addresses as plain strings, while the Customer schema declares subdocuments with a label. `CustomerModel.Customer.addresses` holds strings. `CustomerModel.NewAddressEntry` states the schema's own rule for an entry.
- **Favorites.** The customer's `favorites` list is carried unchanged. No operation of the core writes it.
- **Full-document routes.** GET /api/customer/vendors, the controller's getAllVendors and GET /api/customer/profile return stored documents, credentials included. They are plain reads of the collection and are not separate members.
- **Menu `_id` overrides.** A request body that carries its own `_id` in a menu update, spreading over the stored one, is not modelled. The item keeps its id.
- **Integer numbers.** Prices, quantities and totals are integers. Non-integer and floating-point prices are not modelled.
- **Float ratings.** Client ratings are integer tenths. `Number()` forms other than "", a digit string and a digit string with one decimal digit (surrounding whitespace, more decimals, exponents, signs) are treated as NaN.
- **NaN in the rating sort.** The comparator returns NaN for a non-numeric rating. The model sorts such a vendor as rating 0, which the JavaScript sort does not promise.
- **`localeCompare`.** It is the code-unit lexicographic order. Locale collation is not modelled.
- **Letter case.** `toLowerCase` maps only A-Z. Other Unicode case mappings are not modelled.
- **Vendor extras table.** The client's table of vendor images and ratings is a parameter.
- **Razorpay.** Script loading, the checkout options and the payment callback are parameters: whether the SDK loaded, and the order placement that follows a payment. The payment itself is not modelled.
- **Cart total state.** The `total` state is assumed to equal the cart total when checkout reads it.
- Cart.UpdateQuantity: the shallow array copy shares entry objects with the previous cart, and the source mutates the shared object. The model writes a fresh entry into a copied array, so the aliasing is not captured.
- Home.Cuisines: the contract states distinctness and exactly which cuisines appear, but not that they appear in first-occurrence order.
- ReviewRoutes.ReviewStore.Respond: a response missing from the body (undefined) is modelled as a string.
- OrderLifecycle.UpdateStatus: the requested status is a string, so a body without `status` cannot be expressed. In the source an undefined status passes the enum validator, the save succeeds with the status path unset, and the route answers 200 and emits the event.
- OrderLifecycle.ManualStatus: the requested status is a string, so a body without `status` cannot be expressed. In the source an undefined status passes the enum validator, the save succeeds with the status path unset, and the route answers 200 and broadcasts the order.
- CustomerRoutes.CustomerStore.Register: as written, the route stores the address string where the schema expects a `{label, address}` subdocument, so the cast fails and any registration with a non-empty address answers 500. The model stores the intended list of address strings and reports success.
- CustomerRoutes.CustomerStore.UpdateProfile: as written, a string list of addresses cannot be cast to the schema's subdocuments, so an update carrying non-empty address strings answers 500. The model stores the intended string list and reports success.
- **Client room membership.** The pages that listen for order events (CustomerDashboard.js:79-84, Orders.js:45-50, VendorDashboard.js:31-38) never join a room. Only Checkout.js:27 emits `joinRoom`, on a socket that listens for nothing. VendorDashboard.js:34 emits `joinVendor`, which the server does not handle. The model states what the server emits to which room, not which clients receive it.
- **Malformed ids.** Ids are arbitrary strings, assumed to be well-formed ObjectIds. In the source, `findById` and `findOne` throw a cast error on an id that is not an ObjectId, and each handler's catch answers 500. The model answers the handler's 404 for every unknown id.
- Cart.AddByIdAndVendor: the page never reaches it. CustomerMenu.js:54 tests `vendor.menu?.items?.length`, but the listing's `menu` is the embedded array of backend/routes/vendor.js:181 and has no `items`. So the page always shows "No items available" and never calls `addToCart`. The model states what `addToCart` would do.
- Cart.AddByIdAndVendorCount: it is about `Cart.AddByIdAndVendor`, which the page never reaches (see above).
- **Other files.** Admin, the auth controller and routes, the menu controller, the MenuItem model and the remaining client pages are not part of this model. They are thin wrappers or duplicate the logic above.
