# Hotel services: a verified model

This project models the core of a small hotel-services web app. Guests browse rooms, book one, order food to their room, and see their bookings and orders. The model covers three layers:

- **The in-memory store** (`Storage.MemStorage`). It is a class with four JavaScript `Map`s: rooms, food items, room bookings and food orders. Each map is a `map` field with a companion sequence of keys, so that listing keeps `Map`'s insertion order. The store is built with three sample rooms and six sample food items. It creates records from drafts and changes the `status` of a booking or an order in place.
- **The REST handlers** (`Routes`). Each handler is a method that decides the status code (200, 201, 400 or 404) from the request and the store's answer, and calls the store.
- **The client-side list logic**:
  - the cart held by the home page (`Cart`);
  - the checkout payload and quantity buttons of the cart drawer (`CartModal`);
  - the rooms' filters and sort (`RoomsSection`);
  - the menu's category filter (`FoodSection`);
  - the booking form's rules and payload (`BookingModal`);
  - the text helpers of the bookings page (`BookingsSection`).

  All of these are pure functions on sequences.

Record shapes and drafts are in `Schema`. A draft is the insert shape, without `id` and `createdAt`.

Two representation choices apply throughout:

- **Money and ratings.** Prices are integer cents and ratings are integer tenths. The columns are decimals of scale 2 and 1 (shared/schema.ts:10,14), so these integers are exact.
- **Defaults.** Columns that have a database default are `Option` in the drafts and in the stored records: `status` (default "confirmed" / "preparing") and `available` (default true). `None` means the property was absent. `MemStorage` builds a record by spreading the draft and never applies these defaults. The defaults live in `Schema` with the functions that apply them.

Some values come from outside the code:

- The id from `randomUUID()` is a parameter, required to be absent from the map.
- The timestamp from `new Date()` is a parameter.
- A schema parse (`insertRoomBookingSchema.parse`, `insertFoodOrderSchema.parse`) is a function parameter that returns a draft or a list of issues.
- The e-mail rule of the booking form is a predicate parameter.

Shared helpers:

- `Seqs`: filter with subsequence and multiset facts, and a stable insertion sort by an integer key.
- `Text`: ASCII case mapping and substring search.
- `JsMap`: the key-order bookkeeping.

## Model

| member | source | states |
|---|---|---|
| Storage.SampleRoomIdsDistinct | server/storage.ts:46-83 | the seed has 3 rooms, each under its own fixed id, with the ids distinct |
| Storage.SampleFoodItemIdsDistinct | server/storage.ts:86-159 | the seed has 6 food items, each under its own fixed id, with the ids distinct |
| Storage.RoomTable | server/storage.ts:161 | setting each room in turn under its id leaves a map that lists the rooms in order, keys them in id order, and stores every room under its own id |
| Storage.FoodItemTable | server/storage.ts:162 | the same for food items |
| Storage.MemStorage.constructor | server/storage.ts:34-42 | a new store lists exactly the sample rooms and food items in seed order, 3 and 6 of them, with no bookings and no orders |
| Storage.MemStorage.InitializeData | server/storage.ts:44-163 | seeds the sample rooms then the sample food items, in seed order, and leaves bookings and orders empty |
| Storage.MemStorage.SeedRooms | server/storage.ts:161 | for any list with distinct ids, the room map then lists exactly that list, in order, and the other collections are unchanged |
| Storage.MemStorage.SeedFoodItems | server/storage.ts:162 | the same for food items, and the room listing is unchanged |
| Storage.MemStorage.GetRooms | server/storage.ts:166-168 | the list has one entry per key, in insertion order, and contains exactly the map's values |
| Storage.MemStorage.GetRoom | server/storage.ts:170-172 | returns the stored room exactly when the id is a key, and that room carries the id |
| Storage.MemStorage.CreateRoom | server/storage.ts:174-179 | given a fresh id, the result is the draft plus that id; the map gains exactly that key; the list grows by that room at the end; the other collections are unchanged |
| Storage.MemStorage.GetFoodItems | server/storage.ts:182-184 | the food-item list is exactly the map's values in insertion order |
| Storage.MemStorage.GetFoodItem | server/storage.ts:186-188 | the stored item exactly when the id is a key |
| Storage.MemStorage.CreateFoodItem | server/storage.ts:190-195 | draft plus fresh id, stored under it and appended to the list; other collections unchanged |
| Storage.MemStorage.GetRoomBookings | server/storage.ts:198-200 | the booking list is exactly the map's values in insertion order |
| Storage.MemStorage.GetRoomBooking | server/storage.ts:202-204 | the stored booking exactly when the id is a key |
| Storage.MemStorage.CreateRoomBooking | server/storage.ts:206-215 | draft plus fresh id plus the given creation time; afterwards lookup by that id returns it; the map grows by exactly one key; other collections unchanged |
| Storage.MemStorage.UpdateRoomBookingStatus | server/storage.ts:217-224 | on a stored id it returns the booking with only `status` replaced and stores it under the same key; other bookings, the key set, the list order and the other collections are unchanged; on a missing id it returns nothing and changes nothing |
| Storage.MemStorage.GetFoodOrders | server/storage.ts:227-229 | the order list is exactly the map's values in insertion order |
| Storage.MemStorage.GetFoodOrder | server/storage.ts:231-233 | the stored order exactly when the id is a key |
| Storage.MemStorage.CreateFoodOrder | server/storage.ts:235-244 | draft plus fresh id and creation time, stored and appended; other collections unchanged |
| Storage.MemStorage.UpdateFoodOrderStatus | server/storage.ts:246-253 | the same two cases as for bookings, for orders |
| JsMap.SetKeepsOrdered | server/storage.ts:177 | `Map.set` keeps every key listed once, and a new key is appended |
| JsMap.ValuesAfterSet | server/storage.ts:177 | after `set`, the values list grows by the new value for a new key, or changes in that key's place only for an existing key |
| JsMap.ValuesAreMapValues | server/storage.ts:167 | `Array.from(map.values())` has one entry per key and contains exactly the map's values |
| Routes.GetRoomsRoute | api/routes.ts:9-16 | 200 with the store's room list |
| Routes.GetRoomRoute | api/routes.ts:18-28 | 200 with the stored room when the id is a key, otherwise 404 "Room not found" |
| Routes.GetFoodItemsRoute | api/routes.ts:31-38 | 200 with the store's food-item list |
| Routes.GetFoodItemRoute | api/routes.ts:40-50 | 200 with the stored item, otherwise 404 "Food item not found" |
| Routes.GetRoomBookingsRoute | api/routes.ts:53-60 | 200 with the store's booking list |
| Routes.PostRoomBookingRoute | api/routes.ts:62-73 | a body the schema rejects gives 400 "Invalid booking data" with the parser's issues, and the store is untouched; a body it accepts gives 201 with the draft plus the new id and time, stored and appended, other collections unchanged |
| Routes.PatchRoomBookingStatusRoute | api/routes.ts:75-91 | a missing or empty status gives 400 "Status is required" and leaves the store untouched; an unknown id gives 404 "Booking not found" and no booking changes; otherwise 200 with the booking whose status alone is replaced |
| Routes.GetFoodOrdersRoute | api/routes.ts:94-101 | 200 with the store's order list |
| Routes.PostFoodOrderRoute | api/routes.ts:103-114 | 400 "Invalid order data" with the issues and the store untouched, or 201 with the created order |
| Routes.PatchFoodOrderStatusRoute | api/routes.ts:116-132 | 400 "Status is required" (store untouched), 404 "Order not found", or 200 with only the status replaced |
| Schema.RoomFrom | shared/schema.ts:55-57 | the room is its draft plus the id, and carries every other column unchanged |
| Schema.FoodItemFrom | shared/schema.ts:59-61 | the food item is its draft plus the id |
| Schema.BookingFrom | shared/schema.ts:63-66 | the booking is its draft plus id and `createdAt` |
| Schema.OrderFrom | shared/schema.ts:68-71 | the order is its draft plus id and `createdAt` |
| Schema.RecordsRebuildFromDrafts | shared/schema.ts:55-71 | a record is determined by its draft and the columns the draft omits |
| Schema.BookingStatusWithDefault | shared/schema.ts:42 | with the column default applied, an absent booking status reads "confirmed" and a present one is kept |
| Schema.OrderStatusWithDefault | shared/schema.ts:51 | an absent order status reads "preparing" |
| Schema.AvailableWithDefault | shared/schema.ts:16 | availability is true unless it is explicitly false |
| Cart.AddToCart | client/src/pages/home.tsx:22-34 | a new id is appended as one unit at the captured name and price; an existing id's line alone gains one unit, and the length, names, prices and other lines are kept |
| Cart.RemoveFromCart | client/src/pages/home.tsx:48-50 | no line with the id remains, and every other line is kept as often as it occurred |
| Cart.UpdateCartQuantity | client/src/pages/home.tsx:36-46 | a quantity of at most 0 removes the line; a positive one replaces the quantity of the line with that id only, so an absent id changes nothing |
| Cart.CartItemCount | client/src/pages/home.tsx:58 | the sum of the quantities; its properties are stated by Cart.CountConcat, Cart.CountEmptyCart and Cart.CountAtLeastLines |
| Cart.CartTotal | client/src/pages/home.tsx:57 | the sum of price times quantity, in cents; its properties are stated by Cart.CountConcat, Cart.CountEmptyCart and Cart.AddToCartCount |
| Cart.CountConcat | client/src/pages/home.tsx:57-58 | item count and total of a concatenation are the sums of the parts |
| Cart.CountEmptyCart | client/src/pages/home.tsx:58 | the empty cart has count 0 and total 0 |
| Cart.CountAtLeastLines | client/src/pages/home.tsx:58 | in a well-formed cart the item count is at least the number of lines |
| Cart.RemoveFromCartSpec | client/src/pages/home.tsx:48-50 | for a cart with unique ids: removal keeps the rest in order, drops exactly the one line with that id and lowers the count by its quantity, and an absent id changes nothing |
| Cart.AddToCartCount | client/src/pages/home.tsx:22-34 | adding raises the item count by exactly one and the total by the line's captured price |
| Cart.UpdateCartQuantityCount | client/src/pages/home.tsx:40-44 | a positive quantity changes the count by its difference from the old one; an absent id gives the same cart |
| Cart.AddToCartKeepsWellFormed | client/src/pages/home.tsx:24-32 | adding keeps ids unique and quantities at least 1 |
| Cart.RemoveFromCartKeepsWellFormed | client/src/pages/home.tsx:49 | removing keeps the cart well-formed |
| Cart.UpdateCartQuantityKeepsWellFormed | client/src/pages/home.tsx:37-44 | setting any quantity keeps the cart well-formed |
| CartModal.ItemsJson | client/src/components/cart-modal.tsx:39-44 | the posted items have the cart's length and order, line by line |
| CartModal.LineJson | client/src/components/cart-modal.tsx:39-44 | one posted line with `id`, `name`, `price` and `quantity`; CartModal.DecodeItemsJson proves it loses nothing |
| CartModal.CheckoutOrder | client/src/components/cart-modal.tsx:37-47 | the order is for room "1205", with status "preparing", the page's total and the cart's lines |
| CartModal.CheckoutShown | client/src/components/cart-modal.tsx:124 | the Checkout area shows iff the cart is non-empty; CartModal.CheckoutPosts states what an order posted from it carries |
| CartModal.CheckoutPosts | client/src/components/cart-modal.tsx:124 | an order can only be posted from a non-empty cart, so it carries at least one line |
| CartModal.DecodeItemsJson | client/src/components/cart-modal.tsx:39-44 | the posted lines read back as exactly the cart, with id, name, price and quantity copied |
| CartModal.MinusAtOneRemoves | client/src/components/cart-modal.tsx:99 | minus on a line at quantity 1 removes that line and only it, and lowers the count by one |
| CartModal.MinusPlusCount | client/src/components/cart-modal.tsx:99-106 | minus above 1 lowers the count by one; plus raises it by one |
| CartModal.MinusRequest | client/src/components/cart-modal.tsx:99 | the minus button asks for the line's quantity less one; CartModal.MinusAtOneRemoves and CartModal.MinusPlusCount state its effect |
| CartModal.PlusRequest | client/src/components/cart-modal.tsx:106 | the plus button asks for the line's quantity plus one; CartModal.MinusPlusCount states its effect |
| Text.Contains | client/src/components/rooms-section.tsx:88 | `includes` holds exactly when the needle occurs at some position |
| Text.Lower | client/src/components/rooms-section.tsx:88 | same length, and every character mapped by the ASCII lower-casing |
| RoomsSection.FilteredRooms | client/src/components/rooms-section.tsx:74-91 | exactly the fetched rooms that pass all three filters, each as often as it was fetched, and nothing before the rooms are fetched |
| RoomsSection.InPriceRange | client/src/components/rooms-section.tsx:77-82 | one price-range case; RoomsSection.PriceRangeBoundaries states its inclusive bounds and its default branch |
| RoomsSection.Matches | client/src/components/rooms-section.tsx:75-91 | the per-room test of the filter callback; RoomsSection.FiltersCombineByConjunction states it as the conjunction of the three tests |
| RoomsSection.FilteredRoomsInOrder | client/src/components/rooms-section.tsx:74 | the filtered list is a subsequence of the fetched list |
| RoomsSection.NoFiltersKeepAll | client/src/components/rooms-section.tsx:76-86 | with no filter checked every room is kept, in order |
| RoomsSection.FiltersCombineByConjunction | client/src/components/rooms-section.tsx:91 | a room is kept iff it passes the price, type and amenity tests, each empty list passing everything |
| RoomsSection.TvMatchesSmartTv | client/src/components/rooms-section.tsx:86-89 | amenity matching is by case-insensitive substring: "TV" finds "Smart TV" but not "WiFi" or "AC" |
| RoomsSection.PriceRangeBoundaries | client/src/components/rooms-section.tsx:77-82 | both bounds are inclusive, so 100.00 is in '50-100' and '100-200'; '200+' starts at 200.00; an unknown range passes any price |
| Seqs.InsertMultiset | client/src/components/rooms-section.tsx:94-103 | the insertion step of the sort adds exactly one copy of the element |
| RoomsSection.SortedRooms | client/src/components/rooms-section.tsx:94-103 | a permutation of the filtered list, ascending by price for 'price', descending by rating for 'rating', unchanged otherwise |
| RoomsSection.Toggle | client/src/components/rooms-section.tsx:126-131 | checking appends the value; unchecking removes every copy and keeps each other value as often as it occurred |
| RoomsSection.UncheckKeepsOrder | client/src/components/rooms-section.tsx:130 | unchecking keeps the other values in their order |
| RoomsSection.ClearFilters | client/src/components/rooms-section.tsx:199-203 | all three lists become empty |
| FoodSection.FilteredItems | client/src/components/food-section.tsx:53-55 | 'all' gives the fetched menu unchanged; any other category gives exactly the items of that category, each as often as fetched, compared case-sensitively |
| FoodSection.FilteredItemsInOrder | client/src/components/food-section.tsx:55 | the filtered menu is a subsequence of the fetched menu |
| FoodSection.ShowsNoItems | client/src/components/food-section.tsx:129 | `filteredItems?.length === 0`; FoodSection.ShowsNoItemsIff states when it holds |
| FoodSection.ShowsNoItemsIff | client/src/components/food-section.tsx:129 | "No items found" shows iff the menu is fetched and no item has the chosen category (or the menu is empty, for 'all') |
| BookingModal.FormRules | client/src/components/booking-modal.tsx:17-24 | the form passes iff the name has at least 2 characters, the e-mail is valid, the phone has at least 10, and the dates and guests are non-empty; each failed rule is reported under its own field |
| BookingModal.FormIssues | client/src/components/booking-modal.tsx:17-24 | the schema's issues, one per failed rule, in field order; BookingModal.FormRules and BookingModal.FieldFailsIff state when each appears |
| BookingModal.FieldFailsIff | client/src/components/booking-modal.tsx:17-24 | a field is reported exactly when one of its own rules fails |
| BookingModal.DefaultFormRejected | client/src/components/booking-modal.tsx:45-52 | the untouched form fails on the name |
| BookingModal.TrimStartDropsBlanks | client/src/components/booking-modal.tsx:66 | `parseInt`'s skip of leading blanks drops only blanks and keeps the rest of the text unchanged |
| BookingModal.ParseInt | client/src/components/booking-modal.tsx:66 | `parseInt` in base 10, `None` for NaN; BookingModal.ParseIntDecimal and BookingModal.GuestOptionsParse state what it reads |
| BookingModal.ParseIntDecimal | client/src/components/booking-modal.tsx:66 | `parseInt` reads back every natural number written in decimal |
| BookingModal.GuestOptionsParse | client/src/components/booking-modal.tsx:167-170 | the guest choices "1" to "4" give 1 to 4 guests |
| BookingModal.BookingPayload | client/src/components/booking-modal.tsx:57-69 | without a loaded room the submission fails with "Room not found"; with a room and a guests field `parseInt` can read, the booking carries the form's fields, the room's id, one night at the room's price, and status "confirmed" |
| BookingsSection.StatusColor | client/src/components/bookings-section.tsx:17-25 | green iff the lower-cased status is "confirmed" or "delivered", red iff "cancelled", blue iff "preparing", yellow iff "ready", gray otherwise |
| BookingsSection.StatusColorIgnoresCase | client/src/components/bookings-section.tsx:18 | statuses that differ only in case get the same badge |
| BookingsSection.StatusLabel | client/src/components/bookings-section.tsx:105 | same length; the first character upper-cased and the rest unchanged |
| BookingsSection.StatusLabelExamples | client/src/components/bookings-section.tsx:166 | "confirmed" shows as "Confirmed", "Ready" stays "Ready", and the empty status stays empty |
| BookingsSection.GuestLabel | client/src/components/bookings-section.tsx:120 | "Guest" iff the count is 1, otherwise "Guests" |
| BookingsSection.ShortId | client/src/components/bookings-section.tsx:102 | a prefix of the id of length min(8, its length) |

The code takes `randomUUID()` on trust and never checks that an id is unused, so the create methods require a fresh id of their callers rather than proving uniqueness.

## Left out

- Rendering (JSX, CSS classes, icons), navigation.tsx and hero-search.tsx: presentation only. `CheckoutShown` and `ShowsNoItems` keep only the conditions that decide whether a part of the page appears.
- React Query fetching and cache invalidation, toasts, `useForm` and `useState`: framework state and I/O. The cart functions take the previous list and return the next one, as the setters' callbacks do.
- The Express server, `createServer`, and the `async`/`Promise` plumbing: handlers and store are synchronous, since the process is single-threaded.
- The 500 branches of the handlers: the store model cannot throw, so these branches cannot be reached in the model.
- server/db.ts and api/seed.ts: database I/O. They are not part of this model.
- `randomUUID()` and `new Date()`: these are parameters. The id is required to be fresh, and the timestamp is an opaque value.
- Zod and drizzle-zod: schema derivation and parsing are a parser parameter. The e-mail regex is a predicate parameter of `BookingModal.FormIssues`.
- Floating point: `parseFloat`, `toFixed`, `toString`, the float `cartTotal` and the per-line price × quantity on the bookings page. Money is integer cents throughout.
- CartModal.LineJson: posts the line price as a JSON number of cents, where the page sends `price.toString()` of a float.
- CartModal.CheckoutOrder: takes the total as cents, where the page sends `total.toFixed(2)`.
- `formatDate` / `formatTime`: locale date formatting.
- Text.Lower, Text.UpperChar: change ASCII letters only. JavaScript's full Unicode case mapping is not modelled. Lengths count characters, not UTF-16 code units.
- Routes.PatchRoomBookingStatusRoute, Routes.PatchFoodOrderStatusRoute: take the body's `status` as an optional string. Other JSON values (numbers, `true`, objects) are not modelled; they pass `!status` in the source and are stored as they are.
- RoomsSection.SortedRooms: states the permutation and the ordering, but not that rooms with equal keys keep their relative order, although `Array.prototype.sort` and the model's insertion sort are both stable.
- Storage.MemStorage.UpdateRoomBookingStatus, Storage.MemStorage.UpdateFoodOrderStatus: the source mutates the stored object (`booking.status = status`), and any earlier holder of that object sees the change. Records here are values, so that aliasing is not modelled. The stored entry and the returned record are the same value, as in the source.
- BookingModal.ParseInt: handles leading blanks, a sign and decimal digits. The `0x` prefix, blanks outside ASCII (such as the no-break space), and the float range of the result are not modelled.
- client/src/lib/data.ts: constants only. It is not part of this model.
- BookingModal.BookingPayload: when `parseInt` gives `NaN` the page still posts the booking, with `guests: null` after JSON encoding, and the server's schema refuses it. The model stops on the client with `GuestsNotANumber` instead. The page's select offers only "1" to "4", so the case does not arise from the form.
- BookingsSection.StatusColor, BookingsSection.StatusLabel: take the status as a string. `MemStorage` stores a booking posted without `status` with no status at all (see `Schema.BookingStatusWithDefault`), and the page would then call `toLowerCase` and `charAt` on `undefined`. That failure is not modelled.
- The dialog's `if (!isOpen || !roomId) return null` guard in booking-modal.tsx: presentation only.
