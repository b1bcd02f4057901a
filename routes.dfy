/** The REST handlers. Each one decides a status code from the request and
    the store's answer; the store is the one built at process start. */
module Routes {
  import opened Wrappers
  import opened Schema
  import opened Storage

  /** One field-level complaint of a failed schema parse. */
  datatype Issue = Issue(path: seq<string>, message: string)

  /** A schema parse of a request body: the draft, or the issues found. */
  type Parser<T> = Json -> Result<T, seq<Issue>>

  datatype Response<T> =
    | Ok(code: int, body: T)
    | Error(code: int, message: string, errors: seq<Issue>)

  /** `!status` is false: the body's `status` is present and not the empty string. */
  predicate StatusGiven(status: Option<string>) {
    status.Some? && status.value != ""
  }

  /** GET /api/rooms */
  method GetRoomsRoute(store: MemStorage) returns (resp: Response<seq<Room>>)
    requires store.Valid()
    ensures resp.Ok? && resp.code == 200
    ensures forall x :: x in resp.body <==> x in store.rooms.Values
    ensures resp.body == store.GetRooms()
  {
    resp := Ok(200, store.GetRooms());
  }

  /** GET /api/rooms/:id */
  method GetRoomRoute(store: MemStorage, id: string) returns (resp: Response<Room>)
    requires store.Valid()
    ensures id in store.rooms ==> resp == Ok(200, store.rooms[id]) && resp.body.id == id
    ensures id !in store.rooms ==> resp == Error(404, "Room not found", [])
  {
    var room := store.GetRoom(id);
    if room.None? {
      return Error(404, "Room not found", []);
    }
    resp := Ok(200, room.value);
  }

  /** GET /api/food-items */
  method GetFoodItemsRoute(store: MemStorage) returns (resp: Response<seq<FoodItem>>)
    requires store.Valid()
    ensures resp.Ok? && resp.code == 200
    ensures forall x :: x in resp.body <==> x in store.foodItems.Values
    ensures resp.body == store.GetFoodItems()
  {
    resp := Ok(200, store.GetFoodItems());
  }

  /** GET /api/food-items/:id */
  method GetFoodItemRoute(store: MemStorage, id: string) returns (resp: Response<FoodItem>)
    requires store.Valid()
    ensures id in store.foodItems ==> resp == Ok(200, store.foodItems[id]) && resp.body.id == id
    ensures id !in store.foodItems ==> resp == Error(404, "Food item not found", [])
  {
    var item := store.GetFoodItem(id);
    if item.None? {
      return Error(404, "Food item not found", []);
    }
    resp := Ok(200, item.value);
  }

  /** GET /api/room-bookings */
  method GetRoomBookingsRoute(store: MemStorage) returns (resp: Response<seq<RoomBooking>>)
    requires store.Valid()
    ensures resp.Ok? && resp.code == 200
    ensures forall x :: x in resp.body <==> x in store.roomBookings.Values
    ensures resp.body == store.GetRoomBookings()
  {
    resp := Ok(200, store.GetRoomBookings());
  }

  /** POST /api/room-bookings, where `parse` is `insertRoomBookingSchema.parse`,
      `id` is what `randomUUID()` returns and `now` what `new Date()` returns. */
  method PostRoomBookingRoute(store: MemStorage, body: Json, parse: Parser<InsertRoomBooking>,
                              id: string, now: Timestamp) returns (resp: Response<RoomBooking>)
    requires store.Valid()
    requires id !in store.roomBookings
    modifies store
    ensures store.Valid()
    ensures parse(body).Failure? ==>
      && resp == Error(400, "Invalid booking data", parse(body).error)
      && unchanged(store)
    ensures parse(body).Success? ==>
      && resp == Ok(201, BookingFrom(parse(body).value, id, now))
      && store.roomBookings == old(store.roomBookings)[id := resp.body]
      && store.GetRoomBookings() == old(store.GetRoomBookings()) + [resp.body]
      && unchanged(store`rooms, store`roomOrder, store`foodItems, store`foodItemOrder,
                   store`foodOrders, store`foodOrderOrder)
  {
    var validated := parse(body);
    if validated.Failure? {
      return Error(400, "Invalid booking data", validated.error);
    }
    var booking := store.CreateRoomBooking(validated.value, id, now);
    resp := Ok(201, booking);
  }

  /** PATCH /api/room-bookings/:id/status with the body's `status` field. */
  method PatchRoomBookingStatusRoute(store: MemStorage, id: string, status: Option<string>)
    returns (resp: Response<RoomBooking>)
    requires store.Valid()
    modifies store
    ensures store.Valid()
    ensures !StatusGiven(status) ==> resp == Error(400, "Status is required", []) && unchanged(store)
    ensures StatusGiven(status) && id !in old(store.roomBookings) ==>
      && resp == Error(404, "Booking not found", [])
      && store.roomBookings == old(store.roomBookings)
    ensures StatusGiven(status) && id in old(store.roomBookings) ==>
      && resp == Ok(200, old(store.roomBookings)[id].(status := status))
      && store.roomBookings == old(store.roomBookings)[id := resp.body]
    ensures store.roomBookingOrder == old(store.roomBookingOrder)
    ensures unchanged(store`rooms, store`roomOrder, store`foodItems, store`foodItemOrder,
                      store`foodOrders, store`foodOrderOrder)
  {
    if !StatusGiven(status) {
      return Error(400, "Status is required", []);
    }
    var booking := store.UpdateRoomBookingStatus(id, status.value);
    if booking.None? {
      return Error(404, "Booking not found", []);
    }
    resp := Ok(200, booking.value);
  }

  /** GET /api/food-orders */
  method GetFoodOrdersRoute(store: MemStorage) returns (resp: Response<seq<FoodOrder>>)
    requires store.Valid()
    ensures resp.Ok? && resp.code == 200
    ensures forall x :: x in resp.body <==> x in store.foodOrders.Values
    ensures resp.body == store.GetFoodOrders()
  {
    resp := Ok(200, store.GetFoodOrders());
  }

  /** POST /api/food-orders, where `parse` is `insertFoodOrderSchema.parse`. */
  method PostFoodOrderRoute(store: MemStorage, body: Json, parse: Parser<InsertFoodOrder>,
                            id: string, now: Timestamp) returns (resp: Response<FoodOrder>)
    requires store.Valid()
    requires id !in store.foodOrders
    modifies store
    ensures store.Valid()
    ensures parse(body).Failure? ==>
      && resp == Error(400, "Invalid order data", parse(body).error)
      && unchanged(store)
    ensures parse(body).Success? ==>
      && resp == Ok(201, OrderFrom(parse(body).value, id, now))
      && store.foodOrders == old(store.foodOrders)[id := resp.body]
      && store.GetFoodOrders() == old(store.GetFoodOrders()) + [resp.body]
      && unchanged(store`rooms, store`roomOrder, store`foodItems, store`foodItemOrder,
                   store`roomBookings, store`roomBookingOrder)
  {
    var validated := parse(body);
    if validated.Failure? {
      return Error(400, "Invalid order data", validated.error);
    }
    var order := store.CreateFoodOrder(validated.value, id, now);
    resp := Ok(201, order);
  }

  /** PATCH /api/food-orders/:id/status with the body's `status` field. */
  method PatchFoodOrderStatusRoute(store: MemStorage, id: string, status: Option<string>)
    returns (resp: Response<FoodOrder>)
    requires store.Valid()
    modifies store
    ensures store.Valid()
    ensures !StatusGiven(status) ==> resp == Error(400, "Status is required", []) && unchanged(store)
    ensures StatusGiven(status) && id !in old(store.foodOrders) ==>
      && resp == Error(404, "Order not found", [])
      && store.foodOrders == old(store.foodOrders)
    ensures StatusGiven(status) && id in old(store.foodOrders) ==>
      && resp == Ok(200, old(store.foodOrders)[id].(status := status))
      && store.foodOrders == old(store.foodOrders)[id := resp.body]
    ensures store.foodOrderOrder == old(store.foodOrderOrder)
    ensures unchanged(store`rooms, store`roomOrder, store`foodItems, store`foodItemOrder,
                      store`roomBookings, store`roomBookingOrder)
  {
    if !StatusGiven(status) {
      return Error(400, "Status is required", []);
    }
    var order := store.UpdateFoodOrderStatus(id, status.value);
    if order.None? {
      return Error(404, "Order not found", []);
    }
    resp := Ok(200, order.value);
  }
}
