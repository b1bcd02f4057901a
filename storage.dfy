/** The in-memory entity store: four JavaScript `Map`s keyed by id, seeded with
    three rooms and six food items when the store is built. */
module Storage {
  import opened Wrappers
  import opened Schema
  import JsMap

  /** Every sample image is an 800x600 crop of a photo on the same image host. */
  function UnsplashImage(photo: string): string {
    "https://images.unsplash.com/photo-" + photo + "?ixlib=rb-4.0.3&auto=format&fit=crop&w=800&h=600"
  }

  const SampleRooms: seq<Room> := [
    Room("deluxe-king", "Deluxe King Room", "double", 14900,
         "Spacious room with king bed, city view, and modern amenities",
         UnsplashImage("1611892440504-42a792e24d32"),
         ["WiFi", "AC", "TV", "Balcony"], 48, 124, Some(true)),
    Room("executive-suite", "Executive Suite", "suite", 24900,
         "Luxury suite with separate living area, premium amenities and panoramic views",
         UnsplashImage("1582719478250-c89cae4dc85b"),
         ["WiFi", "AC", "Smart TV", "Balcony", "Room Service"], 49, 89, Some(true)),
    Room("standard-twin", "Standard Twin Room", "single", 8900,
         "Comfortable twin bed room perfect for friends or business travelers",
         UnsplashImage("1564501049412-61c2a3083791"),
         ["WiFi", "AC", "TV"], 43, 67, Some(true))
  ]

  const SampleFoodItems: seq<FoodItem> := [
    FoodItem("grilled-salmon", "Grilled Salmon", "mains", 2499,
             "Fresh Atlantic salmon with herbs and seasonal vegetables",
             UnsplashImage("1467003909585-2f8a72700288"),
             48, 45, 25, Some(true)),
    FoodItem("classic-burger", "Classic Beef Burger", "mains", 1899,
             "Juicy beef patty with cheese, lettuce, tomato and fries",
             UnsplashImage("1568901346375-23c9450c58cd"),
             45, 72, 20, Some(true)),
    FoodItem("crispy-calamari", "Crispy Calamari", "appetizers", 1299,
             "Golden fried calamari rings with marinara sauce",
             UnsplashImage("1599487488170-d11ec9c172f0"),
             47, 38, 15, Some(true)),
    FoodItem("chocolate-cake", "Chocolate Cake", "desserts", 899,
             "Rich chocolate layer cake with fresh berries",
             UnsplashImage("1578985545062-69928b1d9587"),
             49, 56, 10, Some(true)),
    FoodItem("pasta-marinara", "Pasta Marinara", "mains", 1699,
             "Fresh pasta with traditional marinara sauce and basil",
             UnsplashImage("1621996346565-e3dbc353d2e5"),
             44, 29, 18, Some(true)),
    FoodItem("orange-juice", "Fresh Orange Juice", "beverages", 599,
             "Freshly squeezed orange juice, vitamin-rich and refreshing",
             UnsplashImage("1621506289937-a8e4df240d0b"),
             48, 83, 5, Some(true))
  ]

  const SampleRoomIds: seq<string> := ["deluxe-king", "executive-suite", "standard-twin"]
  const SampleFoodItemIds: seq<string> :=
    ["grilled-salmon", "classic-burger", "crispy-calamari", "chocolate-cake", "pasta-marinara", "orange-juice"]

  /** The ids of `rs`, in order. */
  function RoomIds(rs: seq<Room>): (ids: seq<string>)
    ensures |ids| == |rs| && forall i :: 0 <= i < |rs| ==> ids[i] == rs[i].id
  {
    seq(|rs|, i requires 0 <= i < |rs| => rs[i].id)
  }

  function FoodItemIds(fs: seq<FoodItem>): (ids: seq<string>)
    ensures |ids| == |fs| && forall i :: 0 <= i < |fs| ==> ids[i] == fs[i].id
  {
    seq(|fs|, i requires 0 <= i < |fs| => fs[i].id)
  }

  predicate Distinct(ids: seq<string>) {
    forall i, j :: 0 <= i < j < |ids| ==> ids[i] != ids[j]
  }

  /** The three sample rooms carry three different fixed ids. */
  lemma SampleRoomIdsDistinct()
    ensures RoomIds(SampleRooms) == SampleRoomIds && |SampleRooms| == 3 && Distinct(SampleRoomIds)
  {
  }

  /** The six sample food items carry six different fixed ids. */
  lemma SampleFoodItemIdsDistinct()
    ensures FoodItemIds(SampleFoodItems) == SampleFoodItemIds && |SampleFoodItems| == 6 && Distinct(SampleFoodItemIds)
  {
  }

  /** The map and key order that setting each room of `sample` under its id,
      in turn, leaves behind, starting from an empty map. */
  method RoomTable(sample: seq<Room>) returns (m: map<string, Room>, ks: seq<string>)
    requires Distinct(RoomIds(sample))
    ensures JsMap.Ordered(m, ks) && forall id :: id in m ==> m[id].id == id
    ensures ks == RoomIds(sample) && JsMap.Values(m, ks) == sample && |m| == |sample|
  {
    m, ks := map[], [];
    var i := 0;
    while i < |sample|
      invariant 0 <= i <= |sample|
      invariant JsMap.Ordered(m, ks) && forall id :: id in m ==> m[id].id == id
      invariant |ks| == i && forall j :: 0 <= j < i ==> ks[j] == sample[j].id
      invariant JsMap.Values(m, ks) == sample[..i]
    {
      var room := sample[i];
      assert room.id !in ks by { assert RoomIds(sample)[i] == room.id; }
      JsMap.SetKeepsOrdered(m, ks, room.id, room);
      JsMap.ValuesAfterSet(m, ks, room.id, room);
      ks := JsMap.KeysAfterSet(m, ks, room.id);
      m := m[room.id := room];
      assert sample[..i + 1] == sample[..i] + [room];
      i := i + 1;
    }
    assert sample[..i] == sample;
    JsMap.ValuesAreMapValues(m, ks);
  }

  /** The map and key order that setting each food item of `sample` under its id,
      in turn, leaves behind, starting from an empty map. */
  method FoodItemTable(sample: seq<FoodItem>) returns (m: map<string, FoodItem>, ks: seq<string>)
    requires Distinct(FoodItemIds(sample))
    ensures JsMap.Ordered(m, ks) && forall id :: id in m ==> m[id].id == id
    ensures ks == FoodItemIds(sample) && JsMap.Values(m, ks) == sample && |m| == |sample|
  {
    m, ks := map[], [];
    var i := 0;
    while i < |sample|
      invariant 0 <= i <= |sample|
      invariant JsMap.Ordered(m, ks) && forall id :: id in m ==> m[id].id == id
      invariant |ks| == i && forall j :: 0 <= j < i ==> ks[j] == sample[j].id
      invariant JsMap.Values(m, ks) == sample[..i]
    {
      var item := sample[i];
      assert item.id !in ks by { assert FoodItemIds(sample)[i] == item.id; }
      JsMap.SetKeepsOrdered(m, ks, item.id, item);
      JsMap.ValuesAfterSet(m, ks, item.id, item);
      ks := JsMap.KeysAfterSet(m, ks, item.id);
      m := m[item.id := item];
      assert sample[..i + 1] == sample[..i] + [item];
      i := i + 1;
    }
    assert sample[..i] == sample;
    JsMap.ValuesAreMapValues(m, ks);
  }

  class MemStorage {
    var rooms: map<string, Room>
    var roomOrder: seq<string>
    var foodItems: map<string, FoodItem>
    var foodItemOrder: seq<string>
    var roomBookings: map<string, RoomBooking>
    var roomBookingOrder: seq<string>
    var foodOrders: map<string, FoodOrder>
    var foodOrderOrder: seq<string>

    /** The key order lists each room id once, and every room is stored under its own id. */
    ghost predicate RoomsValid()
      reads this`rooms, this`roomOrder
    {
      JsMap.Ordered(rooms, roomOrder) && forall id :: id in rooms ==> rooms[id].id == id
    }

    ghost predicate FoodItemsValid()
      reads this`foodItems, this`foodItemOrder
    {
      JsMap.Ordered(foodItems, foodItemOrder) && forall id :: id in foodItems ==> foodItems[id].id == id
    }

    ghost predicate BookingsValid()
      reads this`roomBookings, this`roomBookingOrder
    {
      JsMap.Ordered(roomBookings, roomBookingOrder) && forall id :: id in roomBookings ==> roomBookings[id].id == id
    }

    ghost predicate OrdersValid()
      reads this`foodOrders, this`foodOrderOrder
    {
      JsMap.Ordered(foodOrders, foodOrderOrder) && forall id :: id in foodOrders ==> foodOrders[id].id == id
    }

    ghost predicate Valid()
      reads this
    {
      RoomsValid() && FoodItemsValid() && BookingsValid() && OrdersValid()
    }

    /** `new MemStorage()`: empty maps, then the sample rooms and food items. */
    constructor ()
      ensures Valid()
      ensures GetRooms() == SampleRooms && roomOrder == SampleRoomIds && |rooms| == 3
      ensures GetFoodItems() == SampleFoodItems && foodItemOrder == SampleFoodItemIds && |foodItems| == 6
      ensures roomBookings == map[] && roomBookingOrder == []
      ensures foodOrders == map[] && foodOrderOrder == []
    {
      rooms, roomOrder := map[], [];
      foodItems, foodItemOrder := map[], [];
      roomBookings, roomBookingOrder := map[], [];
      foodOrders, foodOrderOrder := map[], [];
      new;
      InitializeData();
    }

    /** `initializeData()`: seeds the rooms, then the food items. */
    method InitializeData()
      requires Valid()
      requires rooms == map[] && roomOrder == [] && foodItems == map[] && foodItemOrder == []
      requires roomBookings == map[] && roomBookingOrder == [] && foodOrders == map[] && foodOrderOrder == []
      modifies this`rooms, this`roomOrder, this`foodItems, this`foodItemOrder
      ensures Valid()
      ensures GetRooms() == SampleRooms && roomOrder == SampleRoomIds && |rooms| == 3
      ensures GetFoodItems() == SampleFoodItems && foodItemOrder == SampleFoodItemIds && |foodItems| == 6
      ensures roomBookings == map[] && roomBookingOrder == []
      ensures foodOrders == map[] && foodOrderOrder == []
    {
      SampleRoomIdsDistinct();
      SeedRooms(SampleRooms);
      SampleFoodItemIdsDistinct();
      SeedFoodItems(SampleFoodItems);
    }

    /** `sampleRooms.forEach(room => this.rooms.set(room.id, room))`, for a
        list whose ids are distinct; the other collections are left as they are. */
    method SeedRooms(sample: seq<Room>)
      requires Valid() && rooms == map[] && roomOrder == []
      requires Distinct(RoomIds(sample))
      modifies this`rooms, this`roomOrder
      ensures Valid()
      ensures GetRooms() == sample && |rooms| == |sample| && roomOrder == RoomIds(sample)
      ensures foodItems == old(foodItems) && foodItemOrder == old(foodItemOrder)
      ensures roomBookings == old(roomBookings) && roomBookingOrder == old(roomBookingOrder)
      ensures foodOrders == old(foodOrders) && foodOrderOrder == old(foodOrderOrder)
    {
      rooms, roomOrder := RoomTable(sample);
    }

    /** `sampleFoodItems.forEach(item => this.foodItems.set(item.id, item))`. */
    method SeedFoodItems(sample: seq<FoodItem>)
      requires Valid() && foodItems == map[] && foodItemOrder == []
      requires Distinct(FoodItemIds(sample))
      modifies this`foodItems, this`foodItemOrder
      ensures Valid()
      ensures GetFoodItems() == sample && |foodItems| == |sample| && foodItemOrder == FoodItemIds(sample)
      ensures GetRooms() == old(GetRooms()) && rooms == old(rooms) && roomOrder == old(roomOrder)
      ensures roomBookings == old(roomBookings) && roomBookingOrder == old(roomBookingOrder)
      ensures foodOrders == old(foodOrders) && foodOrderOrder == old(foodOrderOrder)
    {
      foodItems, foodItemOrder := FoodItemTable(sample);
    }

    /** `getRooms()`: the stored rooms, in the order their ids were first set. */
    function GetRooms(): (r: seq<Room>)
      reads this`rooms, this`roomOrder
      requires RoomsValid()
      ensures |r| == |rooms| && |r| == |roomOrder|
      ensures forall i :: 0 <= i < |r| ==> r[i] == rooms[roomOrder[i]]
      ensures forall x :: x in r <==> x in rooms.Values
    {
      JsMap.ValuesAreMapValues(rooms, roomOrder);
      JsMap.Values(rooms, roomOrder)
    }

    /** `getRoom(id)`: the room stored under `id`, or `undefined`. */
    function GetRoom(id: string): (r: Option<Room>)
      reads this`rooms, this`roomOrder
      requires RoomsValid()
      ensures r.Some? <==> id in rooms
      ensures r.Some? ==> r.value == rooms[id] && r.value.id == id
    {
      if id in rooms then Some(rooms[id]) else None
    }

    /** `createRoom(d)` with `id` the value `randomUUID()` returned. */
    method CreateRoom(d: InsertRoom, id: string) returns (room: Room)
      requires RoomsValid()
      requires id !in rooms
      modifies this`rooms, this`roomOrder
      ensures RoomsValid()
      ensures room.id == id && RoomDraft(room) == d
      ensures rooms == old(rooms)[id := room] && |rooms| == old(|rooms|) + 1
      ensures GetRoom(id) == Some(room)
      ensures GetRooms() == old(GetRooms()) + [room]
    {
      room := RoomFrom(d, id);
      JsMap.SetKeepsOrdered(rooms, roomOrder, id, room);
      JsMap.ValuesAfterSet(rooms, roomOrder, id, room);
      roomOrder := JsMap.KeysAfterSet(rooms, roomOrder, id);
      rooms := rooms[id := room];
    }

    function GetFoodItems(): (r: seq<FoodItem>)
      reads this`foodItems, this`foodItemOrder
      requires FoodItemsValid()
      ensures |r| == |foodItems| && |r| == |foodItemOrder|
      ensures forall i :: 0 <= i < |r| ==> r[i] == foodItems[foodItemOrder[i]]
      ensures forall x :: x in r <==> x in foodItems.Values
    {
      JsMap.ValuesAreMapValues(foodItems, foodItemOrder);
      JsMap.Values(foodItems, foodItemOrder)
    }

    function GetFoodItem(id: string): (r: Option<FoodItem>)
      reads this`foodItems, this`foodItemOrder
      requires FoodItemsValid()
      ensures r.Some? <==> id in foodItems
      ensures r.Some? ==> r.value == foodItems[id] && r.value.id == id
    {
      if id in foodItems then Some(foodItems[id]) else None
    }

    method CreateFoodItem(d: InsertFoodItem, id: string) returns (item: FoodItem)
      requires FoodItemsValid()
      requires id !in foodItems
      modifies this`foodItems, this`foodItemOrder
      ensures FoodItemsValid()
      ensures item.id == id && FoodItemDraft(item) == d
      ensures foodItems == old(foodItems)[id := item] && |foodItems| == old(|foodItems|) + 1
      ensures GetFoodItem(id) == Some(item)
      ensures GetFoodItems() == old(GetFoodItems()) + [item]
    {
      item := FoodItemFrom(d, id);
      JsMap.SetKeepsOrdered(foodItems, foodItemOrder, id, item);
      JsMap.ValuesAfterSet(foodItems, foodItemOrder, id, item);
      foodItemOrder := JsMap.KeysAfterSet(foodItems, foodItemOrder, id);
      foodItems := foodItems[id := item];
    }

    function GetRoomBookings(): (r: seq<RoomBooking>)
      reads this`roomBookings, this`roomBookingOrder
      requires BookingsValid()
      ensures |r| == |roomBookings| && |r| == |roomBookingOrder|
      ensures forall i :: 0 <= i < |r| ==> r[i] == roomBookings[roomBookingOrder[i]]
      ensures forall x :: x in r <==> x in roomBookings.Values
    {
      JsMap.ValuesAreMapValues(roomBookings, roomBookingOrder);
      JsMap.Values(roomBookings, roomBookingOrder)
    }

    function GetRoomBooking(id: string): (r: Option<RoomBooking>)
      reads this`roomBookings, this`roomBookingOrder
      requires BookingsValid()
      ensures r.Some? <==> id in roomBookings
      ensures r.Some? ==> r.value == roomBookings[id] && r.value.id == id
    {
      if id in roomBookings then Some(roomBookings[id]) else None
    }

    /** `createRoomBooking(d)` with `id` from `randomUUID()` and `now` from `new Date()`. */
    method CreateRoomBooking(d: InsertRoomBooking, id: string, now: Timestamp) returns (booking: RoomBooking)
      requires BookingsValid()
      requires id !in roomBookings
      modifies this`roomBookings, this`roomBookingOrder
      ensures BookingsValid()
      ensures booking.id == id && booking.createdAt == now && BookingDraft(booking) == d
      ensures roomBookings == old(roomBookings)[id := booking] && |roomBookings| == old(|roomBookings|) + 1
      ensures GetRoomBooking(id) == Some(booking)
      ensures GetRoomBookings() == old(GetRoomBookings()) + [booking]
    {
      booking := BookingFrom(d, id, now);
      JsMap.SetKeepsOrdered(roomBookings, roomBookingOrder, id, booking);
      JsMap.ValuesAfterSet(roomBookings, roomBookingOrder, id, booking);
      roomBookingOrder := JsMap.KeysAfterSet(roomBookings, roomBookingOrder, id);
      roomBookings := roomBookings[id := booking];
    }

    /** `updateRoomBookingStatus(id, status)`: on a stored booking, sets its status
        and stores it back under the same key; otherwise changes nothing. */
    method UpdateRoomBookingStatus(id: string, status: string) returns (r: Option<RoomBooking>)
      requires BookingsValid()
      modifies this`roomBookings
      ensures BookingsValid()
      ensures r.Some? <==> id in old(roomBookings)
      ensures r.Some? ==>
        && r.value == old(roomBookings)[id].(status := Some(status))
        && roomBookings == old(roomBookings)[id := r.value]
      ensures r.None? ==> roomBookings == old(roomBookings)
      ensures |GetRoomBookings()| == old(|GetRoomBookings()|)
      ensures forall i :: 0 <= i < |GetRoomBookings()| ==>
        GetRoomBookings()[i] == if roomBookingOrder[i] == id then r.value else old(GetRoomBookings())[i]
    {
      var found := GetRoomBooking(id);
      if found.Some? {
        var booking := found.value.(status := Some(status));
        JsMap.ValuesAfterSet(roomBookings, roomBookingOrder, id, booking);
        roomBookings := roomBookings[id := booking];
        r := Some(booking);
      } else {
        r := None;
      }
    }

    function GetFoodOrders(): (r: seq<FoodOrder>)
      reads this`foodOrders, this`foodOrderOrder
      requires OrdersValid()
      ensures |r| == |foodOrders| && |r| == |foodOrderOrder|
      ensures forall i :: 0 <= i < |r| ==> r[i] == foodOrders[foodOrderOrder[i]]
      ensures forall x :: x in r <==> x in foodOrders.Values
    {
      JsMap.ValuesAreMapValues(foodOrders, foodOrderOrder);
      JsMap.Values(foodOrders, foodOrderOrder)
    }

    function GetFoodOrder(id: string): (r: Option<FoodOrder>)
      reads this`foodOrders, this`foodOrderOrder
      requires OrdersValid()
      ensures r.Some? <==> id in foodOrders
      ensures r.Some? ==> r.value == foodOrders[id] && r.value.id == id
    {
      if id in foodOrders then Some(foodOrders[id]) else None
    }

    method CreateFoodOrder(d: InsertFoodOrder, id: string, now: Timestamp) returns (order: FoodOrder)
      requires OrdersValid()
      requires id !in foodOrders
      modifies this`foodOrders, this`foodOrderOrder
      ensures OrdersValid()
      ensures order.id == id && order.createdAt == now && OrderDraft(order) == d
      ensures foodOrders == old(foodOrders)[id := order] && |foodOrders| == old(|foodOrders|) + 1
      ensures GetFoodOrder(id) == Some(order)
      ensures GetFoodOrders() == old(GetFoodOrders()) + [order]
    {
      order := OrderFrom(d, id, now);
      JsMap.SetKeepsOrdered(foodOrders, foodOrderOrder, id, order);
      JsMap.ValuesAfterSet(foodOrders, foodOrderOrder, id, order);
      foodOrderOrder := JsMap.KeysAfterSet(foodOrders, foodOrderOrder, id);
      foodOrders := foodOrders[id := order];
    }

    method UpdateFoodOrderStatus(id: string, status: string) returns (r: Option<FoodOrder>)
      requires OrdersValid()
      modifies this`foodOrders
      ensures OrdersValid()
      ensures r.Some? <==> id in old(foodOrders)
      ensures r.Some? ==>
        && r.value == old(foodOrders)[id].(status := Some(status))
        && foodOrders == old(foodOrders)[id := r.value]
      ensures r.None? ==> foodOrders == old(foodOrders)
      ensures |GetFoodOrders()| == old(|GetFoodOrders()|)
      ensures forall i :: 0 <= i < |GetFoodOrders()| ==>
        GetFoodOrders()[i] == if foodOrderOrder[i] == id then r.value else old(GetFoodOrders())[i]
    {
      var found := GetFoodOrder(id);
      if found.Some? {
        var order := found.value.(status := Some(status));
        JsMap.ValuesAfterSet(foodOrders, foodOrderOrder, id, order);
        foodOrders := foodOrders[id := order];
        r := Some(order);
      } else {
        r := None;
      }
    }
  }
}
