/** The four tables of the application and their insert drafts.

    Decimal columns are held as integers: `price` and `totalAmount` have scale 2
    and are counted in cents, `rating` has scale 1 and is counted in tenths.
    A column with a database default (`status`, `available`) and the nullable
    `roomNumber` may be left out of a draft; `None` stands for a property that
    is absent. A stored record is its draft plus `id` (and `createdAt` for
    bookings and orders), so a property absent from the draft stays absent. */
module Schema {
  import opened Wrappers

  type Cents = int
  type Tenths = int

  /** The instant `new Date()` returned when a record was created. */
  datatype Timestamp = Timestamp(millis: int)

  /** A JSON value, for the untyped `items` column of an order. */
  datatype Json =
    | JNull
    | JBool(b: bool)
    | JNumber(n: int)
    | JString(s: string)
    | JArray(elems: seq<Json>)
    | JObject(fields: map<string, Json>)

  /** Column defaults. */
  const DefaultBookingStatus: string := "confirmed"
  const DefaultOrderStatus: string := "preparing"
  const DefaultAvailable: bool := true

  datatype Room = Room(
    id: string,
    name: string,
    roomType: string,
    price: Cents,
    description: string,
    image: string,
    amenities: seq<string>,
    rating: Tenths,
    reviewCount: int,
    available: Option<bool>)

  datatype InsertRoom = InsertRoom(
    name: string,
    roomType: string,
    price: Cents,
    description: string,
    image: string,
    amenities: seq<string>,
    rating: Tenths,
    reviewCount: int,
    available: Option<bool>)

  datatype FoodItem = FoodItem(
    id: string,
    name: string,
    category: string,
    price: Cents,
    description: string,
    image: string,
    rating: Tenths,
    reviewCount: int,
    prepTime: int,
    available: Option<bool>)

  datatype InsertFoodItem = InsertFoodItem(
    name: string,
    category: string,
    price: Cents,
    description: string,
    image: string,
    rating: Tenths,
    reviewCount: int,
    prepTime: int,
    available: Option<bool>)

  datatype RoomBooking = RoomBooking(
    id: string,
    roomId: string,
    guestName: string,
    guestEmail: string,
    guestPhone: string,
    checkIn: string,
    checkOut: string,
    guests: int,
    totalAmount: Cents,
    status: Option<string>,
    createdAt: Timestamp)

  datatype InsertRoomBooking = InsertRoomBooking(
    roomId: string,
    guestName: string,
    guestEmail: string,
    guestPhone: string,
    checkIn: string,
    checkOut: string,
    guests: int,
    totalAmount: Cents,
    status: Option<string>)

  datatype FoodOrder = FoodOrder(
    id: string,
    roomNumber: Option<string>,
    items: Json,
    totalAmount: Cents,
    status: Option<string>,
    createdAt: Timestamp)

  datatype InsertFoodOrder = InsertFoodOrder(
    roomNumber: Option<string>,
    items: Json,
    totalAmount: Cents,
    status: Option<string>)

  /** `{ ...draft, id }`. */
  function RoomFrom(d: InsertRoom, id: string): (r: Room)
    ensures r.id == id && RoomDraft(r) == d
  {
    Room(id, d.name, d.roomType, d.price, d.description, d.image, d.amenities,
         d.rating, d.reviewCount, d.available)
  }

  /** The draft a room was made from: every column except `id`. */
  function RoomDraft(r: Room): InsertRoom {
    InsertRoom(r.name, r.roomType, r.price, r.description, r.image, r.amenities,
               r.rating, r.reviewCount, r.available)
  }

  function FoodItemFrom(d: InsertFoodItem, id: string): (f: FoodItem)
    ensures f.id == id && FoodItemDraft(f) == d
  {
    FoodItem(id, d.name, d.category, d.price, d.description, d.image, d.rating,
             d.reviewCount, d.prepTime, d.available)
  }

  function FoodItemDraft(f: FoodItem): InsertFoodItem {
    InsertFoodItem(f.name, f.category, f.price, f.description, f.image, f.rating,
                   f.reviewCount, f.prepTime, f.available)
  }

  /** `{ ...draft, id, createdAt }`. */
  function BookingFrom(d: InsertRoomBooking, id: string, createdAt: Timestamp): (b: RoomBooking)
    ensures b.id == id && b.createdAt == createdAt && BookingDraft(b) == d
  {
    RoomBooking(id, d.roomId, d.guestName, d.guestEmail, d.guestPhone, d.checkIn,
                d.checkOut, d.guests, d.totalAmount, d.status, createdAt)
  }

  /** The draft a booking was made from: every column except `id` and `createdAt`. */
  function BookingDraft(b: RoomBooking): InsertRoomBooking {
    InsertRoomBooking(b.roomId, b.guestName, b.guestEmail, b.guestPhone, b.checkIn,
                      b.checkOut, b.guests, b.totalAmount, b.status)
  }

  function OrderFrom(d: InsertFoodOrder, id: string, createdAt: Timestamp): (o: FoodOrder)
    ensures o.id == id && o.createdAt == createdAt && OrderDraft(o) == d
  {
    FoodOrder(id, d.roomNumber, d.items, d.totalAmount, d.status, createdAt)
  }

  function OrderDraft(o: FoodOrder): InsertFoodOrder {
    InsertFoodOrder(o.roomNumber, o.items, o.totalAmount, o.status)
  }

  /** A record is determined by its draft and the columns the draft omits. */
  lemma RecordsRebuildFromDrafts(r: Room, f: FoodItem, b: RoomBooking, o: FoodOrder)
    ensures RoomFrom(RoomDraft(r), r.id) == r
    ensures FoodItemFrom(FoodItemDraft(f), f.id) == f
    ensures BookingFrom(BookingDraft(b), b.id, b.createdAt) == b
    ensures OrderFrom(OrderDraft(o), o.id, o.createdAt) == o
  {
  }

  /** The status a booking has once the database default is applied; the
      in-memory store never applies it. */
  function BookingStatusWithDefault(b: RoomBooking): (s: string)
    ensures b.status.None? ==> s == "confirmed"
    ensures b.status.Some? ==> s == b.status.value
  {
    b.status.GetOr(DefaultBookingStatus)
  }

  function OrderStatusWithDefault(o: FoodOrder): (s: string)
    ensures o.status.None? ==> s == "preparing"
    ensures o.status.Some? ==> s == o.status.value
  {
    o.status.GetOr(DefaultOrderStatus)
  }

  function AvailableWithDefault(available: Option<bool>): (a: bool)
    ensures a == (available != Some(false))
  {
    available.GetOr(DefaultAvailable)
  }
}
