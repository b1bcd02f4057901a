/** The room list: the sidebar's three checkbox filters and the sort selector. */
module RoomsSection {
  import opened Wrappers
  import opened Schema
  import Seqs
  import Text

  /** The checked price ranges, room types and amenities. */
  datatype Filters = Filters(prices: seq<string>, types: seq<string>, amenities: seq<string>)

  /** One price-range checkbox, over a price in cents. Both bounds are inclusive,
      so 100.00 lies in '50-100' and in '100-200'. */
  predicate InPriceRange(range: string, price: Cents) {
    if range == "50-100" then 5000 <= price <= 10000
    else if range == "100-200" then 10000 <= price <= 20000
    else if range == "200+" then price >= 20000
    else true
  }

  predicate MatchesPrice(room: Room, prices: seq<string>) {
    |prices| == 0 || exists range :: range in prices && InPriceRange(range, room.price)
  }

  predicate MatchesType(room: Room, types: seq<string>) {
    |types| == 0 || room.roomType in types
  }

  /** Some amenity of the room contains `wanted`, ignoring case. */
  predicate HasAmenityLike(amenities: seq<string>, wanted: string) {
    exists have :: have in amenities && Text.Contains(Text.Lower(have), Text.Lower(wanted))
  }

  predicate MatchesAmenity(room: Room, wanted: seq<string>) {
    |wanted| == 0 || exists w :: w in wanted && HasAmenityLike(room.amenities, w)
  }

  predicate Matches(room: Room, f: Filters) {
    MatchesPrice(room, f.prices) && MatchesType(room, f.types) && MatchesAmenity(room, f.amenities)
  }

  /** `filteredRooms`: the fetched rooms that pass all three filters, or none
      while nothing has been fetched. */
  function FilteredRooms(rooms: Option<seq<Room>>, f: Filters): (r: seq<Room>)
    ensures rooms.None? ==> r == []
    ensures rooms.Some? ==> forall x :: x in r <==> x in rooms.value && Matches(x, f)
    ensures rooms.Some? ==> forall x :: multiset(r)[x] == if Matches(x, f) then multiset(rooms.value)[x] else 0
  {
    match rooms
    case None => []
    case Some(rs) =>
      var keep := (room: Room) => Matches(room, f);
      assert forall x :: multiset(Seqs.Filter(rs, keep))[x] == if Matches(x, f) then multiset(rs)[x] else 0 by {
        forall x
          ensures multiset(Seqs.Filter(rs, keep))[x] == if Matches(x, f) then multiset(rs)[x] else 0
        {
          Seqs.FilterMultiset(rs, keep, x);
        }
      }
      Seqs.Filter(rs, keep)
  }

  /** The filtered list keeps the fetched order. */
  lemma FilteredRoomsInOrder(rooms: seq<Room>, f: Filters)
    ensures Seqs.IsSubsequence(FilteredRooms(Some(rooms), f), rooms)
  {
    Seqs.FilterIsSubsequence(rooms, (room: Room) => Matches(room, f));
  }

  /** With nothing checked every room is shown, in its order. */
  lemma NoFiltersKeepAll(rooms: seq<Room>)
    ensures FilteredRooms(Some(rooms), ClearFilters()) == rooms
  {
    Seqs.FilterAllKept(rooms, (room: Room) => Matches(room, ClearFilters()));
  }

  /** A filter that is checked restricts the list exactly as its own test says;
      an empty one lets everything through. */
  lemma FiltersCombineByConjunction(rooms: seq<Room>, f: Filters, x: Room)
    requires x in rooms
    ensures x in FilteredRooms(Some(rooms), f) <==>
      && (|f.prices| == 0 || exists range :: range in f.prices && InPriceRange(range, x.price))
      && (|f.types| == 0 || x.roomType in f.types)
      && (|f.amenities| == 0 || exists w :: w in f.amenities && HasAmenityLike(x.amenities, w))
  {
  }

  /** Amenity matching is by substring, so 'TV' also finds 'Smart TV'. */
  lemma TvMatchesSmartTv()
    ensures HasAmenityLike(["WiFi", "Smart TV"], "TV")
    ensures !HasAmenityLike(["WiFi", "AC"], "TV")
  {
    var have := Text.Lower("Smart TV");
    assert Text.OccursAt(have, Text.Lower("TV"), 6);
    assert Text.Contains(have, Text.Lower("TV"));
    assert "Smart TV" in ["WiFi", "Smart TV"];
    NotContainsTv("WiFi");
    NotContainsTv("AC");
  }

  lemma NotContainsTv(s: string)
    requires s == "WiFi" || s == "AC"
    ensures !Text.Contains(Text.Lower(s), Text.Lower("TV"))
  {
    var low := Text.Lower(s);
    assert low == "wifi" || low == "ac";
    assert Text.Lower("TV") == "tv";
    forall i | 0 <= i <= |low| - 2 ensures !Text.OccursAt(low, "tv", i) {
      assert low[i] != 't';
    }
  }

  /** A price of 100.00 is in both middle ranges; '200+' starts at 200.00. */
  lemma PriceRangeBoundaries()
    ensures InPriceRange("50-100", 10000) && InPriceRange("100-200", 10000)
    ensures InPriceRange("100-200", 20000) && InPriceRange("200+", 20000)
    ensures !InPriceRange("200+", 19999) && !InPriceRange("50-100", 4999)
    ensures forall p :: InPriceRange("other", p)
  {
  }

  /** `sortedRooms`: by price ascending, by rating descending, otherwise as filtered. */
  function SortedRooms(filtered: seq<Room>, sortBy: string): (r: seq<Room>)
    ensures multiset(r) == multiset(filtered) && |r| == |filtered|
    ensures sortBy == "price" ==> forall i, j :: 0 <= i < j < |r| ==> r[i].price <= r[j].price
    ensures sortBy == "rating" ==> forall i, j :: 0 <= i < j < |r| ==> r[i].rating >= r[j].rating
    ensures sortBy != "price" && sortBy != "rating" ==> r == filtered
  {
    if sortBy == "price" then
      var r := Seqs.SortBy(filtered, (room: Room) => room.price);
      assert forall i, j :: 0 <= i < j < |r| ==> r[i].price <= r[j].price by {
        assert Seqs.SortedBy(r, (room: Room) => room.price);
      }
      r
    else if sortBy == "rating" then
      var r := Seqs.SortBy(filtered, (room: Room) => -room.rating);
      assert forall i, j :: 0 <= i < j < |r| ==> r[i].rating >= r[j].rating by {
        assert Seqs.SortedBy(r, (room: Room) => -room.rating);
      }
      r
    else filtered
  }

  /** A checkbox change: checking appends the value, unchecking drops every copy. */
  function Toggle(list: seq<string>, value: string, checked: bool): (r: seq<string>)
    ensures checked ==> r == list + [value]
    ensures !checked ==> value !in r && forall x :: x in r <==> x in list && x != value
    ensures !checked ==> forall x :: multiset(r)[x] == if x != value then multiset(list)[x] else 0
  {
    if checked then list + [value]
    else
      var keep := (x: string) => x != value;
      assert forall x :: multiset(Seqs.Filter(list, keep))[x] == if x != value then multiset(list)[x] else 0 by {
        forall x
          ensures multiset(Seqs.Filter(list, keep))[x] == if x != value then multiset(list)[x] else 0
        {
          Seqs.FilterMultiset(list, keep, x);
        }
      }
      Seqs.Filter(list, keep)
  }

  /** Unchecking keeps the other values in their order. */
  lemma UncheckKeepsOrder(list: seq<string>, value: string)
    ensures Seqs.IsSubsequence(Toggle(list, value, false), list)
  {
    Seqs.FilterIsSubsequence(list, (x: string) => x != value);
  }

  /** Clear Filters. */
  function ClearFilters(): (f: Filters)
    ensures f.prices == [] && f.types == [] && f.amenities == []
  {
    Filters([], [], [])
  }
}
