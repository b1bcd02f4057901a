/** The "My Bookings" page's text helpers: status badges, guest counts, short ids. */
module BookingsSection {
  import Text

  const GreenBadge: string := "bg-green-100 text-green-800"
  const RedBadge: string := "bg-red-100 text-red-800"
  const BlueBadge: string := "bg-blue-100 text-blue-800"
  const YellowBadge: string := "bg-yellow-100 text-yellow-800"
  const GrayBadge: string := "bg-gray-100 text-gray-800"

  /** `getStatusColor(status)`: the badge classes, chosen on the lower-cased status. */
  function StatusColor(status: string): (c: string)
    ensures c == GreenBadge <==> Text.Lower(status) == "confirmed" || Text.Lower(status) == "delivered"
    ensures c == RedBadge <==> Text.Lower(status) == "cancelled"
    ensures c == BlueBadge <==> Text.Lower(status) == "preparing"
    ensures c == YellowBadge <==> Text.Lower(status) == "ready"
    ensures c == GrayBadge <==>
      Text.Lower(status) !in ["confirmed", "cancelled", "preparing", "ready", "delivered"]
  {
    var s := Text.Lower(status);
    if s == "confirmed" then GreenBadge
    else if s == "cancelled" then RedBadge
    else if s == "preparing" then BlueBadge
    else if s == "ready" then YellowBadge
    else if s == "delivered" then GreenBadge
    else GrayBadge
  }

  lemma {:induction false} LowerIdempotent(s: string)
    ensures Text.Lower(Text.Lower(s)) == Text.Lower(s)
  {
    var once := Text.Lower(s);
    assert forall i :: 0 <= i < |s| ==> Text.LowerChar(once[i]) == once[i];
  }

  /** Statuses that differ only in case get the same badge. */
  lemma StatusColorIgnoresCase(status: string)
    ensures StatusColor(status) == StatusColor(Text.Lower(status))
    ensures StatusColor("CONFIRMED") == GreenBadge && StatusColor("Ready") == YellowBadge
  {
    LowerIdempotent(status);
    assert Text.Lower("CONFIRMED") == "confirmed";
    assert Text.Lower("Ready") == "ready";
  }

  /** `status.charAt(0).toUpperCase() + status.slice(1)`. */
  function StatusLabel(status: string): (shown: string)
    ensures |shown| == |status|
    ensures |status| > 0 ==> shown[0] == Text.UpperChar(status[0]) && shown[1..] == status[1..]
  {
    if |status| == 0 then "" else [Text.UpperChar(status[0])] + status[1..]
  }

  lemma StatusLabelExamples()
    ensures StatusLabel("confirmed") == "Confirmed"
    ensures StatusLabel("Ready") == "Ready"
    ensures StatusLabel("") == ""
  {
  }

  /** `guests === 1 ? 'Guest' : 'Guests'`. */
  function GuestLabel(guests: int): (shown: string)
    ensures shown == "Guest" <==> guests == 1
    ensures shown == "Guest" || shown == "Guests"
  {
    if guests == 1 then "Guest" else "Guests"
  }

  /** `id.slice(0, 8)`. */
  function ShortId(id: string): (r: string)
    ensures |r| == if |id| < 8 then |id| else 8
    ensures r <= id
  {
    if |id| < 8 then id else id[..8]
  }
}
