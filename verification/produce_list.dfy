/** The produce listing page: the query parameters sent to `produceApi.list`, the price
    shown on a card, and the status badge. Parameters left `undefined` are not sent,
    so the parameters are a map holding only the ones that are. */
module ProduceList {
  import opened Wrappers

  const AllStatuses := "all"
  const CropTypeParam := "crop_type"
  const StatusParam := "status"

  /** `{crop_type: searchQuery || undefined, status: statusFilter !== "all" ? statusFilter : undefined}` */
  function QueryParams(search: string, statusFilter: string): (p: map<string, string>)
    ensures CropTypeParam in p <==> search != ""
    ensures StatusParam in p <==> statusFilter != AllStatuses
    ensures CropTypeParam in p ==> p[CropTypeParam] == search
    ensures StatusParam in p ==> p[StatusParam] == statusFilter
    ensures p.Keys <= {CropTypeParam, StatusParam}
  {
    var crop := if search != "" then map[CropTypeParam := search] else map[];
    var status := if statusFilter != AllStatuses then map[StatusParam := statusFilter] else map[];
    crop + status
  }

  /** A number is truthy when it is present and not zero. */
  predicate TruthyNumber(x: Option<real>) {
    x.Some? && x.value != 0.0
  }

  /** `price_per_kg || expected_price_per_kg || 0` */
  function DisplayPrice(price: Option<real>, expected: Option<real>): (r: real)
    ensures TruthyNumber(price) ==> r == price.value
    ensures !TruthyNumber(price) && TruthyNumber(expected) ==> r == expected.value
    ensures r == 0.0 <==> !TruthyNumber(price) && !TruthyNumber(expected)
  {
    if TruthyNumber(price) then price.value
    else if TruthyNumber(expected) then expected.value
    else 0.0
  }

  const Green := "bg-green-100 text-green-700"
  const Yellow := "bg-yellow-100 text-yellow-700"
  const Gray := "bg-gray-100 text-gray-700"

  /** The status badge's colour classes. */
  function BadgeClass(status: string): (c: string)
    ensures c == Green <==> status == "available"
    ensures c == Yellow <==> status == "reserved"
    ensures c == Gray <==> status != "available" && status != "reserved"
  {
    if status == "available" then Green
    else if status == "reserved" then Yellow
    else Gray
  }
}
