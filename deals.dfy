/** The read-only deals store shared by every handler. */
module Deals {

  /** One deal record; the same shape serves the REST list, the GraphQL `Deal`
      type and the HTML page. */
  datatype Deal = Deal(id: int, price: int, location: string)

  /** The fixed sample data, created once and never changed. */
  const Store: seq<Deal> := [Deal(1, 100000, "City A"), Deal(2, 150000, "City B")]

  /** Ids are positive and unique, prices non-negative, locations non-empty. */
  ghost predicate WellFormed(deals: seq<Deal>)
  {
    (forall i :: 0 <= i < |deals| ==>
      deals[i].id > 0 && deals[i].price >= 0 && |deals[i].location| > 0) &&
    (forall i, j :: 0 <= i < j < |deals| ==> deals[i].id != deals[j].id)
  }

  /** The REST handler: the whole store, in stored order. */
  function GetDeals(): (r: seq<Deal>)
    ensures r == Store
    ensures WellFormed(r)
    ensures |r| == 2 && r[0].id == 1 && r[1].id == 2
  {
    Store
  }
}
