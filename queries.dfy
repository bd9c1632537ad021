/** The routes that only read the datastore: the three listings and the two
    single-entity GETs, as functions of the state and the request. */
module Queries {
  import opened Json
  import opened Paging
  import opened Entities
  import opened Associations
  import opened Http

  function Offset(req: Request): nat {
    OrDefault(req.offset, DefaultOffset)
  }

  function Limit(req: Request): nat {
    OrDefault(req.limit, DefaultLimit)
  }

  /** The entities of `m` under the ids `w`, with their ids. */
  function Entries<T>(m: map<int, T>, w: seq<int>): (e: seq<(int, T)>)
    requires forall i :: 0 <= i < |w| ==> w[i] in m
    ensures |e| == |w|
    ensures forall i :: 0 <= i < |w| ==> e[i] == (w[i], m[w[i]])
  {
    seq(|w|, i requires 0 <= i < |w| => (w[i], m[w[i]]))
  }

  /** The page a listing returns when its query yields the ids `order` of
      `m`: the window the offset and limit select, each id with its entity,
      the number of results when the route reports it, and a next link
      exactly when results remain after the window (the link asks for the
      following window, by `NextLinkRequestsNextWindow`). */
  function MakePage<T>(m: map<int, T>, order: seq<int>, offset: nat, limit: nat, base: string, withTotal: bool): (p: Page<T>)
    requires forall i :: 0 <= i < |order| ==> order[i] in m
    ensures |p.items| == if offset >= |order| then 0 else Min(limit, |order| - offset)
    ensures forall i :: 0 <= i < |p.items| ==> p.items[i] == (order[offset + i], m[order[offset + i]])
    ensures p.totalItems == if withTotal then Some(|order|) else None
    ensures p.next.Some? <==> offset + limit < |order|
    ensures p.next == NextLink(base, |order|, offset, limit)
  {
    var w := Window(order, offset, limit);
    Page(if withTotal then Some(|order|) else None, Entries(m, w), NextLink(base, |order|, offset, limit))
  }

  /** The page of a query matching `ids`, which the store yields in
      ascending id order. */
  function Listing<T>(m: map<int, T>, ids: set<int>, req: Request, withTotal: bool): (p: Page<T>)
    requires ids <= m.Keys
    ensures |p.items| == if Offset(req) >= |ids| then 0 else Min(Limit(req), |ids| - Offset(req))
    ensures forall i :: 0 <= i < |p.items| ==> p.items[i].0 == Ascending(ids)[Offset(req) + i]
    ensures forall i :: 0 <= i < |p.items| ==> p.items[i].0 in ids && p.items[i].1 == m[p.items[i].0]
    ensures forall i, j :: 0 <= i < j < |p.items| ==> p.items[i].0 < p.items[j].0
    ensures p.totalItems == if withTotal then Some(|ids|) else None
    ensures p.next.Some? <==> Offset(req) + Limit(req) < |ids|
    ensures p.next == NextLink(req.baseUrl, |ids|, Offset(req), Limit(req))
  {
    var order := Ascending(ids);
    var p := MakePage(m, order, Offset(req), Limit(req), req.baseUrl, withTotal);
    assert forall i :: 0 <= i < |p.items| ==> p.items[i].0 == order[Offset(req) + i];
    p
  }

  /** The boats whose owner is `subject`. */
  function OwnedBy(s: State, subject: string): set<int> {
    set id | id in s.boats && s.boats[id].owner == Str(subject)
  }

  /** GET /boats: 406, then the token; then the caller's own boats, paged,
      with their number as `total_items`. */
  function ListBoats(s: State, req: Request): (r: Response)
    ensures Authenticated(req, false).Some? ==> r == Authenticated(req, false).value
    ensures Authenticated(req, false).None? ==>
      && r == Response(Ok, Boats(Listing(s.boats, OwnedBy(s, req.subject.value), req, true)))
      && r.body.boats.totalItems == Some(|OwnedBy(s, req.subject.value)|)
      && forall i :: 0 <= i < |r.body.boats.items| ==>
           var (id, b) := r.body.boats.items[i];
           id in s.boats && s.boats[id] == b && Owns(req, b)
  {
    if !req.acceptsJson then NotAcceptableJson
    else if req.subject.None? then Unauthenticated
    else Response(Ok, Boats(Listing(s.boats, OwnedBy(s, req.subject.value), req, true)))
  }

  /** GET /boats/{bid}: 406, then the token, 404 and 403; then the boat. */
  function GetBoat(s: State, req: Request, bid: int): (r: Response)
    ensures OrElse(Negotiation(req, false), BoatAccess(req, s.boats, bid)).Some? ==>
      r == OrElse(Negotiation(req, false), BoatAccess(req, s.boats, bid)).value
    ensures OrElse(Negotiation(req, false), BoatAccess(req, s.boats, bid)).None? ==>
      bid in s.boats && Owns(req, s.boats[bid]) && r == Response(Ok, OneBoat(bid, s.boats[bid]))
  {
    if !req.acceptsJson then NotAcceptableJson
    else if req.subject.None? then Unauthenticated
    else if bid !in s.boats then NoSuchBoat
    else if s.boats[bid].owner != Str(req.subject.value) then WrongOwner
    else Response(Ok, OneBoat(bid, s.boats[bid]))
  }

  /** GET /boats/{bid}/loads: 406, then the token, 404 and 403; then the
      loads whose carrier is the boat, paged, without a total. In a
      consistent state every listed load is on the boat's list, and every
      load on that list is among the loads the query pages through. */
  function BoatLoads(s: State, req: Request, bid: int): (r: Response)
    ensures OrElse(Negotiation(req, false), BoatAccess(req, s.boats, bid)).Some? ==>
      r == OrElse(Negotiation(req, false), BoatAccess(req, s.boats, bid)).value
    ensures OrElse(Negotiation(req, false), BoatAccess(req, s.boats, bid)).None? ==>
      && r == Response(Ok, Loads(Listing(s.loads, CarriedLoads(s, bid), req, false)))
      && r.body.loads.totalItems.None?
      && (forall i :: 0 <= i < |r.body.loads.items| ==>
            CarriedBy(s, r.body.loads.items[i].0, bid) && s.loads[r.body.loads.items[i].0] == r.body.loads.items[i].1)
      && (Consistent(s) ==> forall l :: l in CarriedLoads(s, bid) <==> l in s.boats[bid].loads)
  {
    if !req.acceptsJson then NotAcceptableJson
    else if req.subject.None? then Unauthenticated
    else if bid !in s.boats then NoSuchBoat
    else if s.boats[bid].owner != Str(req.subject.value) then WrongOwner
    else
      (assert Consistent(s) ==> CarriedLoads(s, bid) == set l | l in s.boats[bid].loads by {
         if Consistent(s) { CarriedLoadsAreListed(s, bid); }
       }
       Response(Ok, Loads(Listing(s.loads, CarriedLoads(s, bid), req, false))))
  }

  /** GET /loads: 406; then every load, paged, with their number as
      `total_items`. No token is asked for. */
  function ListLoads(s: State, req: Request): (r: Response)
    ensures !req.acceptsJson ==> r == NotAcceptableJson
    ensures req.acceptsJson ==>
      && r == Response(Ok, Loads(Listing(s.loads, s.loads.Keys, req, true)))
      && r.body.loads.totalItems == Some(|s.loads|)
  {
    if !req.acceptsJson then NotAcceptableJson
    else Response(Ok, Loads(Listing(s.loads, s.loads.Keys, req, true)))
  }

  /** GET /loads/{lid}: 406, then 404; then the load. */
  function GetLoad(s: State, req: Request, lid: int): (r: Response)
    ensures OrElse(Negotiation(req, false), LoadAccess(s.loads, lid)).Some? ==>
      r == OrElse(Negotiation(req, false), LoadAccess(s.loads, lid)).value
    ensures OrElse(Negotiation(req, false), LoadAccess(s.loads, lid)).None? ==>
      lid in s.loads && r == Response(Ok, OneLoad(lid, s.loads[lid]))
  {
    if !req.acceptsJson then NotAcceptableJson
    else if lid !in s.loads then NoSuchLoad
    else Response(Ok, OneLoad(lid, s.loads[lid]))
  }

  /** A client paging through GET /loads from the first page with a positive
      limit sees every load, once each, in ascending id order. */
  lemma ListLoadsWalk(s: State, limit: nat)
    requires limit > 0
    ensures Walk(Ascending(s.loads.Keys), 0, limit) == Ascending(s.loads.Keys)
  {
    WalkVisitsAll(Ascending(s.loads.Keys), 0, limit);
  }
}
