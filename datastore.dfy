/** The service: the datastore holding every boat and load, and one method
    per route and request method that changes it. The read-only routes are
    the functions of `Queries`; the collection routes dispatch to them. */
module Service {
  import opened Json
  import opened Stubs
  import opened Entities
  import opened Associations
  import opened Http
  import opened Queries

  /** The body has the properties a new or replaced boat needs (a body
      with three other properties passes the count check but not this). */
  predicate HasBoatFields(body: map<string, Value>) {
    "name" in body && "type" in body && "length" in body
  }

  /** The body has the properties a new or replaced load needs. */
  predicate HasLoadFields(body: map<string, Value>) {
    "volume" in body && "item" in body && "creation_date" in body
  }

  /** The longest prefix of `ids` whose loads exist: how far the release loop
      of DELETE /boats/{bid} gets before it reads a missing load. */
  function PresentPrefix(ids: seq<int>, loads: map<int, Load>): (p: seq<int>)
    ensures |p| <= |ids| && p == ids[..|p|]
    ensures forall l :: l in p ==> l in loads
    ensures |p| < |ids| ==> ids[|p|] !in loads
  {
    if |ids| == 0 || ids[0] !in loads then [] else [ids[0]] + PresentPrefix(ids[1..], loads)
  }

  /** The prefix that ends at the first missing load is `PresentPrefix`. */
  lemma {:induction false} PresentPrefixAt(ids: seq<int>, loads: map<int, Load>, i: nat)
    requires i <= |ids| && (forall j :: 0 <= j < i ==> ids[j] in loads)
    requires i < |ids| ==> ids[i] !in loads
    ensures PresentPrefix(ids, loads) == ids[..i]
  {
    if i > 0 {
      assert ids[0] in loads;
      assert forall j :: 0 <= j < i - 1 ==> ids[1..][j] == ids[j + 1];
      PresentPrefixAt(ids[1..], loads, i - 1);
      assert ids[..i] == [ids[0]] + ids[1..][..i - 1];
    }
  }

  /** Releasing one more listed load. */
  lemma ClearOneMore(m: map<int, Load>, ids: seq<int>, i: nat)
    requires i < |ids| && ids[i] in m
    ensures ClearCarriers(m, ids[..i + 1]) ==
      ClearCarriers(m, ids[..i])[ids[i] := m[ids[i]].(carrier := None)]
  {
    var a, b := ClearCarriers(m, ids[..i + 1]), ClearCarriers(m, ids[..i])[ids[i] := m[ids[i]].(carrier := None)];
    assert ids[..i + 1] == ids[..i] + [ids[i]];
    forall l | l in m ensures a[l] == b[l] {
      assert l in ids[..i + 1] <==> l in ids[..i] || l == ids[i];
    }
  }

  /** PATCH writes `loads` and `carrier` as plain properties: a boat PATCHed
      with an empty `loads` list no longer lists the load whose carrier it
      still is. */
  lemma PatchCanUnlinkLoad()
    ensures var b := Boat(Null, Null, Null, Str("owner"), [2], map[]);
      var s := State(map[1 := b], map[2 := Load(Null, Null, Null, Some(Carrier(1, Null)), map[])]);
      var body := map["loads" := Arr([])];
      && Consistent(s)
      && MergeBoat(b, body) == Some(b.(loads := []))
      && !Consistent(WithBoat(s, 1, b.(loads := [])))
  {
    var b := Boat(Null, Null, Null, Str("owner"), [2], map[]);
    var s := State(map[1 := b], map[2 := Load(Null, Null, Null, Some(Carrier(1, Null)), map[])]);
    var body := map["loads" := Arr([])];
    assert DecodeStubs(body["loads"]) == Some([]);
    assert (body - BoatKeys) == map[] by {
      assert "loads" in BoatKeys;
    }
    forall x, l | x in s.boats && l in s.boats[x].loads ensures CarriedBy(s, l, x) {
      assert x == 1 && l == 2;
    }
    var t := WithBoat(s, 1, b.(loads := []));
    assert 2 in t.loads && t.loads[2].carrier.Some? && 2 !in t.boats[1].loads;
  }

  class Datastore {
    var boats: map<int, Boat>
    var loads: map<int, Load>

    /** An empty datastore. */
    constructor ()
      ensures boats == map[] && loads == map[]
      ensures Consistent(Snapshot())
    {
      boats := map[];
      loads := map[];
    }

    function Snapshot(): State
      reads this
    {
      State(boats, loads)
    }

    /** /boats. POST: 415, 406, the token, 400 for fewer than three
        properties, a crash when `name`, `type` or `length` is missing; else
        a new boat under the fresh id `newId`, owned by the caller, with no
        loads. GET: `ListBoats`. PUT, PATCH, DELETE: 405. */
    method BoatsCollection(verb: Verb, req: Request, newId: int) returns (r: Response)
      requires newId !in boats
      modifies this
      ensures verb == GET ==> r == ListBoats(old(Snapshot()), req) && unchanged(this)
      ensures verb in {PUT, PATCH, DELETE} ==> r == Unsupported && unchanged(this)
      ensures verb == POST && Authenticated(req, true).Some? ==>
        r == Authenticated(req, true).value && unchanged(this)
      ensures verb == POST && Authenticated(req, true).None? && |req.body| < 3 ==>
        r == MissingAttributes && unchanged(this)
      ensures verb == POST && Authenticated(req, true).None? && |req.body| >= 3 && !HasBoatFields(req.body) ==>
        r == Crash && unchanged(this)
      ensures verb == POST && Authenticated(req, true).None? && |req.body| >= 3 && HasBoatFields(req.body) ==>
        var b := Boat(req.body["name"], req.body["type"], req.body["length"], Str(req.subject.value), [], map[]);
        r == Response(Created, OneBoat(newId, b)) && boats == old(boats)[newId := b] && loads == old(loads)
      ensures old(Consistent(Snapshot())) ==> Consistent(Snapshot())
    {
      if verb == GET {
        r := ListBoats(Snapshot(), req);
        return;
      }
      if verb != POST {
        return Unsupported;
      }
      if !req.jsonBody {
        return NotJson;
      }
      if !req.acceptsJson {
        return NotAcceptableJson;
      }
      if req.subject.None? {
        return Unauthenticated;
      }
      var content := req.body;
      if |content| < 3 {
        return MissingAttributes;
      }
      if !HasBoatFields(content) {
        return Crash;
      }
      var b := Boat(content["name"], content["type"], content["length"], Str(req.subject.value), [], map[]);
      if Consistent(Snapshot()) {
        AddBoatKeepsConsistent(Snapshot(), newId, b);
      }
      boats := boats[newId := b];
      r := Response(Created, OneBoat(newId, b));
    }

    /** PUT /boats/{bid}: 415, 406, the token, 404, 403, 400 for fewer than
        three properties, a crash when `name`, `type` or `length` is
        missing; else those three are overwritten and the rest of the boat
        kept. */
    method ReplaceBoat(req: Request, bid: int) returns (r: Response)
      modifies this
      ensures OrElse(Negotiation(req, true), OrElse(BoatAccess(req, old(boats), bid), FieldCount(req.body, 3, MissingAttributes))).Some? ==>
        r == OrElse(Negotiation(req, true), OrElse(BoatAccess(req, old(boats), bid), FieldCount(req.body, 3, MissingAttributes))).value
        && unchanged(this)
      ensures OrElse(Negotiation(req, true), OrElse(BoatAccess(req, old(boats), bid), FieldCount(req.body, 3, MissingAttributes))).None? ==>
        if !HasBoatFields(req.body) then r == Crash && unchanged(this)
        else
          var b := old(boats)[bid].(name := req.body["name"], boatType := req.body["type"], length := req.body["length"]);
          r == Response(Ok, OneBoat(bid, b)) && boats == old(boats)[bid := b] && loads == old(loads)
      ensures old(Consistent(Snapshot())) ==> Consistent(Snapshot())
    {
      if !req.jsonBody {
        return NotJson;
      }
      if !req.acceptsJson {
        return NotAcceptableJson;
      }
      if req.subject.None? {
        return Unauthenticated;
      }
      var content := req.body;
      if bid !in boats {
        return NoSuchBoat;
      }
      var boat := boats[bid];
      if boat.owner != Str(req.subject.value) {
        return WrongOwner;
      }
      if |content| < 3 {
        return MissingAttributes;
      }
      if !HasBoatFields(content) {
        return Crash;
      }
      boat := boat.(name := content["name"], boatType := content["type"], length := content["length"]);
      if Consistent(Snapshot()) {
        UpdateBoatKeepsConsistent(Snapshot(), bid, boat);
      }
      boats := boats[bid := boat];
      r := Response(Ok, OneBoat(bid, boat));
    }

    /** PATCH /boats/{bid}: 415, 406, the token, 404, 403, 400 for an empty
        body; else every property of the body is merged into the boat
        (`MergeBoat`; a crash when a `loads` value cannot be read). */
    method PatchBoat(req: Request, bid: int) returns (r: Response)
      modifies this
      ensures OrElse(Negotiation(req, true), OrElse(BoatAccess(req, old(boats), bid), FieldCount(req.body, 1, EmptyBody))).Some? ==>
        r == OrElse(Negotiation(req, true), OrElse(BoatAccess(req, old(boats), bid), FieldCount(req.body, 1, EmptyBody))).value
        && unchanged(this)
      ensures OrElse(Negotiation(req, true), OrElse(BoatAccess(req, old(boats), bid), FieldCount(req.body, 1, EmptyBody))).None? ==>
        match MergeBoat(old(boats)[bid], req.body)
        case None => r == Crash && unchanged(this)
        case Some(b) => r == Response(Ok, OneBoat(bid, b)) && boats == old(boats)[bid := b] && loads == old(loads)
    {
      if !req.jsonBody {
        return NotJson;
      }
      if !req.acceptsJson {
        return NotAcceptableJson;
      }
      if req.subject.None? {
        return Unauthenticated;
      }
      var content := req.body;
      if bid !in boats {
        return NoSuchBoat;
      }
      var boat := boats[bid];
      if boat.owner != Str(req.subject.value) {
        return WrongOwner;
      }
      if |content| < 1 {
        return EmptyBody;
      }
      var merged := MergeBoat(boat, content);
      if merged.None? {
        return Crash;
      }
      boats := boats[bid := merged.value];
      r := Response(Ok, OneBoat(bid, merged.value));
    }

    /** DELETE /boats/{bid}: the token, 404, 403; then the carrier of each
        load on the boat's list is nulled in list order and the boat
        deleted. A listed load that does not exist crashes the loop, after
        the loads before it have been released and with the boat kept. */
    method RemoveBoat(req: Request, bid: int) returns (r: Response)
      modifies this
      ensures BoatAccess(req, old(boats), bid).Some? ==> r == BoatAccess(req, old(boats), bid).value && unchanged(this)
      ensures BoatAccess(req, old(boats), bid).None? && (forall l :: l in old(boats)[bid].loads ==> l in old(loads)) ==>
        r == Done && Snapshot() == DeleteBoat(old(Snapshot()), bid)
      ensures BoatAccess(req, old(boats), bid).None? && !(forall l :: l in old(boats)[bid].loads ==> l in old(loads)) ==>
        r == Crash && boats == old(boats)
        && loads == ClearCarriers(old(loads), PresentPrefix(old(boats)[bid].loads, old(loads)))
      ensures old(Consistent(Snapshot())) ==> Consistent(Snapshot()) && r != Crash
    {
      if req.subject.None? {
        return Unauthenticated;
      }
      if bid !in boats {
        return NoSuchBoat;
      }
      var boat := boats[bid];
      if boat.owner != Str(req.subject.value) {
        return WrongOwner;
      }
      ghost var s := Snapshot();
      var ids := boat.loads;
      var i := 0;
      while i < |ids|
        invariant 0 <= i <= |ids|
        invariant boats == s.boats
        invariant forall j :: 0 <= j < i ==> ids[j] in s.loads
        invariant loads == ClearCarriers(s.loads, ids[..i])
      {
        var lid := ids[i];
        if lid !in loads {
          PresentPrefixAt(ids, s.loads, i);
          assert Consistent(s) ==> CarriedBy(s, lid, bid);
          return Crash;
        }
        ClearOneMore(s.loads, ids, i);
        loads := loads[lid := loads[lid].(carrier := None)];
        i := i + 1;
      }
      assert ids[..i] == ids;
      boats := boats - {bid};
      r := Done;
      if Consistent(s) {
        DeleteBoatReleasesItsLoads(s, bid);
      }
    }

    /** PUT /boats/{bid}/loads/{lid}: the guards of `AttachGuard`; then the
        load's stub is appended to the boat's list and the boat becomes the
        load's carrier. */
    method AttachLoad(req: Request, bid: int, lid: int) returns (r: Response)
      modifies this
      ensures AttachGuard(req, old(Snapshot()), bid, lid).Some? ==>
        r == AttachGuard(req, old(Snapshot()), bid, lid).value && unchanged(this)
      ensures AttachGuard(req, old(Snapshot()), bid, lid).None? ==>
        r == Done && Snapshot() == Attach(old(Snapshot()), bid, lid)
      ensures old(Consistent(Snapshot())) ==> Consistent(Snapshot())
    {
      if req.subject.None? {
        return Unauthenticated;
      }
      if lid !in loads || bid !in boats {
        return NoSuchBoatOrLoad;
      }
      var boat := boats[bid];
      var load := loads[lid];
      if load.carrier.Some? {
        return AlreadyLoaded;
      }
      if boat.owner != Str(req.subject.value) {
        return WrongOwner;
      }
      if Consistent(Snapshot()) {
        AttachKeepsConsistent(Snapshot(), bid, lid);
      }
      boats := boats[bid := boat.(loads := boat.loads + [lid])];
      loads := loads[lid := load.(carrier := Some(Carrier(bid, boat.name)))];
      r := Done;
    }

    /** DELETE /boats/{bid}/loads/{lid}: the guards of `DetachGuard`; 404
        when the boat does not list the load; then the removal loop drops
        the load's stub (`DropStubs`) and the load's carrier is nulled. */
    method DetachLoad(req: Request, bid: int, lid: int) returns (r: Response)
      modifies this
      ensures DetachGuard(req, old(Snapshot()), bid, lid).Some? ==>
        r == DetachGuard(req, old(Snapshot()), bid, lid).value && unchanged(this)
      ensures DetachGuard(req, old(Snapshot()), bid, lid).None? && lid !in old(boats)[bid].loads ==>
        r == NotLoadedHere && unchanged(this)
      ensures DetachGuard(req, old(Snapshot()), bid, lid).None? && lid in old(boats)[bid].loads ==>
        && r == Done
        && loads == old(loads)[lid := old(loads)[lid].(carrier := None)]
        && bid in boats && boats == old(boats)[bid := old(boats)[bid].(loads := boats[bid].loads)]
        && Strip(boats[bid].loads, lid) == Strip(old(boats)[bid].loads, lid)
        && Count(boats[bid].loads, lid) < Count(old(boats)[bid].loads, lid)
        && (Count(old(boats)[bid].loads, lid) <= 1 ==> Snapshot() == Detach(old(Snapshot()), bid, lid))
      ensures old(Consistent(Snapshot())) ==> Consistent(Snapshot())
    {
      if req.subject.None? {
        return Unauthenticated;
      }
      if lid !in loads || bid !in boats {
        return NotLoadedHere;
      }
      var boat := boats[bid];
      var load := loads[lid];
      if boat.owner != Str(req.subject.value) {
        return WrongOwner;
      }
      var present := HasStub(boat.loads, lid);
      if !present {
        return NotLoadedHere;
      }
      ghost var s := Snapshot();
      var kept := DropStubs(boat.loads, lid);
      boats := boats[bid := boat.(loads := kept)];
      loads := loads[lid := load.(carrier := None)];
      r := Done;
      if Consistent(s) {
        NoDupCount(boat.loads, lid);
        DetachKeepsConsistent(s, bid, lid);
      }
    }

    /** /loads. POST: 415, 406, 400 for fewer than three properties, a
        crash when `volume`, `item` or `creation_date` is missing; else a
        new uncarried load under the fresh id `newId`. No token is asked
        for. GET: `ListLoads`. PUT, PATCH, DELETE: 405. */
    method LoadsCollection(verb: Verb, req: Request, newId: int) returns (r: Response)
      requires newId !in loads
      modifies this
      ensures verb == GET ==> r == ListLoads(old(Snapshot()), req) && unchanged(this)
      ensures verb in {PUT, PATCH, DELETE} ==> r == Unsupported && unchanged(this)
      ensures verb == POST && Negotiation(req, true).Some? ==> r == Negotiation(req, true).value && unchanged(this)
      ensures verb == POST && Negotiation(req, true).None? && |req.body| < 3 ==>
        r == MissingAttributes && unchanged(this)
      ensures verb == POST && Negotiation(req, true).None? && |req.body| >= 3 && !HasLoadFields(req.body) ==>
        r == Crash && unchanged(this)
      ensures verb == POST && Negotiation(req, true).None? && |req.body| >= 3 && HasLoadFields(req.body) ==>
        var l := Load(req.body["volume"], req.body["item"], req.body["creation_date"], None, map[]);
        r == Response(Created, OneLoad(newId, l)) && loads == old(loads)[newId := l] && boats == old(boats)
      ensures old(Consistent(Snapshot())) ==> Consistent(Snapshot())
    {
      if verb == GET {
        r := ListLoads(Snapshot(), req);
        return;
      }
      if verb != POST {
        return Unsupported;
      }
      if !req.jsonBody {
        return NotJson;
      }
      if !req.acceptsJson {
        return NotAcceptableJson;
      }
      var content := req.body;
      if |content| < 3 {
        return MissingAttributes;
      }
      if !HasLoadFields(content) {
        return Crash;
      }
      var l := Load(content["volume"], content["item"], content["creation_date"], None, map[]);
      if Consistent(Snapshot()) {
        AddLoadKeepsConsistent(Snapshot(), newId, l);
      }
      loads := loads[newId := l];
      r := Response(Created, OneLoad(newId, l));
    }

    /** PUT /loads/{lid}: 415, 406, 404, 400 for fewer than three
        properties, a crash when `volume`, `item` or `creation_date` is
        missing; else those three are overwritten and the carrier kept. */
    method ReplaceLoad(req: Request, lid: int) returns (r: Response)
      modifies this
      ensures OrElse(Negotiation(req, true), OrElse(LoadAccess(old(loads), lid), FieldCount(req.body, 3, MissingAttributes))).Some? ==>
        r == OrElse(Negotiation(req, true), OrElse(LoadAccess(old(loads), lid), FieldCount(req.body, 3, MissingAttributes))).value
        && unchanged(this)
      ensures OrElse(Negotiation(req, true), OrElse(LoadAccess(old(loads), lid), FieldCount(req.body, 3, MissingAttributes))).None? ==>
        if !HasLoadFields(req.body) then r == Crash && unchanged(this)
        else
          var l := old(loads)[lid].(volume := req.body["volume"], item := req.body["item"], creationDate := req.body["creation_date"]);
          r == Response(Ok, OneLoad(lid, l)) && loads == old(loads)[lid := l] && boats == old(boats)
      ensures old(Consistent(Snapshot())) ==> Consistent(Snapshot())
    {
      if !req.jsonBody {
        return NotJson;
      }
      if !req.acceptsJson {
        return NotAcceptableJson;
      }
      var content := req.body;
      if lid !in loads {
        return NoSuchLoad;
      }
      if |content| < 3 {
        return MissingAttributes;
      }
      if !HasLoadFields(content) {
        return Crash;
      }
      var load := loads[lid].(volume := content["volume"], item := content["item"], creationDate := content["creation_date"]);
      if Consistent(Snapshot()) {
        UpdateLoadKeepsConsistent(Snapshot(), lid, load);
      }
      loads := loads[lid := load];
      r := Response(Ok, OneLoad(lid, load));
    }

    /** PATCH /loads/{lid}: 415, 406, 404, 400 for an empty body; else every
        property of the body is merged into the load (`MergeLoad`; a crash
        when a `carrier` value cannot be read). */
    method PatchLoad(req: Request, lid: int) returns (r: Response)
      modifies this
      ensures OrElse(Negotiation(req, true), OrElse(LoadAccess(old(loads), lid), FieldCount(req.body, 1, EmptyBody))).Some? ==>
        r == OrElse(Negotiation(req, true), OrElse(LoadAccess(old(loads), lid), FieldCount(req.body, 1, EmptyBody))).value
        && unchanged(this)
      ensures OrElse(Negotiation(req, true), OrElse(LoadAccess(old(loads), lid), FieldCount(req.body, 1, EmptyBody))).None? ==>
        match MergeLoad(old(loads)[lid], req.body)
        case None => r == Crash && unchanged(this)
        case Some(l) => r == Response(Ok, OneLoad(lid, l)) && loads == old(loads)[lid := l] && boats == old(boats)
    {
      if !req.jsonBody {
        return NotJson;
      }
      if !req.acceptsJson {
        return NotAcceptableJson;
      }
      var content := req.body;
      if lid !in loads {
        return NoSuchLoad;
      }
      if |content| < 1 {
        return EmptyBody;
      }
      var merged := MergeLoad(loads[lid], content);
      if merged.None? {
        return Crash;
      }
      loads := loads[lid := merged.value];
      r := Response(Ok, OneLoad(lid, merged.value));
    }

    /** DELETE /loads/{lid}: 404; a crash when the load's carrier names a
        boat that does not exist; else the removal loop drops the load's
        stub from its carrier's list (`DropStubs`) and the load is deleted. */
    method RemoveLoad(lid: int) returns (r: Response)
      modifies this
      ensures lid !in old(loads) ==> r == NoSuchLoad && unchanged(this)
      ensures lid in old(loads) && old(loads)[lid].carrier.Some? && old(loads)[lid].carrier.value.id !in old(boats) ==>
        r == Crash && unchanged(this)
      ensures lid in old(loads) && old(loads)[lid].carrier.None? ==>
        r == Done && loads == old(loads) - {lid} && boats == old(boats)
      ensures lid in old(loads) && old(loads)[lid].carrier.Some? && old(loads)[lid].carrier.value.id in old(boats) ==>
        var c := old(loads)[lid].carrier.value.id;
        && r == Done && loads == old(loads) - {lid}
        && c in boats && boats == old(boats)[c := old(boats)[c].(loads := boats[c].loads)]
        && Strip(boats[c].loads, lid) == Strip(old(boats)[c].loads, lid)
        && (lid in old(boats)[c].loads ==> Count(boats[c].loads, lid) < Count(old(boats)[c].loads, lid))
        && (Count(old(boats)[c].loads, lid) <= 1 ==> Snapshot() == DeleteLoad(old(Snapshot()), lid))
      ensures old(Consistent(Snapshot())) ==> Consistent(Snapshot()) && r != Crash
    {
      if lid !in loads {
        return NoSuchLoad;
      }
      ghost var s := Snapshot();
      var load := loads[lid];
      if load.carrier.Some? {
        var c := load.carrier.value.id;
        if c !in boats {
          assert Consistent(s) ==> c in s.boats;
          return Crash;
        }
        var boat := boats[c];
        var kept := DropStubs(boat.loads, lid);
        boats := boats[c := boat.(loads := kept)];
        if Consistent(s) {
          NoDupCount(boat.loads, lid);
        }
      }
      loads := loads - {lid};
      r := Done;
      if Consistent(s) {
        DeleteLoadKeepsConsistent(s, lid);
      }
    }
  }
}
