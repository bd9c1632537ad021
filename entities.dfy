/** The two entity kinds the service stores, their JSON form, the partial
    update a PATCH performs on them, and the invariant that ties a load's
    carrier to its boat's list of loads. */
module Entities {
  import opened Json
  import opened Stubs

  /** The `{id, name}` reference a carried load holds to its boat. */
  datatype Carrier = Carrier(id: int, name: Value)

  /** A stored boat. `name`, `boatType` (the `type` property) and `length`
      hold whatever the request body gave. `owner` is the subject that
      created the boat unless a PATCH overwrote it. `loads` lists the ids of
      the `{id}` stubs. `extra` holds any other property a PATCH added. */
  datatype Boat = Boat(
    name: Value, boatType: Value, length: Value, owner: Value,
    loads: seq<int>, extra: map<string, Value>)

  /** A stored load; `carrier` is null (`None`) when no boat carries it. */
  datatype Load = Load(
    volume: Value, item: Value, creationDate: Value,
    carrier: Option<Carrier>, extra: map<string, Value>)

  /** The datastore: boats and loads by id. */
  datatype State = State(boats: map<int, Boat>, loads: map<int, Load>)

  // ---- JSON form ----

  const BoatKeys: set<string> := {"name", "type", "length", "owner", "loads"}
  const LoadKeys: set<string> := {"volume", "item", "creation_date", "carrier"}

  function StubJson(id: int): Value {
    Obj(map["id" := Num(id)])
  }

  function StubsJson(ls: seq<int>): Value {
    Arr(seq(|ls|, i requires 0 <= i < |ls| => StubJson(ls[i])))
  }

  /** Reads a list of stubs, each an object whose only property is a
      numeric `id`. `None` for anything else. */
  function DecodeStubList(items: seq<Value>): Option<seq<int>> {
    if |items| == 0 then Some([])
    else
      match items[0]
      case Obj(m) =>
        if m.Keys == {"id"} && m["id"].Num? then
          match DecodeStubList(items[1..])
          case Some(rest) => Some([m["id"].n] + rest)
          case None => None
        else None
      case _ => None
  }

  function DecodeStubs(v: Value): Option<seq<int>> {
    match v
    case Arr(items) => DecodeStubList(items)
    case _ => None
  }

  lemma {:induction false} DecodeStubsJson(ls: seq<int>)
    ensures DecodeStubs(StubsJson(ls)) == Some(ls)
  {
    if |ls| > 0 {
      DecodeStubsJson(ls[1..]);
      assert StubsJson(ls).items[1..] == StubsJson(ls[1..]).items;
      assert ls == [ls[0]] + ls[1..];
    }
  }

  /** A stub list that reads at all is written exactly as the service
      writes the ids it reads as. */
  lemma {:induction false} DecodeStubListExact(items: seq<Value>)
    ensures DecodeStubList(items).Some? ==> StubsJson(DecodeStubList(items).value) == Arr(items)
  {
    if |items| > 0 && DecodeStubList(items).Some? {
      var m := items[0].fields;
      assert m == map["id" := m["id"]];
      DecodeStubListExact(items[1..]);
      var ls := DecodeStubList(items).value;
      assert ls == [m["id"].n] + DecodeStubList(items[1..]).value;
      assert StubsJson(ls).items[1..] == StubsJson(ls[1..]).items;
      assert items == [items[0]] + items[1..];
    }
  }

  function CarrierJson(c: Option<Carrier>): Value {
    match c
    case None => Null
    case Some(Carrier(id, name)) => Obj(map["id" := Num(id), "name" := name])
  }

  /** Reads a carrier property: null, or an object whose properties are
      exactly a numeric `id` and a `name`. `None` for anything else. */
  function DecodeCarrier(v: Value): Option<Option<Carrier>> {
    match v
    case Null => Some(None)
    case Obj(m) =>
      if m.Keys == {"id", "name"} && m["id"].Num? then
        Some(Some(Carrier(m["id"].n, m["name"])))
      else None
    case _ => None
  }

  lemma DecodeCarrierJson(c: Option<Carrier>)
    ensures DecodeCarrier(CarrierJson(c)) == Some(c)
  {
    if c.Some? {
      var m := CarrierJson(c).fields;
      assert m.Keys == {"id", "name"};
    }
  }

  /** A carrier that reads at all is written exactly as the service writes
      the carrier it reads as. */
  lemma DecodeCarrierExact(v: Value)
    ensures DecodeCarrier(v).Some? ==> CarrierJson(DecodeCarrier(v).value) == v
  {
    if v.Obj? && DecodeCarrier(v).Some? {
      var m := v.fields;
      assert m == map["id" := m["id"], "name" := m["name"]];
    }
  }

  /** The properties the datastore entity of a boat holds. */
  function BoatJson(b: Boat): map<string, Value> {
    b.extra["name" := b.name]["type" := b.boatType]["length" := b.length]
           ["owner" := b.owner]["loads" := StubsJson(b.loads)]
  }

  /** The properties the datastore entity of a load holds. */
  function LoadJson(l: Load): map<string, Value> {
    l.extra["volume" := l.volume]["item" := l.item]["creation_date" := l.creationDate]
           ["carrier" := CarrierJson(l.carrier)]
  }

  function Field(body: map<string, Value>, key: string, current: Value): Value {
    if key in body then body[key] else current
  }

  // ---- PATCH: `entity.update(content)` ----

  /** Merges every property of `body` into the boat. `None` when `body`
      gives a `loads` value that is not a list of stubs. */
  function MergeBoat(b: Boat, body: map<string, Value>): Option<Boat> {
    if "loads" in body && DecodeStubs(body["loads"]).None? then None
    else
      Some(Boat(
        Field(body, "name", b.name), Field(body, "type", b.boatType),
        Field(body, "length", b.length), Field(body, "owner", b.owner),
        if "loads" in body then DecodeStubs(body["loads"]).value else b.loads,
        b.extra + (body - BoatKeys)))
  }

  /** Merges every property of `body` into the load. `None` when `body`
      gives a `carrier` value that is neither null nor a boat reference. */
  function MergeLoad(l: Load, body: map<string, Value>): Option<Load> {
    if "carrier" in body && DecodeCarrier(body["carrier"]).None? then None
    else
      Some(Load(
        Field(body, "volume", l.volume), Field(body, "item", l.item),
        Field(body, "creation_date", l.creationDate),
        if "carrier" in body then DecodeCarrier(body["carrier"]).value else l.carrier,
        l.extra + (body - LoadKeys)))
  }

  /** The merged boat's properties, once its `loads` read back as the body's. */
  lemma MergedBoatJson(b: Boat, body: map<string, Value>)
    requires MergeBoat(b, body).Some?
    requires "loads" in body ==> body["loads"] == StubsJson(MergeBoat(b, body).value.loads)
    ensures BoatJson(MergeBoat(b, body).value) == BoatJson(b) + body
  {
    var m := MergeBoat(b, body).value;
    var lhs, rhs := BoatJson(m), BoatJson(b) + body;
    forall k ensures (k in lhs <==> k in rhs) && (k in lhs ==> lhs[k] == rhs[k]) {
      if k in BoatKeys {
        assert k in lhs && k in rhs;
        if k == "loads" {
          assert lhs[k] == StubsJson(m.loads);
        }
      } else {
        assert k in lhs <==> k in m.extra;
      }
    }
  }

  /** PATCH is a dictionary update: it goes through exactly when a `loads`
      property in the body is a stub list in the service's own form, and
      then the merged boat's properties are the old ones overwritten by
      every property of the body. */
  lemma MergeBoatIsDictUpdate(b: Boat, body: map<string, Value>)
    ensures MergeBoat(b, body).Some? <==> ("loads" in body ==> exists ls :: body["loads"] == StubsJson(ls))
    ensures MergeBoat(b, body).Some? ==> BoatJson(MergeBoat(b, body).value) == BoatJson(b) + body
  {
    if "loads" in body {
      DecodeStubListExact(if body["loads"].Arr? then body["loads"].items else []);
      if exists ls :: body["loads"] == StubsJson(ls) {
        var ls :| body["loads"] == StubsJson(ls);
        DecodeStubsJson(ls);
      }
    }
    if MergeBoat(b, body).Some? {
      MergedBoatJson(b, body);
    }
  }

  /** The merged load's properties, once its carrier reads back as the body's. */
  lemma MergedLoadJson(l: Load, body: map<string, Value>)
    requires MergeLoad(l, body).Some?
    requires "carrier" in body ==> body["carrier"] == CarrierJson(MergeLoad(l, body).value.carrier)
    ensures LoadJson(MergeLoad(l, body).value) == LoadJson(l) + body
  {
    var m := MergeLoad(l, body).value;
    var lhs, rhs := LoadJson(m), LoadJson(l) + body;
    forall k ensures (k in lhs <==> k in rhs) && (k in lhs ==> lhs[k] == rhs[k]) {
      if k in LoadKeys {
        assert k in lhs && k in rhs;
      } else {
        assert k in lhs <==> k in m.extra;
      }
    }
  }

  /** PATCH is a dictionary update on loads too: it goes through exactly
      when a `carrier` property in the body is null or a carrier in the
      service's own form. */
  lemma MergeLoadIsDictUpdate(l: Load, body: map<string, Value>)
    ensures MergeLoad(l, body).Some? <==> ("carrier" in body ==> exists c :: body["carrier"] == CarrierJson(c))
    ensures MergeLoad(l, body).Some? ==> LoadJson(MergeLoad(l, body).value) == LoadJson(l) + body
  {
    if "carrier" in body {
      DecodeCarrierExact(body["carrier"]);
      if exists c :: body["carrier"] == CarrierJson(c) {
        var c :| body["carrier"] == CarrierJson(c);
        DecodeCarrierJson(c);
      }
    }
    if MergeLoad(l, body).Some? {
      MergedLoadJson(l, body);
    }
  }

  // ---- the bidirectional carrier / loads invariant ----

  predicate CarriedBy(s: State, l: int, b: int) {
    l in s.loads && s.loads[l].carrier.Some? && s.loads[l].carrier.value.id == b
  }

  /** Every stub on a boat names a load whose carrier is that boat; every
      carried load's carrier is a boat that lists it; no boat lists a load
      twice. */
  ghost predicate Consistent(s: State) {
    && (forall b, l :: b in s.boats && l in s.boats[b].loads ==> CarriedBy(s, l, b))
    && (forall l :: l in s.loads && s.loads[l].carrier.Some? ==>
          s.loads[l].carrier.value.id in s.boats &&
          l in s.boats[s.loads[l].carrier.value.id].loads)
    && (forall b :: b in s.boats ==> NoDup(s.boats[b].loads))
  }
}
