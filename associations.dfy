/** What each mutating route does to the datastore once its guards have
    passed, as functions of the state, and the proofs that the routes that
    maintain the boat/load link by hand keep it consistent. */
module Associations {
  import opened Json
  import opened Stubs
  import opened Entities

  function WithBoat(s: State, id: int, b: Boat): State {
    State(s.boats[id := b], s.loads)
  }

  function WithLoad(s: State, id: int, l: Load): State {
    State(s.boats, s.loads[id := l])
  }

  /** A new boat under a fresh id, with no loads, keeps the link consistent. */
  lemma AddBoatKeepsConsistent(s: State, id: int, b: Boat)
    requires Consistent(s) && id !in s.boats && b.loads == []
    ensures Consistent(WithBoat(s, id, b))
  {
    var t := WithBoat(s, id, b);
    forall x, l | x in t.boats && l in t.boats[x].loads ensures CarriedBy(t, l, x) {
      assert x != id;
    }
  }

  /** A new uncarried load under a fresh id keeps the link consistent. */
  lemma AddLoadKeepsConsistent(s: State, id: int, l: Load)
    requires Consistent(s) && id !in s.loads && l.carrier.None?
    ensures Consistent(WithLoad(s, id, l))
  {
    var t := WithLoad(s, id, l);
    forall x, k | x in t.boats && k in t.boats[x].loads ensures CarriedBy(t, k, x) {
      assert CarriedBy(s, k, x);
    }
  }

  /** Rewriting a boat's other properties (PUT) keeps the link consistent. */
  lemma UpdateBoatKeepsConsistent(s: State, id: int, b: Boat)
    requires Consistent(s) && id in s.boats && b.loads == s.boats[id].loads
    ensures Consistent(WithBoat(s, id, b))
  {
  }

  /** Rewriting a load's other properties (PUT) keeps the link consistent. */
  lemma UpdateLoadKeepsConsistent(s: State, id: int, l: Load)
    requires Consistent(s) && id in s.loads && l.carrier == s.loads[id].carrier
    ensures Consistent(WithLoad(s, id, l))
  {
    var t := WithLoad(s, id, l);
    forall x, k | x in t.boats && k in t.boats[x].loads ensures CarriedBy(t, k, x) {
      assert CarriedBy(s, k, x);
    }
  }

  // ---- attach and detach ----

  /** PUT /boats/{bid}/loads/{lid}: the load's stub goes on the end of the
      boat's list and the load's carrier becomes the boat. */
  function Attach(s: State, bid: int, lid: int): State
    requires bid in s.boats && lid in s.loads
  {
    var b := s.boats[bid];
    State(s.boats[bid := b.(loads := b.loads + [lid])],
          s.loads[lid := s.loads[lid].(carrier := Some(Carrier(bid, b.name)))])
  }

  /** DELETE /boats/{bid}/loads/{lid}: the load's stub leaves the boat's list
      and the load's carrier becomes null. */
  function Detach(s: State, bid: int, lid: int): State
    requires bid in s.boats && lid in s.loads
  {
    var b := s.boats[bid];
    State(s.boats[bid := b.(loads := Strip(b.loads, lid))],
          s.loads[lid := s.loads[lid].(carrier := None)])
  }

  /** In a consistent state an uncarried load is on no boat's list. */
  lemma UncarriedIsUnlisted(s: State, lid: int, bid: int)
    requires Consistent(s) && lid in s.loads && s.loads[lid].carrier.None? && bid in s.boats
    ensures lid !in s.boats[bid].loads
  {
    assert lid in s.boats[bid].loads ==> CarriedBy(s, lid, bid);
  }

  lemma AttachKeepsConsistent(s: State, bid: int, lid: int)
    requires Consistent(s) && bid in s.boats && lid in s.loads && s.loads[lid].carrier.None?
    ensures Consistent(Attach(s, bid, lid))
  {
    var t := Attach(s, bid, lid);
    var before := s.boats[bid].loads;
    UncarriedIsUnlisted(s, lid, bid);
    forall x, l | x in t.boats && l in t.boats[x].loads ensures CarriedBy(t, l, x) {
      if x == bid {
        assert l in before + [lid];
        if l != lid {
          assert l in before;
          assert CarriedBy(s, l, x);
        }
      } else {
        assert CarriedBy(s, l, x);
      }
    }
    forall l | l in t.loads && t.loads[l].carrier.Some?
      ensures t.loads[l].carrier.value.id in t.boats && l in t.boats[t.loads[l].carrier.value.id].loads
    {
      if l == lid {
        assert t.boats[bid].loads == before + [lid];
      } else {
        var c := s.loads[l].carrier.value.id;
        assert l in s.boats[c].loads;
        if c == bid {
          assert l in before + [lid];
        }
      }
    }
    AppendKeepsNoDup(before, lid);
  }

  lemma DetachKeepsConsistent(s: State, bid: int, lid: int)
    requires Consistent(s) && bid in s.boats && lid in s.loads && lid in s.boats[bid].loads
    ensures Consistent(Detach(s, bid, lid))
  {
    var t := Detach(s, bid, lid);
    var before := s.boats[bid].loads;
    assert CarriedBy(s, lid, bid);
    forall x, l | x in t.boats && l in t.boats[x].loads ensures CarriedBy(t, l, x) {
      if x == bid {
        StripMembers(before, lid, l);
        assert CarriedBy(s, l, x);
      } else {
        assert CarriedBy(s, l, x);
        assert l != lid;
      }
    }
    forall l | l in t.loads && t.loads[l].carrier.Some?
      ensures t.loads[l].carrier.value.id in t.boats && l in t.boats[t.loads[l].carrier.value.id].loads
    {
      var c := s.loads[l].carrier.value.id;
      assert l != lid && l in s.boats[c].loads;
      if c == bid {
        StripMembers(before, lid, l);
      }
    }
    StripKeepsNoDup(before, lid);
  }

  /** Attaching a load a boat does not list and then detaching it gives back
      the state before, when the load had no carrier. */
  lemma AttachDetachRestores(s: State, bid: int, lid: int)
    requires bid in s.boats && lid in s.loads && s.loads[lid].carrier.None?
    requires lid !in s.boats[bid].loads
    ensures Detach(Attach(s, bid, lid), bid, lid) == s
  {
    var b := s.boats[bid];
    StripAppend(b.loads, lid, lid);
    StripAbsent(b.loads, lid);
    var a := Attach(s, bid, lid);
    assert a.boats[bid] == b.(loads := b.loads + [lid]);
    var t := Detach(a, bid, lid);
    assert t.boats[bid] == b;
    assert t.boats == s.boats[bid := b];
    assert t.loads == s.loads[lid := s.loads[lid]];
  }

  /** From a consistent state, attaching a free load and then detaching it
      gives back exactly the state before. */
  lemma AttachDetachRoundTrip(s: State, bid: int, lid: int)
    requires Consistent(s) && bid in s.boats && lid in s.loads && s.loads[lid].carrier.None?
    ensures Detach(Attach(s, bid, lid), bid, lid) == s
  {
    UncarriedIsUnlisted(s, lid, bid);
    AttachDetachRestores(s, bid, lid);
  }

  // ---- deleting a boat ----

  /** The loads map with the carrier of every load listed in `ids` nulled. */
  function ClearCarriers(loads: map<int, Load>, ids: seq<int>): map<int, Load> {
    map l | l in loads :: if l in ids then loads[l].(carrier := None) else loads[l]
  }

  /** DELETE /boats/{bid}: every load on the boat's list is released, then
      the boat is removed. */
  function DeleteBoat(s: State, bid: int): State
    requires bid in s.boats
  {
    State(s.boats - {bid}, ClearCarriers(s.loads, s.boats[bid].loads))
  }

  /** From a consistent state, deleting a boat frees exactly the loads it
      carried, changes nothing else about any load, and leaves the link
      consistent. */
  lemma DeleteBoatReleasesItsLoads(s: State, bid: int)
    requires Consistent(s) && bid in s.boats
    ensures var t := DeleteBoat(s, bid);
      && Consistent(t)
      && t.loads.Keys == s.loads.Keys
      && (forall l :: l in s.loads && CarriedBy(s, l, bid) ==> t.loads[l] == s.loads[l].(carrier := None))
      && (forall l :: l in s.loads && !CarriedBy(s, l, bid) ==> t.loads[l] == s.loads[l])
  {
    var t := DeleteBoat(s, bid);
    var ids := s.boats[bid].loads;
    forall l | l in s.loads ensures l in ids <==> CarriedBy(s, l, bid) {
      if CarriedBy(s, l, bid) {
        assert l in s.boats[bid].loads;
      }
    }
    forall x, l | x in t.boats && l in t.boats[x].loads ensures CarriedBy(t, l, x) {
      assert CarriedBy(s, l, x);
      assert l !in ids;
    }
    forall l | l in t.loads && t.loads[l].carrier.Some?
      ensures t.loads[l].carrier.value.id in t.boats && l in t.boats[t.loads[l].carrier.value.id].loads
    {
      assert l !in ids;
      var c := s.loads[l].carrier.value.id;
      assert c != bid;
    }
  }

  // ---- deleting a load ----

  /** DELETE /loads/{lid}: a carried load's stub leaves its carrier's list,
      then the load is removed. */
  function DeleteLoad(s: State, lid: int): State
    requires lid in s.loads
    requires s.loads[lid].carrier.Some? ==> s.loads[lid].carrier.value.id in s.boats
  {
    var l := s.loads[lid];
    var boats :=
      if l.carrier.Some? then
        var c := l.carrier.value.id;
        s.boats[c := s.boats[c].(loads := Strip(s.boats[c].loads, lid))]
      else s.boats;
    State(boats, s.loads - {lid})
  }

  /** From a consistent state, deleting a load drops its stub from its
      carrier, leaves every other boat and load as it was, and keeps the
      link consistent. */
  lemma DeleteLoadKeepsConsistent(s: State, lid: int)
    requires Consistent(s) && lid in s.loads
    ensures s.loads[lid].carrier.Some? ==> s.loads[lid].carrier.value.id in s.boats
    ensures var t := DeleteLoad(s, lid);
      && Consistent(t)
      && t.boats.Keys == s.boats.Keys
      && (forall b :: b in s.boats ==> t.boats[b].loads == Strip(s.boats[b].loads, lid))
      && (forall l :: l in t.loads ==> t.loads[l] == s.loads[l])
  {
    var t := DeleteLoad(s, lid);
    forall b | b in s.boats ensures t.boats[b].loads == Strip(s.boats[b].loads, lid) {
      if !CarriedBy(s, lid, b) {
        assert lid in s.boats[b].loads ==> CarriedBy(s, lid, b);
        StripAbsent(s.boats[b].loads, lid);
      }
    }
    forall x, l | x in t.boats && l in t.boats[x].loads ensures CarriedBy(t, l, x) {
      StripMembers(s.boats[x].loads, lid, l);
      assert CarriedBy(s, l, x);
    }
    forall l | l in t.loads && t.loads[l].carrier.Some?
      ensures t.loads[l].carrier.value.id in t.boats && l in t.boats[t.loads[l].carrier.value.id].loads
    {
      var c := s.loads[l].carrier.value.id;
      assert l in s.boats[c].loads;
      StripMembers(s.boats[c].loads, lid, l);
    }
    forall b | b in t.boats ensures NoDup(t.boats[b].loads) {
      StripKeepsNoDup(s.boats[b].loads, lid);
    }
  }

  // ---- the loads a boat carries ----

  /** The loads whose carrier is boat `bid`: what GET /boats/{bid}/loads queries. */
  function CarriedLoads(s: State, bid: int): set<int> {
    set l | l in s.loads && CarriedBy(s, l, bid)
  }

  /** In a consistent state, the loads whose carrier is a boat are exactly
      the loads on that boat's list. */
  lemma CarriedLoadsAreListed(s: State, bid: int)
    requires Consistent(s) && bid in s.boats
    ensures CarriedLoads(s, bid) == set l | l in s.boats[bid].loads
  {
    forall l | l in s.boats[bid].loads ensures l in CarriedLoads(s, bid) {
      assert CarriedBy(s, l, bid);
    }
  }
}
