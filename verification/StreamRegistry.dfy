// The registry of open streams (src/http/stream-lifecycle.ts): a set of closers per owning database,
// each set an object that the returned unregister closures hold on to.

module StreamRegistries {

  /** One owner's set of closers. A closer is a function object, so it has its own identity. */
  class CloserSet {
    var closers: set<nat>

    constructor (first: nat)
      ensures closers == {first}
    {
      closers := {first};
    }
  }

  /** What an unregister closure captures. */
  datatype Registration = Registration(owner: nat, closer: nat, group: CloserSet)

  class StreamRegistry {
    var activeByOwner: map<nat, CloserSet>
    /** Every registration ever made. */
    ghost var issued: set<Registration>

    ghost function Groups(): set<CloserSet>
      reads this
    {
      set o | o in activeByOwner :: activeByOwner[o]
    }

    /** The sets that unregister closures hold on to. */
    ghost function Captured(): set<CloserSet>
      reads this
    {
      set r | r in issued :: r.group
    }

    /**
     * Owners have their own, nonempty sets; every closer in them was registered there; and a set that is
     * no longer its owner's is empty.
     */
    ghost predicate Valid()
      reads this, Groups(), Captured()
    {
      && (forall o, p :: o in activeByOwner && p in activeByOwner && o != p ==> activeByOwner[o] != activeByOwner[p])
      && (forall o :: o in activeByOwner ==> activeByOwner[o].closers != {})
      && (forall r :: r in issued ==>
            r.group.closers == {} || (r.owner in activeByOwner && activeByOwner[r.owner] == r.group))
      && (forall o, c :: o in activeByOwner && c in activeByOwner[o].closers ==>
            Registration(o, c, activeByOwner[o]) in issued)
    }

    /** The closers a shutdown of `owner` would run. */
    ghost function Active(owner: nat): set<nat>
      reads this, Groups()
    {
      if owner in activeByOwner then activeByOwner[owner].closers else {}
    }

    constructor ()
      ensures Valid() && activeByOwner == map[] && issued == {}
    {
      activeByOwner := map[];
      issued := {};
    }

    method Register(owner: nat, closer: nat) returns (r: Registration)
      requires Valid() && closer !in Active(owner)
      modifies this, Groups()
      ensures Valid()
      ensures Active(owner) == old(Active(owner)) + {closer}
      ensures forall o: nat :: o != owner ==> Active(o) == old(Active(o))
      ensures r.owner == owner && r.closer == closer && r.closer in r.group.closers && issued == old(issued) + {r}
      ensures fresh(Groups() - old(Groups()))
    {
      if owner in activeByOwner {
        var group := activeByOwner[owner];
        group.closers := group.closers + {closer};
        r := Registration(owner, closer, group);
      } else {
        var group := new CloserSet(closer);
        activeByOwner := activeByOwner[owner := group];
        r := Registration(owner, closer, group);
      }
      issued := issued + {r};
    }

    /**
     * Running an unregister closure. The first call takes out its own closer, and with the last one the
     * owner's entry. A later call changes nothing, unless the set it holds on to is empty and the owner has
     * registered again since: then it drops the owner's new entry.
     */
    method Unregister(r: Registration)
      requires Valid() && r in issued
      modifies this, r.group
      ensures issued == old(issued)
      ensures r.closer in old(r.group.closers) ==>
                && Valid() && Groups() <= old(Groups())
                && Active(r.owner) == old(Active(r.owner)) - {r.closer}
                && forall o: nat :: o != r.owner ==> Active(o) == old(Active(o))
      ensures r.closer !in old(r.group.closers) ==>
                && r.group.closers == old(r.group.closers)
                && activeByOwner == (if old(r.group.closers) == {} then old(activeByOwner) - {r.owner}
                                     else old(activeByOwner))
                && (old(r.group.closers) != {} || r.owner !in old(activeByOwner) ==>
                      Valid() && activeByOwner == old(activeByOwner))
    {
      r.group.closers := r.group.closers - {r.closer};
      if r.group.closers == {} {
        activeByOwner := activeByOwner - {r.owner};
      }
    }

    /** Shutdown of one owner: every closer of a copy of the set runs and unregisters itself. */
    method CloseAll(owner: nat) returns (closed: seq<nat>)
      requires Valid()
      modifies this, Groups()
      ensures Valid() && Active(owner) == {} && owner !in activeByOwner
      ensures forall o: nat :: o != owner ==> Active(o) == old(Active(o))
      ensures forall c :: c in closed <==> c in old(Active(owner))
    {
      closed := [];
      if owner !in activeByOwner {
        return;
      }
      var group := activeByOwner[owner];
      var copy := group.closers;
      while copy != {}
        invariant Valid() && Groups() <= old(Groups())
        invariant Active(owner) == copy
        invariant copy != {} ==> owner in activeByOwner && activeByOwner[owner] == group
        invariant forall o: nat :: o != owner ==> Active(o) == old(Active(o))
        invariant forall c :: c in closed || c in copy <==> c in old(Active(owner))
        decreases copy
      {
        var c :| c in copy;
        copy := copy - {c};
        Unregister(Registration(owner, c, group));
        closed := closed + [c];
      }
      activeByOwner := activeByOwner - {owner};
    }
  }
}
