/** The map of the databases a runner has open, and what leaves it: the least
    recently used entry when too many are open, and the idle ones. */
module D1Service {
  import opened Wrappers

  /** The entry of a database. `uses` are the references to it beside that of
      the map, of calls and of the snapshot pass. */
  datatype Handle = Handle(open: bool, uses: nat, lastUsed: int, commits: nat, saved: nat)

  predicate Unsaved(h: Handle) { h.commits != h.saved }

  type Databases = map<string, Handle>

  /** An entry that can make room: open, and only the map refers to it. */
  predicate Evictable(databases: Databases, id: string) {
    id in databases && databases[id].uses == 0 && databases[id].open
  }

  function OpenOnes(databases: Databases): set<string> {
    set id | id in databases && databases[id].open
  }

  /** `victim` is the least recently used entry that can make room, if any. */
  ghost predicate IsOldest(databases: Databases, victim: Option<string>) {
    match victim
    case None => forall id :: !Evictable(databases, id)
    case Some(v) =>
      && Evictable(databases, v)
      && forall id :: Evictable(databases, id) ==> databases[v].lastUsed <= databases[id].lastUsed
  }

  /** The map once `victim` made room: its entry goes, or only its connection
      if it has commits that no snapshot holds. */
  function WithRoom(databases: Databases, victim: Option<string>): Databases {
    match victim
    case None => databases
    case Some(v) =>
      if v !in databases then databases
      else if Unsaved(databases[v]) then databases[v := databases[v].(open := false)]
      else databases - {v}
  }

  predicate IsIdle(h: Handle, now: int, idle: int) { h.uses == 0 && now - h.lastUsed >= idle }

  /** The map without the idle entries, of which an unsaved one only loses its
      connection. */
  function WithoutIdle(databases: Databases, now: int, idle: int): Databases {
    map id | id in databases && (IsIdle(databases[id], now, idle) ==> Unsaved(databases[id])) ::
      if IsIdle(databases[id], now, idle) then databases[id].(open := false) else databases[id]
  }

  /** Both keep the entry, and the counts, of every database that is in use or
      has commits that no snapshot holds. */
  lemma UnsavedEntriesStay(databases: Databases, victim: Option<string>, now: int, idle: int, id: string)
    requires IsOldest(databases, victim) && id in databases
    requires Unsaved(databases[id]) || databases[id].uses > 0
    ensures var roomy, awake := WithRoom(databases, victim), WithoutIdle(databases, now, idle);
      && id in roomy && id in awake
      && roomy[id].(open := true) == databases[id].(open := true) == awake[id].(open := true)
  {
    if victim == Some(id) {
      assert Unsaved(databases[id]);
    }
  }

  class Service {
    const maxOpen: nat
    var databases: Databases

    constructor (maxOpen: nat)
      ensures databases == map[] && this.maxOpen == maxOpen
    {
      this.maxOpen := maxOpen;
      databases := map[];
    }

    /** The least recently used entry that can make room. */
    method Oldest() returns (victim: Option<string>)
      ensures IsOldest(databases, victim)
      ensures forall id :: id in databases && databases[id].open && databases[id].uses == 0 ==>
        victim.Some? && victim.value in databases && databases[victim.value].lastUsed <= databases[id].lastUsed
      ensures victim.Some? ==>
        victim.value in databases && databases[victim.value].open && databases[victim.value].uses == 0
    {
      victim := None;
      var rest := databases.Keys;
      while rest != {}
        invariant rest <= databases.Keys
        invariant victim.Some? ==> Evictable(databases, victim.value)
        invariant forall id :: Evictable(databases, id) && id !in rest ==>
          victim.Some? && databases[victim.value].lastUsed <= databases[id].lastUsed
        decreases rest
      {
        var id :| id in rest;
        rest := rest - {id};
        if databases[id].uses == 0 && databases[id].open
          && (victim.None? || databases[id].lastUsed < databases[victim.value].lastUsed)
        {
          victim := Some(id);
        }
      }
    }

    /** The entry of a database, made if it is missing, after one of the others
        made room if too many are open. The caller now uses it. */
    method Open(id: string, now: int) returns (victim: Option<string>)
      modifies this
      ensures id in databases && databases[id].uses > 0
      ensures forall other :: other in old(databases) && other != id && Some(other) != victim ==>
        other in databases && databases[other] == old(databases)[other]
      ensures victim.Some? ==> |OpenOnes(old(databases))| >= maxOpen && victim.value in old(databases)
                               && old(databases)[victim.value].open && old(databases)[victim.value].uses == 0
      ensures victim.Some? && victim.value != id ==>
        (victim.value in databases <==>
           old(databases)[victim.value].commits != old(databases)[victim.value].saved)
      ensures victim.Some? && victim.value != id && victim.value in databases ==> !databases[victim.value].open
      ensures id in old(databases) ==>
        databases == old(databases)[id := old(databases)[id].(uses := old(databases)[id].uses + 1)]
      ensures id !in old(databases) && |OpenOnes(old(databases))| < maxOpen ==>
        databases == old(databases)[id := Handle(false, 1, now, 0, 0)]
      ensures id !in old(databases) && |OpenOnes(old(databases))| >= maxOpen ==>
        && IsOldest(old(databases), victim)
        && databases == WithRoom(old(databases), victim)[id := Handle(false, 1, now, 0, 0)]
    {
      victim := None;
      if id in databases {
        databases := databases[id := databases[id].(uses := databases[id].uses + 1)];
        return;
      }
      var open := set d | d in databases && databases[d].open;
      if |open| >= maxOpen {
        victim := Oldest();
        if victim.Some? {
          var v := victim.value;
          if Unsaved(databases[v]) {
            databases := databases[v := databases[v].(open := false)];
          } else {
            databases := databases - {v};
          }
        }
      }
      databases := databases[id := Handle(false, 1, now, 0, 0)];
    }

    /** Takes the idle entries out of the map, one after the other. */
    method CloseIdle(now: int, idle: int)
      modifies this
      ensures databases == WithoutIdle(old(databases), now, idle)
      ensures forall id :: id in databases ==> id in old(databases)
      ensures forall id :: id in old(databases) ==>
        var h := old(databases)[id];
        && (id in databases <==> h.uses > 0 || now - h.lastUsed < idle || h.commits != h.saved)
        && (id in databases && (h.uses > 0 || now - h.lastUsed < idle) ==> databases[id] == h)
        && (id in databases && h.uses == 0 && now - h.lastUsed >= idle ==> databases[id] == h.(open := false))
    {
      var rest := databases.Keys;
      while rest != {}
        invariant rest <= old(databases).Keys
        invariant databases ==
          map d | d in old(databases) && (d in rest || d in WithoutIdle(old(databases), now, idle)) ::
            if d in rest then old(databases)[d] else WithoutIdle(old(databases), now, idle)[d]
        decreases rest
      {
        var id :| id in rest;
        if IsIdle(databases[id], now, idle) {
          if Unsaved(databases[id]) {
            databases := databases[id := databases[id].(open := false)];
          } else {
            databases := databases - {id};
          }
        }
        rest := rest - {id};
      }
    }
  }
}
