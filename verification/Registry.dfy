/** The registry of the Durable Objects a runner serves: what its one lock
    guards, and the critical sections that run under it.

    A mailbox is an unbounded channel. Generations are handed out under the
    lock, one per start, so the mailbox of generation `g` is `mailboxes[g]`
    and the generation counter is `|mailboxes|`. */
module DurableRegistry {
  import opened Wrappers

  type Generation = nat
  type EventId = nat

  /** Objects of one account that are resident at once. */
  const MAX_RESIDENT_PER_ACCOUNT: nat := 100

  datatype ObjectKey = ObjectKey(namespace: string, id: string)

  /** The part of a namespace configuration that admission reads. */
  datatype Namespace = Namespace(id: string, account: string, worker: string)

  datatype Entry = Entry(generation: Generation, worker: string, version: Option<int>)

  datatype Mailbox = Mailbox(queue: seq<EventId>, open: bool)

  /** Everything the lock guards. */
  datatype Table = Table(
    objects: map<ObjectKey, Entry>,
    running: map<string, nat>,
    accounts: map<string, nat>,
    stopped: set<string>,
    retiring: map<ObjectKey, Generation>,
    mailboxes: seq<Mailbox>)

  datatype Admission =
    | Deleted
    | TooMany
    | Delivered(to: Generation)
    | Started(generation: Generation, previous: Option<Generation>)

  predicate IsOpen(mailboxes: seq<Mailbox>, g: Generation) {
    g < |mailboxes| && mailboxes[g].open
  }

  function Count(counts: map<string, nat>, key: string): nat {
    if key in counts then counts[key] else 0
  }

  /** One task less for `key`; `None` where the runner would panic. */
  function Less(counts: map<string, nat>, key: string): Option<map<string, nat>> {
    if Count(counts, key) == 0 then None
    else if counts[key] == 1 then Some(counts - {key})
    else Some(counts[key := counts[key] - 1])
  }

  /** What `admit` answers for an event of the object `key`. */
  function Answer(t: Table, ns: Namespace, key: ObjectKey): Admission {
    if ns.id in t.stopped then Deleted
    else if key in t.objects && IsOpen(t.mailboxes, t.objects[key].generation) then
      Delivered(t.objects[key].generation)
    else if Count(t.accounts, ns.account) >= MAX_RESIDENT_PER_ACCOUNT then TooMany
    else Started(|t.mailboxes|, if key in t.retiring then Some(t.retiring[key]) else None)
  }

  /** The table after `admit`. */
  function Admitted(t: Table, ns: Namespace, key: ObjectKey, event: EventId): Table {
    match Answer(t, ns, key)
    case Delivered(g) =>
      var box := t.mailboxes[g];
      t.(mailboxes := t.mailboxes[g := box.(queue := box.queue + [event])])
    case Started(g, _) =>
      t.(objects := t.objects[key := Entry(g, ns.worker, None)],
         running := t.running[ns.id := Count(t.running, ns.id) + 1],
         accounts := t.accounts[ns.account := Count(t.accounts, ns.account) + 1],
         retiring := t.retiring - {key},
         mailboxes := t.mailboxes + [Mailbox([event], true)])
    case _ => t
  }

  /** The table after the task `g` of `key` closed its mailbox. */
  function Shut(t: Table, g: Generation): Table
    requires g < |t.mailboxes|
  {
    t.(mailboxes := t.mailboxes[g := Mailbox([], false)])
  }

  /** Whether the entry of `key` is the one of generation `g`. */
  predicate Owns(t: Table, key: ObjectKey, g: Generation) {
    key in t.objects && t.objects[key].generation == g
  }

  /** The table after a `leave` that lets the task end. */
  function Left(t: Table, key: ObjectKey, g: Generation): Table
    requires g < |t.mailboxes|
  {
    Shut(if Owns(t, key, g) then t.(objects := t.objects - {key}) else t, g)
  }

  /** The keys whose entry has that worker and loaded that version. */
  function Outdated(t: Table, worker: string, version: int): set<ObjectKey> {
    set key | key in t.objects && t.objects[key].worker == worker && t.objects[key].version == Some(version)
  }

  /** The table after the entries of `old` moved to `retiring`. */
  function Retired(t: Table, keys: set<ObjectKey>): Table
    requires keys <= t.objects.Keys
  {
    t.(objects := t.objects - keys,
       retiring := map key | key in t.retiring.Keys + keys ::
         if key in keys then t.objects[key].generation else t.retiring[key])
  }

  /** Retiring one object more moves one entry more. */
  lemma RetireOne(t: Table, keys: set<ObjectKey>, key: ObjectKey)
    requires keys <= t.objects.Keys && key in t.objects && key !in keys
    ensures var now := Retired(t, keys);
            key in now.objects && now.objects[key] == t.objects[key] &&
            Retired(t, keys + {key}) ==
            now.(objects := now.objects - {key}, retiring := now.retiring[key := t.objects[key].generation])
  {
    var now := Retired(t, keys);
    assert t.objects - (keys + {key}) == now.objects - {key};
    assert Retired(t, keys + {key}).retiring == now.retiring[key := t.objects[key].generation];
  }

  /** The table after `stop_namespace`. */
  function Stopped(t: Table, namespace: string): Table {
    t.(stopped := t.stopped + {namespace},
       objects := map key | key in t.objects && key.namespace != namespace :: t.objects[key])
  }

  /** The table after the drop of the `Running` of a task, if it is counted. */
  function Dropped(t: Table, key: ObjectKey, account: string, g: Generation): Option<Table> {
    match (Less(t.running, key.namespace), Less(t.accounts, account))
    case (Some(running), Some(accounts)) =>
      Some(t.(running := running, accounts := accounts,
              retiring := if key in t.retiring && t.retiring[key] == g then t.retiring - {key} else t.retiring))
    case _ => None
  }

  class Registry {
    var objects: map<ObjectKey, Entry>
    var running: map<string, nat>
    var accounts: map<string, nat>
    var stopped: set<string>
    var retiring: map<ObjectKey, Generation>
    var mailboxes: seq<Mailbox>

    ghost function View(): Table
      reads this
    {
      Table(objects, running, accounts, stopped, retiring, mailboxes)
    }

    constructor ()
      ensures View() == Table(map[], map[], map[], {}, map[], [])
    {
      objects, running, accounts := map[], map[], map[];
      stopped, retiring, mailboxes := {}, map[], [];
    }

    /** The critical section of an event: it is refused, or appended to an open
        mailbox, or the first one of a new generation. */
    method Admit(ns: Namespace, id: string, event: EventId) returns (answer: Admission)
      modifies this
      ensures answer == Answer(old(View()), ns, ObjectKey(ns.id, id))
      ensures View() == Admitted(old(View()), ns, ObjectKey(ns.id, id), event)
      ensures var key := ObjectKey(ns.id, id);
        var open := key in old(objects) && IsOpen(old(mailboxes), old(objects)[key].generation);
        && (answer.Deleted? <==> ns.id in old(stopped))
        && (answer.Delivered? <==> ns.id !in old(stopped) && open)
        && (answer.TooMany? <==> ns.id !in old(stopped) && !open && Count(old(accounts), ns.account) >= 100)
        && (answer.Deleted? || answer.TooMany? ==> View() == old(View()))
        && (answer.Delivered? ==> answer.to == old(objects)[key].generation && objects == old(objects))
        && (answer.Started? ==> Owns(View(), key, answer.generation) && key !in retiring
                                && Count(accounts, ns.account) == Count(old(accounts), ns.account) + 1)
    {
      var key := ObjectKey(ns.id, id);
      if ns.id in stopped {
        return Deleted;
      }
      if key in objects {
        var g := objects[key].generation;
        if IsOpen(mailboxes, g) {
          mailboxes := mailboxes[g := mailboxes[g].(queue := mailboxes[g].queue + [event])];
          return Delivered(g);
        }
      }
      if Count(accounts, ns.account) >= MAX_RESIDENT_PER_ACCOUNT {
        return TooMany;
      }
      var generation := |mailboxes|;
      var previous := if key in retiring then Some(retiring[key]) else None;
      retiring := retiring - {key};
      mailboxes := mailboxes + [Mailbox([event], true)];
      objects := objects[key := Entry(generation, ns.worker, None)];
      running := running[ns.id := Count(running, ns.id) + 1];
      accounts := accounts[ns.account := Count(accounts, ns.account) + 1];
      answer := Started(generation, previous);
    }

    /** Removes the entry of the task `g`, unless an event came in meanwhile. */
    method Leave(key: ObjectKey, g: Generation) returns (ends: bool)
      requires g < |mailboxes|
      modifies this
      ensures ends == (old(mailboxes)[g].queue == [])
      ensures View() == if ends then Left(old(View()), key, g) else old(View())
      ensures ends ==>
        && !IsOpen(mailboxes, g)
        && (key in objects <==> key in old(objects) && old(objects)[key].generation != g)
        && forall k :: k != key ==> (k in objects <==> k in old(objects))
    {
      if mailboxes[g].queue != [] {
        return false;
      }
      if key in objects && objects[key].generation == g {
        objects := objects - {key};
      }
      mailboxes := mailboxes[g := mailboxes[g].(open := false)];
      ends := true;
    }

    /** The outdated entries move to the retiring map, where `Admit` does not
        look for a mailbox. */
    method Retire(worker: string, version: int) returns (outdated: set<ObjectKey>)
      modifies this
      ensures outdated == Outdated(old(View()), worker, version)
      ensures View() == Retired(old(View()), outdated)
      ensures forall k :: k in outdated <==>
        k in old(objects) && old(objects)[k].worker == worker && old(objects)[k].version == Some(version)
      ensures forall k :: k in objects <==> k in old(objects) && k !in outdated
      ensures forall k :: k in outdated ==> k in retiring && retiring[k] == old(objects)[k].generation
    {
      outdated := set key | key in objects && objects[key].worker == worker && objects[key].version == Some(version);
      var rest := outdated;
      while rest != {}
        invariant rest <= outdated
        invariant View() == Retired(old(View()), outdated - rest)
        decreases rest
      {
        var key :| key in rest;
        RetireOne(old(View()), outdated - rest, key);
        retiring := retiring[key := objects[key].generation];
        objects := objects - {key};
        assert outdated - (rest - {key}) == (outdated - rest) + {key};
        rest := rest - {key};
      }
      assert outdated - rest == outdated;
    }

    /** Refuses the namespace from here on, forgets its entries, and tells
        whether its count is gone. */
    method StopNamespace(namespace: string) returns (none: bool)
      modifies this
      ensures View() == Stopped(old(View()), namespace)
      ensures none == (namespace !in old(running))
      ensures namespace in stopped && forall k :: k in objects <==> k in old(objects) && k.namespace != namespace
    {
      stopped := stopped + {namespace};
      objects := map key | key in objects && key.namespace != namespace :: objects[key];
      none := namespace !in running;
    }

    /** The end of a task, however it ends. A running task is counted. */
    method Drop(key: ObjectKey, account: string, g: Generation)
      requires Count(running, key.namespace) > 0 && Count(accounts, account) > 0
      modifies this
      ensures Some(View()) == Dropped(old(View()), key, account, g)
      ensures Count(running, key.namespace) == Count(old(running), key.namespace) - 1
      ensures Count(accounts, account) == Count(old(accounts), account) - 1
      ensures forall k :: k in retiring <==> k in old(retiring) && !(k == key && old(retiring)[k] == g)
    {
      running := Less(running, key.namespace).value;
      accounts := Less(accounts, account).value;
      if key in retiring && retiring[key] == g {
        retiring := retiring - {key};
      }
    }

    /** The deployment the task `g` loaded, noted in its own entry only. */
    method SetVersion(key: ObjectKey, g: Generation, version: int)
      modifies this
      ensures View() == Versioned(old(View()), key, g, version)
    {
      if key in objects && objects[key].generation == g {
        objects := objects[key := objects[key].(version := Some(version))];
      }
    }
  }

  /** The table after the task `g` loaded `version`. */
  function Versioned(t: Table, key: ObjectKey, g: Generation, version: int): Table {
    if Owns(t, key, g) then t.(objects := t.objects[key := t.objects[key].(version := Some(version))]) else t
  }
}
