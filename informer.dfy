/**
  The shared informer registry of factory.go: at most one informer per object type,
  created lazily, started at most once, and a cache-sync barrier over the started
  ones. Object types are an enumeration in place of reflect.Type; an informer is an
  opaque handle; durations are integers.
 */
module Informer {

  import opened Wrappers
  import TowerClient

  /** The object types the registry serves (the reflect.Type of *schema.VM and *schema.Label). */
  datatype ObjectType = VMType | LabelType

  /** A tower object: every kind has an identifier; the rest of it is opaque here. */
  datatype TowerObject = VMObject(id: string, body: seq<int>) | LabelObject(id: string, body: seq<int>)

  /**
    An `interface{}` handed to the key function: a tower object, or something else,
    described by how Go prints it with `%s` and with `%v` (the two differ for values
    that are not strings, such as `%!s(int=42)` and `42`).
   */
  datatype Item = Tower(obj: TowerObject) | Foreign(asS: string, asV: string)

  /** towerObjectKey: the object's ID for a tower object, an error for anything else. */
  function TowerObjectKey(item: Item): (r: Result<string, string>)
    ensures r.Success? <==> item.Tower?
    ensures item.Tower? ==> r.value == item.obj.id
    ensures item.Foreign? ==> r.error == "unsupport resource type " + item.asS + ", object: " + item.asV
  {
    match item
    case Tower(obj) => Success(obj.id)
    case Foreign(asS, asV) => Failure("unsupport resource type " + asS + ", object: " + asV)
  }

  /** An informer handle: the type it watches, its resync period and the client its reflector uses. */
  class SharedIndexInformer {
    const objectType: ObjectType
    const resyncPeriod: int
    const client: TowerClient.Client

    constructor (objectType: ObjectType, resyncPeriod: int, client: TowerClient.Client)
      ensures this.objectType == objectType && this.resyncPeriod == resyncPeriod && this.client == client
    {
      this.objectType, this.resyncPeriod, this.client := objectType, resyncPeriod, client;
    }
  }

  /** The resync period of a new informer: the type's own, if it has one, else the default. */
  function ResyncFor(t: ObjectType, customResync: map<ObjectType, int>, defaultResync: int): (p: int)
    ensures t in customResync ==> p == customResync[t]
    ensures t !in customResync ==> p == defaultResync
  {
    if t in customResync then customResync[t] else defaultResync
  }

  /** Reading the started map as Go does: a missing key reads as false. */
  predicate IsStarted(started: map<ObjectType, bool>, t: ObjectType) {
    t in started && started[t]
  }

  /** The types a Start call launches: registered and not yet started. */
  function Launched(started: map<ObjectType, bool>, registered: set<ObjectType>): (l: set<ObjectType>)
    ensures forall t :: t in l <==> t in registered && !IsStarted(started, t)
  {
    set t | t in registered && !IsStarted(started, t)
  }

  /** The started map after Start: every registered type marked started, nothing else touched. */
  function MarkStarted(started: map<ObjectType, bool>, registered: set<ObjectType>): (r: map<ObjectType, bool>)
    ensures forall t :: IsStarted(r, t) <==> IsStarted(started, t) || t in registered
    ensures r.Keys == started.Keys + Launched(started, registered)
    ensures forall t :: t in started ==> (t in registered ==> r[t]) && (t !in registered ==> r[t] == started[t])
  {
    started + map t | t in Launched(started, registered) :: true
  }

  /** Start is idempotent: after one call, a second over the same registrations launches nothing and changes nothing. */
  lemma StartIdempotent(started: map<ObjectType, bool>, registered: set<ObjectType>)
    ensures Launched(MarkStarted(started, registered), registered) == {}
    ensures MarkStarted(MarkStarted(started, registered), registered) == MarkStarted(started, registered)
  {
    var once := MarkStarted(started, registered);
    assert Launched(once, registered) == {};
  }

  /** Start keeps "started implies registered" when the registrations stay as they are. */
  lemma StartKeepsStartedRegistered(started: map<ObjectType, bool>, registered: set<ObjectType>)
    requires started.Keys <= registered
    ensures MarkStarted(started, registered).Keys <= registered
    ensures forall t :: IsStarted(MarkStarted(started, registered), t) <==> t in registered
  {
  }

  /** Start's loop, one type at a time: handling type `t` launches it iff it was not started yet. */
  lemma StartOneMore(started: map<ObjectType, bool>, handled: set<ObjectType>, t: ObjectType)
    requires t !in handled
    ensures Launched(started, handled + {t})
            == if IsStarted(started, t) then Launched(started, handled) else Launched(started, handled) + {t}
    ensures MarkStarted(started, handled + {t})
            == if IsStarted(MarkStarted(started, handled), t) then MarkStarted(started, handled)
               else MarkStarted(started, handled)[t := true]
  {
    var before, after := MarkStarted(started, handled), MarkStarted(started, handled + {t});
    if IsStarted(before, t) {
      assert after.Keys == before.Keys;
    } else {
      assert after.Keys == before[t := true].Keys;
    }
  }

  class SharedInformerFactory {
    const client: TowerClient.Client
    const defaultResync: int
    var customResync: map<ObjectType, int>
    var informers: map<ObjectType, SharedIndexInformer>
    var startedInformers: map<ObjectType, bool>

    /** Every informer is filed under its own type, and only registered types are ever marked started. */
    ghost predicate Valid()
      reads this
    {
      && (forall t :: t in informers ==> informers[t].objectType == t)
      && startedInformers.Keys <= informers.Keys
    }

    /** The registered types that have been started. */
    function StartedTypes(): (s: set<ObjectType>)
      reads this
    {
      set t | t in informers && IsStarted(startedInformers, t)
    }

    /** NewSharedInformerFactory. */
    constructor (client: TowerClient.Client, defaultResync: int)
      ensures Valid()
      ensures this.client == client && this.defaultResync == defaultResync
      ensures customResync == map[] && informers == map[] && startedInformers == map[]
    {
      this.client, this.defaultResync := client, defaultResync;
      customResync, informers, startedInformers := map[], map[], map[];
    }

    /**
      informerFor: the informer of type `t`, created and registered on first use.
      A type already registered gets its existing handle and nothing changes.
     */
    method InformerFor(t: ObjectType) returns (h: SharedIndexInformer)
      requires Valid()
      modifies this
      ensures Valid()
      ensures t in informers && informers[t] == h && h.objectType == t
      ensures t in old(informers) ==> h == old(informers[t]) && informers == old(informers)
      ensures t !in old(informers) ==>
                && fresh(h) && informers == old(informers)[t := h] && h.client == client
                && h.resyncPeriod == ResyncFor(t, customResync, defaultResync)
      ensures startedInformers == old(startedInformers) && customResync == old(customResync)
    {
      if t in informers {
        return informers[t];
      }
      var resyncPeriod := defaultResync;
      if t in customResync {
        resyncPeriod := customResync[t];
      }
      h := new SharedIndexInformer(t, resyncPeriod, client);
      informers := informers[t := h];
    }

    /** VM: the informer of VM objects. */
    method VM() returns (h: SharedIndexInformer)
      requires Valid()
      modifies this
      ensures Valid() && VMType in informers && informers[VMType] == h && h.objectType == VMType
      ensures VMType in old(informers) ==> h == old(informers[VMType]) && informers == old(informers)
      ensures VMType !in old(informers) ==> fresh(h) && informers == old(informers)[VMType := h]
      ensures startedInformers == old(startedInformers) && customResync == old(customResync)
    {
      h := InformerFor(VMType);
    }

    /** Label: the informer of Label objects. */
    method Label() returns (h: SharedIndexInformer)
      requires Valid()
      modifies this
      ensures Valid() && LabelType in informers && informers[LabelType] == h && h.objectType == LabelType
      ensures LabelType in old(informers) ==> h == old(informers[LabelType]) && informers == old(informers)
      ensures LabelType !in old(informers) ==> fresh(h) && informers == old(informers)[LabelType := h]
      ensures startedInformers == old(startedInformers) && customResync == old(customResync)
    {
      h := InformerFor(LabelType);
    }

    /**
      Start: mark every registered, not yet started type as started. Returns the
      types whose informers this call launches (Run is not modelled).
     */
    method Start() returns (launched: set<ObjectType>)
      requires Valid()
      modifies this
      ensures Valid()
      ensures informers == old(informers) && customResync == old(customResync)
      ensures launched == Launched(old(startedInformers), informers.Keys)
      ensures startedInformers == MarkStarted(old(startedInformers), informers.Keys)
      ensures StartedTypes() == informers.Keys
    {
      launched := {};
      var pending := informers.Keys;
      while pending != {}
        invariant pending <= informers.Keys
        invariant informers == old(informers) && customResync == old(customResync)
        invariant launched == Launched(old(startedInformers), informers.Keys - pending)
        invariant startedInformers == MarkStarted(old(startedInformers), informers.Keys - pending)
        decreases pending
      {
        var t :| t in pending;
        assert informers.Keys - (pending - {t}) == (informers.Keys - pending) + {t};
        StartOneMore(old(startedInformers), informers.Keys - pending, t);
        if !IsStarted(startedInformers, t) {
          launched := launched + {t};
          startedInformers := startedInformers[t := true];
        }
        pending := pending - {t};
      }
    }

    /**
      WaitForCacheSync: for every started type, whether its informer's cache synced
      before the stop signal (`syncedBeforeStop`, the outcome of client-go's wait).
      A registered type that was never started has no entry.
     */
    method WaitForCacheSync(syncedBeforeStop: SharedIndexInformer -> bool) returns (res: map<ObjectType, bool>)
      requires Valid()
      ensures res.Keys == StartedTypes()
      ensures forall t :: t in res ==> res[t] == syncedBeforeStop(informers[t])
    {
      var started: map<ObjectType, SharedIndexInformer> := map[];
      var todo := informers.Keys;
      while todo != {}
        invariant todo <= informers.Keys
        invariant started.Keys == set t | t in informers.Keys - todo && IsStarted(startedInformers, t)
        invariant forall t :: t in started ==> started[t] == informers[t]
        decreases todo
      {
        var t :| t in todo;
        if IsStarted(startedInformers, t) {
          started := started[t := informers[t]];
        }
        todo := todo - {t};
      }
      res := map[];
      var waiting := started.Keys;
      while waiting != {}
        invariant waiting <= started.Keys
        invariant res.Keys == started.Keys - waiting
        invariant forall t :: t in res ==> res[t] == syncedBeforeStop(started[t])
        decreases waiting
      {
        var t :| t in waiting;
        res := res[t := syncedBeforeStop(started[t])];
        waiting := waiting - {t};
      }
    }
  }

  /** Asking twice for the same type hands out the same informer; Start then launches it once. */
  method SharedOnce(f: SharedInformerFactory)
    returns (first: SharedIndexInformer, second: SharedIndexInformer, launchedFirst: set<ObjectType>, launchedSecond: set<ObjectType>)
    requires f.Valid() && f.startedInformers == map[]
    modifies f
    ensures first == second && VMType in f.informers && f.informers[VMType] == first
    ensures VMType in launchedFirst && launchedSecond == {}
  {
    first := f.VM();
    second := f.VM();
    launchedFirst := f.Start();
    launchedSecond := f.Start();
    StartIdempotent(old(f.startedInformers), f.informers.Keys);
  }
}
