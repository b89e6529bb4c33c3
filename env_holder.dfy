/**
 * EnvHolder: the cache of SdkEnvironments keyed by SdkConfig. It keeps a
 * soft (reclaimable) reference and a strong reference per key. A request
 * returns the environment of a live soft reference; otherwise it calls the
 * caller's factory once, stores the new environment under both references and
 * returns it, printing a diagnostic when the soft reference had existed but had
 * been cleared.
 *
 * A soft reference is modelled as Option<SdkEnvironment>, None once cleared;
 * the memory manager clearing it is the explicit Reclaim method; the
 * diagnostic is a ghost flag. The pure functions on Store describe one step of
 * the cache, and the class's methods are proved to perform exactly that step.
 */
module Environments {
  import opened Wrappers

  /** Identifies one SDK configuration; only its equality matters to the cache. */
  type SdkConfig(==, !new)

  /** Key and value types of appManifestsByFile, which the cache never touches. */
  type File(==)
  type AndroidManifest

  /** An environment, compared by identity, as Java compares the object the cache hands out. */
  class SdkEnvironment {
    constructor () {}
  }

  /** A caller-supplied SdkEnvironment.Factory; `made` lists, in order, the environments its create() calls returned. */
  class Factory {
    ghost var made: seq<SdkEnvironment>

    constructor ()
      ensures made == []
    {
      made := [];
    }

    method Create() returns (env: SdkEnvironment)
      modifies this
      ensures fresh(env)
      ensures made == old(made) + [env]
    {
      env := new SdkEnvironment();
      made := made + [env];
    }
  }

  /** The two maps of the cache: soft references (None once cleared) and strong references. */
  datatype Store = Store(soft: map<SdkConfig, Option<SdkEnvironment>>, strong: map<SdkConfig, SdkEnvironment>)

  const EmptyStore := Store(map[], map[])

  /** The environment a live soft reference holds for `key`, if any. */
  function Live(s: Store, key: SdkConfig): Option<SdkEnvironment> {
    if key in s.soft then s.soft[key] else None
  }

  /**
   * Both maps are always written together, so every key with a soft reference
   * has a strong one, and a live soft reference holds the same environment as
   * the strong one.
   */
  predicate Consistent(s: Store) {
    && s.soft.Keys <= s.strong.Keys
    && forall k :: k in s.soft && s.soft[k].Some? ==> s.strong[k] == s.soft[k].value
  }

  /** `s` and `t` agree on both maps at `k`. */
  predicate SameEntry(s: Store, t: Store, k: SdkConfig) {
    && (k in s.soft <==> k in t.soft)
    && (k in s.soft ==> s.soft[k] == t.soft[k])
    && (k in s.strong <==> k in t.strong)
    && (k in s.strong ==> s.strong[k] == t.strong[k])
  }

  /** What one call of getSdkEnvironment returns, the maps after it, and what it did. */
  datatype Outcome = Outcome(env: SdkEnvironment, store: Store, created: bool, reportedReclaim: bool)

  /**
   * One call of getSdkEnvironment on store `s`; `made` is the environment the
   * factory produces if it is called.
   */
  function Get(s: Store, key: SdkConfig, made: SdkEnvironment): (o: Outcome)
    ensures o.created <==> Live(s, key).None?
    ensures !o.created ==> o.env == Live(s, key).value && o.store == s
    ensures o.created ==> o.env == made
    ensures Live(o.store, key) == Some(o.env)
    ensures Consistent(s) ==> key in o.store.strong && o.store.strong[key] == o.env
    ensures forall k :: k != key ==> SameEntry(s, o.store, k)
    ensures o.reportedReclaim <==> key in s.soft && s.soft[key].None?
    ensures Consistent(s) ==> Consistent(o.store)
  {
    match Live(s, key)
    case Some(e) => Outcome(e, s, false, false)
    case None =>
      Outcome(made, Store(s.soft[key := Some(made)], s.strong[key := made]), true, key in s.soft)
  }

  /** The memory manager clearing the soft reference for `key`; the strong map is untouched. */
  function Reclaimed(s: Store, key: SdkConfig): (t: Store)
    ensures Live(t, key).None?
    ensures t.strong == s.strong
    ensures key in s.soft <==> key in t.soft
    ensures forall k :: k != key ==> SameEntry(s, t, k)
    ensures Consistent(s) ==> Consistent(t)
  {
    if key in s.soft then Store(s.soft[key := None], s.strong) else s
  }

  /**
   * The strong map keeps every live environment reachable, so under Java's
   * rules a soft reference of a consistent cache is never eligible for
   * clearing: Reclaim stands for a memory manager that ignores this.
   */
  lemma StrongMapPinsLiveEnvironments(s: Store, key: SdkConfig)
    requires Consistent(s)
    requires Live(s, key).Some?
    ensures Live(s, key).value in s.strong.Values
  {
    assert s.strong[key] == Live(s, key).value;
  }

  /** Two calls in a row with the same key: the second returns the first one's environment and changes nothing. */
  lemma SecondGetReusesFirst(s: Store, key: SdkConfig, made1: SdkEnvironment, made2: SdkEnvironment)
    ensures var o1 := Get(s, key, made1);
            var o2 := Get(o1.store, key, made2);
            o2.env == o1.env && !o2.created && !o2.reportedReclaim && o2.store == o1.store
  {
  }

  /** Reclaiming between two calls makes the second call build anew and report it. */
  lemma GetAfterReclaimRebuilds(s: Store, key: SdkConfig, made1: SdkEnvironment, made2: SdkEnvironment)
    ensures var o1 := Get(s, key, made1);
            var o2 := Get(Reclaimed(o1.store, key), key, made2);
            o2.created && o2.reportedReclaim && o2.env == made2
  {
  }

  /** A sequence of events the cache sees: requests, and the memory manager clearing a soft reference. */
  datatype Event = Request(key: SdkConfig, made: SdkEnvironment) | Collect(key: SdkConfig)

  function Step(s: Store, e: Event): Store {
    match e
    case Request(key, made) => Get(s, key, made).store
    case Collect(key) => Reclaimed(s, key)
  }

  function Run(s: Store, events: seq<Event>): Store
    decreases |events|
  {
    if events == [] then s else Run(Step(s, events[0]), events[1..])
  }

  /** The number of factory calls the requests for `key` in `events` make, starting from `s`. */
  function Creations(s: Store, events: seq<Event>, key: SdkConfig): nat
    decreases |events|
  {
    if events == [] then 0
    else
      var e := events[0];
      var here := if e.Request? && e.key == key && Get(s, key, e.made).created then 1 else 0;
      here + Creations(Step(s, e), events[1..], key)
  }

  /** The number of times `events` clears the soft reference for `key`. */
  function Collections(events: seq<Event>, key: SdkConfig): nat
    decreases |events|
  {
    if events == [] then 0
    else (if events[0] == Collect(key) then 1 else 0) + Collections(events[1..], key)
  }

  predicate NoCollectionOf(events: seq<Event>, key: SdkConfig) {
    forall i :: 0 <= i < |events| ==> events[i] != Collect(key)
  }

  /** Every sequence of events keeps the cache consistent. */
  lemma {:induction false} RunKeepsConsistent(s: Store, events: seq<Event>)
    requires Consistent(s)
    ensures Consistent(Run(s, events))
    decreases |events|
  {
    if events != [] {
      RunKeepsConsistent(Step(s, events[0]), events[1..]);
    }
  }

  /**
   * At most one construction per reclaim-then-rebuild cycle: along any
   * sequence of events, the factory is called for `key` at most once more than
   * the soft reference for `key` is cleared, and not that once if the
   * reference is live to begin with.
   */
  lemma {:induction false} CreationsBoundedByCollections(s: Store, events: seq<Event>, key: SdkConfig)
    ensures Creations(s, events, key) <= Collections(events, key) + (if Live(s, key).Some? then 0 else 1)
    decreases |events|
  {
    if events != [] {
      CreationsBoundedByCollections(Step(s, events[0]), events[1..], key);
    }
  }

  /**
   * While the soft reference for `key` is not cleared, it keeps the same
   * environment through any other events, and requests for `key` never call
   * the factory.
   */
  lemma {:induction false} LiveEntryStaysWithoutCollection(s: Store, events: seq<Event>, key: SdkConfig)
    requires Live(s, key).Some?
    requires NoCollectionOf(events, key)
    ensures Live(Run(s, events), key) == Live(s, key)
    ensures Creations(s, events, key) == 0
    decreases |events|
  {
    if events != [] {
      assert events[0] != Collect(key);
      assert NoCollectionOf(events[1..], key) by {
        forall i | 0 <= i < |events[1..]| ensures events[1..][i] != Collect(key) {
          assert events[1..][i] == events[i + 1];
        }
      }
      LiveEntryStaysWithoutCollection(Step(s, events[0]), events[1..], key);
    }
  }

  class EnvHolder {
    var appManifestsByFile: map<File, AndroidManifest>
    var sdkToEnvironmentSoft: map<SdkConfig, Option<SdkEnvironment>>
    var sdkToEnvironment: map<SdkConfig, SdkEnvironment>
    /** Whether the most recent getSdkEnvironment call printed the "GC'ed SdkEnvironment reused" diagnostic. */
    ghost var reportedReclaim: bool

    function Snapshot(): Store
      reads this
    {
      Store(sdkToEnvironmentSoft, sdkToEnvironment)
    }

    ghost predicate Valid()
      reads this
    {
      Consistent(Snapshot())
    }

    constructor ()
      ensures Valid()
      ensures Snapshot() == EmptyStore && appManifestsByFile == map[] && !reportedReclaim
    {
      appManifestsByFile := map[];
      sdkToEnvironmentSoft := map[];
      sdkToEnvironment := map[];
      reportedReclaim := false;
    }

    /**
     * getSdkEnvironment: the new maps, the result and the diagnostic are those
     * of one Get step on the old maps, where the environment Get is given is
     * the one the single factory call returned; on a hit the factory is not
     * called. appManifestsByFile is outside the frame.
     */
    method GetSdkEnvironment(sdkConfig: SdkConfig, factory: Factory) returns (sdkEnvironment: SdkEnvironment)
      modifies this`sdkToEnvironmentSoft, this`sdkToEnvironment, this`reportedReclaim, factory
      ensures var o := Get(old(Snapshot()), sdkConfig, sdkEnvironment);
              && Snapshot() == o.store
              && sdkEnvironment == o.env
              && reportedReclaim == o.reportedReclaim
      ensures old(Live(Snapshot(), sdkConfig)).None? ==> factory.made == old(factory.made) + [sdkEnvironment]
      ensures old(Live(Snapshot(), sdkConfig)).Some? ==> factory.made == old(factory.made)
      ensures old(Live(Snapshot(), sdkConfig)).None? ==> fresh(sdkEnvironment)
      ensures old(Valid()) ==> Valid()
    {
      reportedReclaim := false;
      var reference := if sdkConfig in sdkToEnvironmentSoft then Some(sdkToEnvironmentSoft[sdkConfig]) else None;
      var cached := if reference == None then None else reference.value;
      if cached == None {
        if reference != None {
          reportedReclaim := true;
        }
        sdkEnvironment := factory.Create();
        sdkToEnvironmentSoft := sdkToEnvironmentSoft[sdkConfig := Some(sdkEnvironment)];
        sdkToEnvironment := sdkToEnvironment[sdkConfig := sdkEnvironment];
      } else {
        sdkEnvironment := cached.value;
      }
    }

    /** The memory manager clearing the soft reference for `sdkConfig`. */
    method Reclaim(sdkConfig: SdkConfig)
      modifies this`sdkToEnvironmentSoft
      ensures Snapshot() == Reclaimed(old(Snapshot()), sdkConfig)
      ensures old(Valid()) ==> Valid()
    {
      if sdkConfig in sdkToEnvironmentSoft {
        sdkToEnvironmentSoft := sdkToEnvironmentSoft[sdkConfig := None];
      }
    }
  }

  /**
   * A client: two requests without a reclaim in between share one environment,
   * which is either the one already cached or the one the single factory call made.
   */
  method RequestTwice(holder: EnvHolder, sdkConfig: SdkConfig, factory: Factory)
    returns (first: SdkEnvironment, second: SdkEnvironment)
    modifies holder, factory
    ensures first == second
    ensures |factory.made| <= |old(factory.made)| + 1
    ensures old(Live(holder.Snapshot(), sdkConfig)).None? ==> factory.made == old(factory.made) + [first]
    ensures old(Live(holder.Snapshot(), sdkConfig)).Some? ==>
              factory.made == old(factory.made) && first == old(Live(holder.Snapshot(), sdkConfig)).value
  {
    first := holder.GetSdkEnvironment(sdkConfig, factory);
    second := holder.GetSdkEnvironment(sdkConfig, factory);
  }
}
