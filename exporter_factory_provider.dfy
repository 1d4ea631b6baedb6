/** Resolution of the application's exporter factory: a cache-or-compute
    step over the application-scoped key/value store. On a miss the first
    externally registered factory is taken, else the built-in default, and
    the choice is stored under a fixed key. */
module ExporterFactoryProvider {
  import D = DefaultExporterFactory

  /** The well-known key: the provider's fully qualified class name. */
  const KEY: string := "org.primefaces.extensions.component.exporter.ExporterFactoryProvider"

  /** An exporter factory: the built-in default, or an implementation
      registered with the service loader, known by its class name. */
  datatype Factory = DefaultFactory | Registered(implementation: string)

  /** Asking a factory for an exporter: the built-in default dispatches
      through its type lookup; a registered implementation's dispatch is
      its own and is not modelled, so it reads as None. */
  function ExporterFor(f: Factory, tag: string): (r: D.Option<D.ExportResult>)
    ensures f == DefaultFactory <==> r.Some?
    ensures r.Some? ==> r.value == D.GetExporterForType(tag)
  {
    match f
    case DefaultFactory => D.Some(D.GetExporterForType(tag))
    case Registered(_) => D.None
  }

  /** `get` on the store: absent keys read as None (Java's null). */
  function Lookup(store: map<string, Factory>, key: string): (r: D.Option<Factory>)
    ensures r.Some? <==> key in store
    ensures r.Some? ==> r.value == store[key]
  {
    if key in store then D.Some(store[key]) else D.None
  }

  /** What discovery yields: the first registered implementation, if any,
      else a new default factory. */
  function Discover(registered: seq<Factory>): (f: Factory)
    ensures registered != [] ==> f == registered[0]
    ensures registered == [] ==> f == DefaultFactory
  {
    if |registered| > 0 then registered[0] else DefaultFactory
  }

  /** The outcome of one resolution: the factory returned and the store
      afterwards. */
  datatype Resolution = Resolution(factory: Factory, store: map<string, Factory>)

  /** Resolution as a function of the store before the call and of what
      the service loader would yield. */
  function Resolve(store: map<string, Factory>, registered: seq<Factory>): (r: Resolution)
    ensures KEY in r.store && r.store[KEY] == r.factory
    ensures r.store.Keys == store.Keys + {KEY}
    ensures forall k :: k in store && k != KEY ==> r.store[k] == store[k]
    ensures KEY !in store ==> r.factory == DefaultFactory || r.factory in registered
  {
    match Lookup(store, KEY)
    case Some(f) => Resolution(f, store)
    case None =>
      var f := Discover(registered);
      Resolution(f, store[KEY := f])
  }

  /** A cache hit returns the stored factory and leaves the store as it
      was, whatever discovery would have found. */
  lemma CacheHit(store: map<string, Factory>, registered: seq<Factory>)
    requires KEY in store
    ensures Resolve(store, registered) == Resolution(store[KEY], store)
  {
  }

  /** On a miss the first registrant wins and later registrants are
      ignored. */
  lemma FirstRegistrantWins(store: map<string, Factory>, first: Factory, later: seq<Factory>)
    requires KEY !in store
    ensures Resolve(store, [first] + later).factory == first
    ensures Resolve(store, [first] + later) == Resolve(store, [first])
  {
  }

  /** On a miss with nothing registered the default factory is chosen. */
  lemma NoRegistrantGivesDefault(store: map<string, Factory>)
    requires KEY !in store
    ensures Resolve(store, []) == Resolution(DefaultFactory, store[KEY := DefaultFactory])
  {
  }

  /** Resolving twice yields the same factory and the second resolution
      changes nothing, even if discovery would now find something else. */
  lemma ResolveTwice(store: map<string, Factory>, registered: seq<Factory>, registeredLater: seq<Factory>)
    ensures var first := Resolve(store, registered);
            Resolve(first.store, registeredLater) == first
  {
  }

  /** A fresh application: after the first resolution the store holds
      exactly one entry, and with nothing registered that entry's factory
      makes a spreadsheet exporter for "xlsx". */
  lemma FreshApplication(registered: seq<Factory>)
    ensures var r := Resolve(map[], registered);
            r.store == map[KEY := r.factory] &&
            (registered == [] ==>
               r.factory == DefaultFactory &&
               ExporterFor(r.factory, "xlsx") == D.Some(D.Exported(D.ExcelExporter)))
  {
    D.Samples();
  }

  /** The application-scoped store. `writes` records, in order, every key
      that was put. */
  class ApplicationMap {
    var entries: map<string, Factory>
    ghost var writes: seq<string>

    constructor (initial: map<string, Factory>)
      ensures entries == initial && writes == []
    {
      entries := initial;
      writes := [];
    }

    method Get(key: string) returns (r: D.Option<Factory>)
      ensures r == Lookup(entries, key)
    {
      if key in entries {
        r := D.Some(entries[key]);
      } else {
        r := D.None;
      }
    }

    method Put(key: string, value: Factory)
      modifies this
      ensures entries == old(entries)[key := value]
      ensures writes == old(writes) + [key]
    {
      entries := entries[key := value];
      writes := writes + [key];
    }
  }

  /** Return the application's exporter factory, resolving and storing it
      on first use. The store is written only on a miss, and then once. */
  method GetExporterFactory(context: ApplicationMap, registered: seq<Factory>) returns (factory: Factory)
    modifies context
    ensures factory == Resolve(old(context.entries), registered).factory
    ensures context.entries == Resolve(old(context.entries), registered).store
    ensures context.writes == old(context.writes) + (if KEY in old(context.entries) then [] else [KEY])
  {
    var found := context.Get(KEY);
    if found.None? {
      if |registered| > 0 {
        found := D.Some(registered[0]);
      }
      if found.None? {
        found := D.Some(DefaultFactory);
      }
      context.Put(KEY, found.value);
    }
    factory := found.value;
  }

  /** Two calls in sequence return the same factory; between them the
      store is written at most once, and the second call writes nothing. */
  method GetExporterFactoryTwice(context: ApplicationMap, registered: seq<Factory>, registeredLater: seq<Factory>)
    returns (first: Factory, second: Factory)
    modifies context
    ensures first == second == Resolve(old(context.entries), registered).factory
    ensures context.entries == Resolve(old(context.entries), registered).store
    ensures |context.writes| <= |old(context.writes)| + 1
  {
    first := GetExporterFactory(context, registered);
    ghost var between := context.writes;
    second := GetExporterFactory(context, registeredLater);
    assert context.writes == between;
  }
}
