/**
 * The document decorator chain: the delegating base (AbstractDecorator), the
 * timing layer (TimedDocument) and the caching layer (CachedDocument).
 *
 * A chain is a value: each decorator holds exactly one inner document, set
 * when it is built and never reassigned.  The innermost document is opaque
 * and is modelled by the outcome its `parse` produces.  The caching layers
 * hold the shared store they obtained from `getInstance`.
 *
 * Each `parse` is given twice: as a pure function `Run` over a `World` (the
 * specification), and as methods that change the store and the host the way
 * the Java code does, each proved to agree with `Run`.
 */
module Decorators {
  import opened Wrappers
  import opened DatabaseCache

  /** What a `parse` call ends with: text, or an `ExtractionError` thrown from the innermost document. */
  datatype Outcome = Text(text: string) | Failure(error: string)

  /** The console lines the decorators print, as abstract events. */
  datatype Event =
    | Hit(key: string)        // "Cache hit for key: ..."
    | Miss(key: string)       // "Cache miss for key: ... - parsing document"
    | Duration(millis: int)   // "Document parsing took ... ms"

  /** A document wrapped in any number of decorators. */
  datatype Chain =
    | Base(outcome: Outcome)                         // the innermost, opaque document
    | Plain(inner: Chain)                            // an AbstractDecorator with no override
    | Timed(inner: Chain)                            // TimedDocument
    | Cached(inner: Chain, key: string, cache: Store) // CachedDocument

  /** Successive readings of `System.currentTimeMillis()`: reading number `n` is `clock(n)`. */
  type Clock = nat -> int

  /**
   * Everything a `parse` can observe or change: the cache table, the printed
   * events, how many clock readings were taken, and how many times the
   * innermost document was invoked.
   */
  datatype World = World(rows: Table, out: seq<Event>, tick: nat, documentCalls: nat)

  /** The result of a `parse` together with the world it leaves. */
  datatype Step = Step(outcome: Outcome, world: World)

  /** Whether every caching layer of `c` holds the store `s`. */
  predicate SharesStore(c: Chain, s: Store)
  {
    match c
    case Base(_) => true
    case Plain(inner) => SharesStore(inner, s)
    case Timed(inner) => SharesStore(inner, s)
    case Cached(inner, _, cache) => cache == s && SharesStore(inner, s)
  }

  /**
   * `parse` on a chain.  Events are only ever appended, clock readings only
   * advance and the document-call counter only grows.
   */
  function Run(c: Chain, clock: Clock, w: World): (s: Step)
    decreases c, 0
    ensures w.out <= s.world.out
    ensures w.tick <= s.world.tick
    ensures w.documentCalls <= s.world.documentCalls
  {
    match c
    case Base(o) => Step(o, w.(documentCalls := w.documentCalls + 1))
    case Plain(inner) => Run(inner, clock, w)
    case Timed(inner) => RunTimed(inner, clock, w)
    case Cached(inner, key, _) => RunCached(inner, key, clock, w)
  }

  /**
   * TimedDocument.parse: read the clock, delegate, and on either outcome read
   * the clock again and report the difference, after every event of the
   * inner chain.
   */
  function RunTimed(inner: Chain, clock: Clock, w: World): (s: Step)
    decreases inner, 1
    ensures w.out <= s.world.out
    ensures w.tick < s.world.tick
    ensures w.documentCalls <= s.world.documentCalls
    ensures |s.world.out| > |w.out| && s.world.out[|s.world.out| - 1].Duration?
  {
    var startTime := clock(w.tick);
    var s1 := Run(inner, clock, w.(tick := w.tick + 1));
    var endTime := clock(s1.world.tick);
    Step(s1.outcome, s1.world.(out := s1.world.out + [Duration(endTime - startTime)],
                               tick := s1.world.tick + 1))
  }

  /**
   * CachedDocument.parse: a hit returns the stored value and leaves the inner
   * chain alone; a miss delegates and, when the inner chain returns text,
   * stores it under `key` stamped with a fresh clock reading.  A failure
   * leaves `put` unreached.
   */
  function RunCached(inner: Chain, key: string, clock: Clock, w: World): (s: Step)
    decreases inner, 1
    ensures w.out <= s.world.out
    ensures w.tick <= s.world.tick
    ensures w.documentCalls <= s.world.documentCalls
    ensures |s.world.out| > |w.out|
    ensures s.world.out[|w.out|] == if key in w.rows then Hit(key) else Miss(key)
  {
    match Lookup(w.rows, key)
    case Some(v) => Step(Text(v), w.(out := w.out + [Hit(key)]))
    case None =>
      var s1 := Run(inner, clock, w.(out := w.out + [Miss(key)]));
      match s1.outcome
      case Failure(_) => s1
      case Text(t) =>
        Step(s1.outcome, s1.world.(rows := Upsert(s1.world.rows, key, t, clock(s1.world.tick)),
                                   tick := s1.world.tick + 1))
  }

  /**
   * The environment the chain runs in: `System.out` (the events printed so
   * far), `System.currentTimeMillis()` (the clock and how many readings were
   * taken) and a counter of invocations of the innermost document.
   */
  class Host {
    const clock: Clock
    var tick: nat
    var out: seq<Event>
    var documentCalls: nat

    constructor (clock: Clock)
      ensures this.clock == clock && tick == 0 && out == [] && documentCalls == 0
    {
      this.clock := clock;
      tick, out, documentCalls := 0, [], 0;
    }

    /** `System.currentTimeMillis()`: the next clock reading. */
    method CurrentTimeMillis() returns (t: int)
      modifies this
      ensures t == clock(old(tick)) && tick == old(tick) + 1
      ensures out == old(out) && documentCalls == old(documentCalls)
    {
      t := clock(tick);
      tick := tick + 1;
    }

    /** `System.out.println`: append one event. */
    method Println(e: Event)
      modifies this
      ensures out == old(out) + [e]
      ensures tick == old(tick) && documentCalls == old(documentCalls)
    {
      out := out + [e];
    }
  }

  /** The part of the heap a `parse` reads and writes, as a `World`. */
  function Snapshot(store: Store, host: Host): (w: World)
    reads store, host
  {
    World(store.rows, host.out, host.tick, host.documentCalls)
  }

  /** Document.parse, dispatched on the kind of the outermost layer. */
  method Parse(c: Chain, store: Store, host: Host) returns (r: Outcome)
    requires SharesStore(c, store)
    modifies store, host
    decreases c, 0
    ensures Step(r, Snapshot(store, host)) == Run(c, host.clock, old(Snapshot(store, host)))
  {
    match c
    case Base(o) =>
      r := InvokeDocument(o, host);
    case Plain(inner) =>
      r := Delegate(inner, store, host);
    case Timed(inner) =>
      r := ParseTimed(inner, store, host);
    case Cached(inner, key, cache) =>
      r := ParseCached(inner, key, cache, host);
  }

  /** The innermost document's `parse`: it is invoked once and yields its outcome. */
  method InvokeDocument(o: Outcome, host: Host) returns (r: Outcome)
    modifies host
    ensures r == o
    ensures host.documentCalls == old(host.documentCalls) + 1
    ensures host.out == old(host.out) && host.tick == old(host.tick)
  {
    host.documentCalls := host.documentCalls + 1;
    r := o;
  }

  /**
   * AbstractDecorator.parse: `return document.parse()`.  The inner chain is
   * run once and its outcome, text or failure, is returned untouched.
   */
  method Delegate(inner: Chain, store: Store, host: Host) returns (r: Outcome)
    requires SharesStore(inner, store)
    modifies store, host
    decreases inner, 1
    ensures Step(r, Snapshot(store, host)) == Run(Plain(inner), host.clock, old(Snapshot(store, host)))
  {
    r := Parse(inner, store, host);
  }

  /**
   * TimedDocument.parse.  Java's `try { ... } finally { report }` becomes a
   * report that follows the delegation whatever its outcome.
   */
  method ParseTimed(inner: Chain, store: Store, host: Host) returns (r: Outcome)
    requires SharesStore(inner, store)
    modifies store, host
    decreases inner, 2
    ensures Step(r, Snapshot(store, host)) == Run(Timed(inner), host.clock, old(Snapshot(store, host)))
  {
    var startTime := host.CurrentTimeMillis();
    r := Delegate(inner, store, host);
    var endTime := host.CurrentTimeMillis();
    var duration := endTime - startTime;
    host.Println(Duration(duration));
  }

  /** CachedDocument.parse over the layer's own store `cache`. */
  method ParseCached(inner: Chain, key: string, cache: Store, host: Host) returns (r: Outcome)
    requires SharesStore(inner, cache)
    modifies cache, host
    decreases inner, 2
    ensures Step(r, Snapshot(cache, host)) == Run(Cached(inner, key, cache), host.clock, old(Snapshot(cache, host)))
  {
    var cachedResult := cache.Get(key);
    if cachedResult.Some? {
      host.Println(Hit(key));
      r := Text(cachedResult.value);
      return;
    }
    host.Println(Miss(key));
    r := Delegate(inner, cache, host);
    if r.Failure? {
      return;
    }
    var now := host.CurrentTimeMillis();
    cache.Put(key, r.text, now);
  }

  /**
   * The CachedDocument constructor: wrap `inner`, remember `key`, and take
   * the store from `getInstance`, so every caching layer built from one
   * registry holds the same store.
   */
  method NewCachedDocument(inner: Chain, key: string, registry: Registry) returns (c: Chain)
    modifies registry
    ensures registry.instance != null
    ensures c == Cached(inner, key, registry.instance)
    ensures old(registry.instance) != null ==> registry.instance == old(registry.instance)
    ensures old(registry.instance) == null ==>
              fresh(registry.instance) && registry.instance.rows == CreateTableIfNotExists(registry.disk)
  {
    var cache := registry.GetInstance();
    c := Cached(inner, key, cache);
  }
}
