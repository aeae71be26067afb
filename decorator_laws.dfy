/**
 * What the decorator chain promises, proved about its specification `Run`
 * (and so, through the `ensures` of the `Parse` methods, about the
 * imperative code as well).
 */
module DecoratorLaws {
  import opened Wrappers
  import opened DatabaseCache
  import opened Decorators

  /** The outcome of the innermost document of `c`. */
  function BaseOutcome(c: Chain): (o: Outcome)
  {
    match c
    case Base(o) => o
    case Plain(inner) => BaseOutcome(inner)
    case Timed(inner) => BaseOutcome(inner)
    case Cached(inner, _, _) => BaseOutcome(inner)
  }

  /** Whether `c` is built from plain and timed wrappers only. */
  predicate Uncached(c: Chain)
  {
    match c
    case Base(_) => true
    case Plain(inner) => Uncached(inner)
    case Timed(inner) => Uncached(inner)
    case Cached(_, _, _) => false
  }

  /** The number of timing layers in `c`. */
  function TimedLayers(c: Chain): (n: nat)
  {
    match c
    case Base(_) => 0
    case Plain(inner) => TimedLayers(inner)
    case Timed(inner) => TimedLayers(inner) + 1
    case Cached(inner, _, _) => TimedLayers(inner)
  }

  /** The keys of the caching layers of `c`. */
  function CacheKeys(c: Chain): (keys: set<string>)
  {
    match c
    case Base(_) => {}
    case Plain(inner) => CacheKeys(inner)
    case Timed(inner) => CacheKeys(inner)
    case Cached(inner, key, _) => CacheKeys(inner) + {key}
  }

  /**
   * Every entry the store holds for a key of `c` is what the innermost
   * document of `c` yields: the assumption callers of CachedDocument make,
   * that one key stands for one expected output.
   */
  ghost predicate Coherent(c: Chain, rows: Table)
  {
    forall k :: k in CacheKeys(c) && k in rows ==> BaseOutcome(c) == Text(rows[k].value)
  }

  /** The events appended to `before`'s log by a step that ends in `after`. */
  function NewEvents(before: World, after: World): (events: seq<Event>)
    requires before.out <= after.out
  {
    after.out[|before.out|..]
  }

  // ---------------------------------------------------------------- AbstractDecorator

  /**
   * A plain decorator returns exactly what its inner document returns, text
   * or failure, and its call is the inner call: same events, same store,
   * same number of document invocations.
   */
  lemma PlainDelegates(inner: Chain, clock: Clock, w: World)
    ensures Run(Plain(inner), clock, w) == Run(inner, clock, w)
  {
  }

  /**
   * A chain of plain and timed wrappers returns the innermost document's
   * outcome, invokes it exactly once, never touches the store, and prints one
   * duration event per timing layer and nothing else.
   */
  lemma {:induction false} UncachedPreservesContent(c: Chain, clock: Clock, w: World)
    requires Uncached(c)
    ensures Run(c, clock, w).outcome == BaseOutcome(c)
    ensures Run(c, clock, w).world.rows == w.rows
    ensures Run(c, clock, w).world.documentCalls == w.documentCalls + 1
    ensures |NewEvents(w, Run(c, clock, w).world)| == TimedLayers(c)
    ensures forall e :: e in NewEvents(w, Run(c, clock, w).world) ==> e.Duration?
  {
    match c
    case Base(_) =>
    case Plain(inner) =>
      UncachedPreservesContent(inner, clock, w);
    case Timed(inner) =>
      var w1 := w.(tick := w.tick + 1);
      UncachedPreservesContent(inner, clock, w1);
      var s1 := Run(inner, clock, w1);
      var s := Run(c, clock, w);
      assert NewEvents(w, s.world) == NewEvents(w1, s1.world) + [s.world.out[|s.world.out| - 1]];
  }

  // ---------------------------------------------------------------- TimedDocument

  /**
   * A timing layer returns the inner outcome unchanged on both paths, leaves
   * the store as the inner chain left it, and appends exactly one duration
   * event, after all of the inner chain's events, equal to the second clock
   * reading minus the first.
   */
  lemma TimedReportsOnce(inner: Chain, clock: Clock, w: World)
    ensures var s1 := Run(inner, clock, w.(tick := w.tick + 1));
            var s := Run(Timed(inner), clock, w);
            && s.outcome == s1.outcome
            && s.world.rows == s1.world.rows
            && s.world.documentCalls == s1.world.documentCalls
            && w.out <= s1.world.out
            && s.world.out == s1.world.out + [Duration(clock(s1.world.tick) - clock(w.tick))]
  {
  }

  /**
   * The scenario of a failing innermost document: the failure reaches the
   * caller unchanged and one duration event is still printed.
   */
  lemma TimedFailureStillReports(error: string, clock: Clock, w: World)
    ensures var s := Run(Timed(Base(Failure(error))), clock, w);
            && s.outcome == Failure(error)
            && s.world.rows == w.rows
            && s.world.out == w.out + [Duration(clock(w.tick + 1) - clock(w.tick))]
  {
    var w1 := w.(tick := w.tick + 1);
    UncachedPreservesContent(Base(Failure(error)), clock, w1);
    TimedReportsOnce(Base(Failure(error)), clock, w);
  }

  // ---------------------------------------------------------------- CachedDocument

  /**
   * A hit returns the stored value, prints one hit event, and changes
   * nothing else: the inner chain is not run, so no document invocation,
   * no clock reading and no store write happens.
   */
  lemma CacheHit(inner: Chain, key: string, cache: Store, clock: Clock, w: World)
    requires key in w.rows
    ensures Run(Cached(inner, key, cache), clock, w)
         == Step(Text(w.rows[key].value), w.(out := w.out + [Hit(key)]))
  {
  }

  /**
   * A miss prints one miss event before anything the inner chain prints, runs
   * the inner chain once and returns its outcome; on text it writes exactly
   * the one row for `key` on top of what the inner chain left, on failure it
   * writes nothing.
   */
  lemma {:induction false} CacheMiss(inner: Chain, key: string, cache: Store, clock: Clock, w: World)
    requires key !in w.rows
    ensures var w1 := w.(out := w.out + [Miss(key)]);
            var s1 := Run(inner, clock, w1);
            var s := Run(Cached(inner, key, cache), clock, w);
            && s.outcome == s1.outcome
            && s.world.documentCalls == s1.world.documentCalls
            && w1.out <= s.world.out
            && s.world.out == s1.world.out
            && (s1.outcome.Failure? ==> s.world == s1.world && s.world.rows == w.rows)
            && (s1.outcome.Text? ==>
                  && Lookup(s.world.rows, key) == Some(s1.outcome.text)
                  && s.world.rows.Keys == s1.world.rows.Keys + {key}
                  && forall j :: j != key ==> Lookup(s.world.rows, j) == Lookup(s1.world.rows, j))
  {
    var w1 := w.(out := w.out + [Miss(key)]);
    FailuresAreNeverCached(inner, clock, w1);
  }

  /**
   * Only an innermost failure makes a chain fail, the failure arrives
   * unchanged, and a failing `parse` leaves the store exactly as it found it:
   * failures are never cached, at any depth.
   */
  lemma {:induction false} FailuresAreNeverCached(c: Chain, clock: Clock, w: World)
    ensures Run(c, clock, w).outcome.Failure? ==> Run(c, clock, w).outcome == BaseOutcome(c)
    ensures Run(c, clock, w).outcome.Failure? ==> Run(c, clock, w).world.rows == w.rows
  {
    match c
    case Base(_) =>
    case Plain(inner) =>
      FailuresAreNeverCached(inner, clock, w);
    case Timed(inner) =>
      FailuresAreNeverCached(inner, clock, w.(tick := w.tick + 1));
    case Cached(inner, key, _) =>
      if key !in w.rows {
        FailuresAreNeverCached(inner, clock, w.(out := w.out + [Miss(key)]));
      }
  }

  /**
   * Cache isolation: a `parse` of `c` never changes the row of a key that is
   * not among `c`'s own caching keys.
   */
  lemma {:induction false} OtherKeysUntouched(c: Chain, clock: Clock, w: World, j: string)
    requires j !in CacheKeys(c)
    ensures j in Run(c, clock, w).world.rows <==> j in w.rows
    ensures j in w.rows ==> Run(c, clock, w).world.rows[j] == w.rows[j]
  {
    match c
    case Base(_) =>
    case Plain(inner) =>
      OtherKeysUntouched(inner, clock, w, j);
    case Timed(inner) =>
      OtherKeysUntouched(inner, clock, w.(tick := w.tick + 1), j);
    case Cached(inner, key, _) =>
      if key !in w.rows {
        OtherKeysUntouched(inner, clock, w.(out := w.out + [Miss(key)]), j);
      }
  }

  /**
   * Calling `parse` twice: once the first call has produced text, the second
   * call is a hit that returns the same text and does not run the inner
   * chain.  When the key was absent, the first call was a miss.
   */
  lemma CachedTwice(inner: Chain, key: string, cache: Store, clock: Clock, w: World, first: Step)
    requires first == Run(Cached(inner, key, cache), clock, w)
    requires first.outcome.Text?
    ensures Run(Cached(inner, key, cache), clock, first.world)
         == Step(first.outcome, first.world.(out := first.world.out + [Hit(key)]))
    ensures key !in w.rows ==> first.world.out[|w.out|] == Miss(key)
  {
    if key in w.rows {
      CacheHit(inner, key, cache, clock, w);
    } else {
      CacheMiss(inner, key, cache, clock, w);
    }
    assert Lookup(first.world.rows, key) == Some(first.outcome.text);
    CacheHit(inner, key, cache, clock, first.world);
  }

  /**
   * A caching layer prints exactly one cache event for its key, a hit or a
   * miss, before any event of its inner chain; on a hit it prints nothing
   * else.
   */
  lemma CacheEventFirst(inner: Chain, key: string, cache: Store, clock: Clock, w: World)
    ensures var s := Run(Cached(inner, key, cache), clock, w);
            && w.out + [if key in w.rows then Hit(key) else Miss(key)] <= s.world.out
            && (key in w.rows ==> s.world.out == w.out + [Hit(key)])
  {
    var s := Run(Cached(inner, key, cache), clock, w);
    assert s.world.out[..|w.out| + 1] == w.out + [s.world.out[|w.out|]];
  }

  /**
   * `Cached(Timed(D), k)` on a hit: no duration event is printed and `D` is
   * not invoked.
   */
  lemma CachedTimedHitSkipsTimer(d: Chain, key: string, cache: Store, clock: Clock, w: World)
    requires key in w.rows
    ensures var s := Run(Cached(Timed(d), key, cache), clock, w);
            && s.world.out == w.out + [Hit(key)]
            && s.world.documentCalls == w.documentCalls
            && s.world.tick == w.tick
            && forall e :: e in NewEvents(w, s.world) ==> !e.Duration?
  {
    CacheHit(Timed(d), key, cache, clock, w);
    var s := Run(Cached(Timed(d), key, cache), clock, w);
    assert NewEvents(w, s.world) == [Hit(key)];
  }

  /**
   * `Timed(Cached(D, k))`: the cache event for `k` comes first and the
   * duration event last, on a hit as on a miss.
   */
  lemma TimedCachedOrder(d: Chain, key: string, cache: Store, clock: Clock, w: World)
    ensures var s := Run(Timed(Cached(d, key, cache)), clock, w);
            && |s.world.out| >= |w.out| + 2
            && s.world.out[|w.out|] == (if key in w.rows then Hit(key) else Miss(key))
            && s.world.out[|s.world.out| - 1].Duration?
  {
    var w1 := w.(tick := w.tick + 1);
    var s1 := Run(Cached(d, key, cache), clock, w1);
    assert s1.world.out[|w.out|] == if key in w.rows then Hit(key) else Miss(key);
  }

  /**
   * A chain whose every caching key is absent from the store: the innermost
   * document is invoked exactly once, its text is returned, and afterwards
   * every caching layer's key maps to that text.
   */
  lemma {:induction false} AllMissFillsEveryKey(c: Chain, clock: Clock, w: World, t: string)
    requires BaseOutcome(c) == Text(t)
    requires forall k :: k in CacheKeys(c) ==> k !in w.rows
    ensures Run(c, clock, w).outcome == Text(t)
    ensures Run(c, clock, w).world.documentCalls == w.documentCalls + 1
    ensures forall k :: k in CacheKeys(c) ==> Lookup(Run(c, clock, w).world.rows, k) == Some(t)
  {
    match c
    case Base(_) =>
    case Plain(inner) =>
      AllMissFillsEveryKey(inner, clock, w, t);
    case Timed(inner) =>
      AllMissFillsEveryKey(inner, clock, w.(tick := w.tick + 1), t);
    case Cached(inner, key, _) =>
      AllMissFillsEveryKey(inner, clock, w.(out := w.out + [Miss(key)]), t);
  }

  /**
   * Content preservation for every chain: when the store only holds, under
   * the chain's keys, what the innermost document yields, `parse` returns
   * exactly the innermost document's outcome, hit or miss at every layer, and
   * the store stays that way.  So every later `parse` returns it again.
   */
  lemma {:induction false} CoherentChainReturnsBase(c: Chain, clock: Clock, w: World)
    requires Coherent(c, w.rows)
    ensures Run(c, clock, w).outcome == BaseOutcome(c)
    ensures Coherent(c, Run(c, clock, w).world.rows)
  {
    match c
    case Base(_) =>
    case Plain(inner) =>
      CoherentChainReturnsBase(inner, clock, w);
    case Timed(inner) =>
      CoherentChainReturnsBase(inner, clock, w.(tick := w.tick + 1));
    case Cached(inner, key, _) =>
      if key !in w.rows {
        var w1 := w.(out := w.out + [Miss(key)]);
        assert Coherent(inner, w1.rows);
        CoherentChainReturnsBase(inner, clock, w1);
        FailuresAreNeverCached(inner, clock, w1);
      }
  }

  /** A chain over an empty table is coherent, so its first and every later `parse` yield the base outcome. */
  lemma {:induction false} EmptyStoreIsCoherent(c: Chain, clock: Clock, w: World)
    requires w.rows == map[]
    ensures Coherent(c, w.rows)
    ensures Run(c, clock, w).outcome == BaseOutcome(c)
    ensures Run(c, clock, Run(c, clock, w).world).outcome == BaseOutcome(c)
  {
    CoherentChainReturnsBase(c, clock, w);
    CoherentChainReturnsBase(c, clock, Run(c, clock, w).world);
  }
}
