# Document decorators with a persistent result cache

A Dafny model of the core of a small Java project that wraps a text-extracting
`Document` (one operation, `parse()`) in stackable decorators:

- `AbstractDecorator` holds exactly one inner document and delegates `parse()`
  to it;
- `TimedDocument` reads the clock before and after delegating and, in a
  `finally` block, prints the elapsed milliseconds;
- `CachedDocument` looks its fixed key up in the shared `DatabaseCache`;
  on a hit it returns the stored text without running the inner document, on
  a miss it prints a miss line, delegates, and stores the result under its key;
- `DatabaseCache` is a lazily created singleton over an SQLite table
  `cache(key PRIMARY KEY, value, timestamp)` with `get`, `put`
  (`INSERT OR REPLACE`), `contains` and `clear`.

Files:

- `wrappers.dfy` — `Option`, standing for Java's nullable results.
- `database_cache.dfy` — the table as `map<string, Row>`; one function per SQL
  statement (`Lookup`, `Upsert`, `DeleteAll`, `CreateTableIfNotExists`) with
  the map laws; the class `Store` (the `DatabaseCache` object, whose methods
  update its `rows` field in place) and the class `Registry` (the static
  `instance` field and `getInstance`).
- `decorators.dfy` — the chain as a datatype
  `Base | Plain | Timed | Cached(inner, key, cache)`, where each caching layer
  holds the store it got from `getInstance`; the specification `Run` /
  `RunTimed` / `RunCached` over a `World` (table, printed events, clock
  readings taken, document invocations); the class `Host` (console, clock,
  invocation counter); and the imperative `Parse`, `Delegate`, `ParseTimed`,
  `ParseCached` methods, each proved to leave exactly the state `Run` computes.
- `decorator_laws.dfy` — the properties of the chain, proved about `Run`.

Modelling choices:

- Exceptions are values: `Outcome = Text | Failure`. An `ExtractionError` of
  the innermost document is `Failure(error)`. Java's `try { … } finally { report }`
  becomes a report that follows the delegation on either outcome.
- Clock readings are inputs: `Clock = nat -> int` gives the n-th reading of
  `System.currentTimeMillis()`, and the host counts the readings taken. Both
  clock reads of `TimedDocument` and the one inside `put` take a reading.
- Console lines are events `Hit(key)`, `Miss(key)`, `Duration(ms)`.
- The innermost document is opaque: `Base(outcome)`, invoked through
  `InvokeDocument`, which bumps a call counter the way a test double would.
- The private constructor runs `CREATE TABLE IF NOT EXISTS` on a database
  file. The file can already hold rows from an earlier run, so a first
  instance starts from the file's table, or from an empty one when the file
  has no table. The model takes the file's contents (`disk`) as an input. It
  does not assume an empty map at creation.

## Model

| member | source | states |
|---|---|---|
| `DatabaseCache.Lookup` | src/main/java/com/example/DatabaseCache.java:41-53 | the result is present exactly when the key has a row, and is then that row's value |
| `DatabaseCache.Upsert` | src/main/java/com/example/DatabaseCache.java:56-65 | after the upsert the key maps to the new value with the new timestamp; the key set grows by at most that key; every other row is unchanged |
| `DatabaseCache.Contains` | src/main/java/com/example/DatabaseCache.java:68-70 | holds exactly when the key has a row, that is, exactly when a lookup finds a value |
| `DatabaseCache.DeleteAll` | src/main/java/com/example/DatabaseCache.java:73-79 | after deleting all rows no key is found and no key is contained |
| `DatabaseCache.CreateTableIfNotExists` | src/main/java/com/example/DatabaseCache.java:16-26 | a missing table is created empty; an existing table keeps its rows |
| `DatabaseCache.CreateTableIdempotent` | src/main/java/com/example/DatabaseCache.java:19-24 | running the table creation again changes nothing |
| `DatabaseCache.GetAbsentOnEmpty` | src/test/java/com/example/AppTest.java:104-105 | on a fresh table `get` is absent and `contains` is false for every key |
| `DatabaseCache.PutThenGet` | src/main/java/com/example/DatabaseCache.java:56-65 | `put(k, v)` then `get(k)` returns `v`, and `contains(k)` holds |
| `DatabaseCache.LastWriteWins` | src/main/java/com/example/DatabaseCache.java:57 | two puts to one key give the same table as the second put alone, so `get` returns the second value |
| `DatabaseCache.PutIdempotent` | src/main/java/com/example/DatabaseCache.java:57-63 | repeating `put(k, v)` leaves the key-to-value map as one put left it; only `k`'s timestamp becomes the later reading |
| `DatabaseCache.ClearForgetsEverything` | src/main/java/com/example/DatabaseCache.java:73-79 | after `clear()`, `get(k)` is absent and `contains(k)` is false for every `k` |
| `DatabaseCache.Store.constructor` | src/main/java/com/example/DatabaseCache.java:15-26 | a new store holds the table the creation statement leaves |
| `DatabaseCache.Store.Get` | src/main/java/com/example/DatabaseCache.java:40-53 | returns a value exactly when the key has a row, and that row's value; changes nothing |
| `DatabaseCache.Store.Put` | src/main/java/com/example/DatabaseCache.java:55-65 | the new table is the old one upserted with the key, the value and the supplied clock reading |
| `DatabaseCache.Store.Contains` | src/main/java/com/example/DatabaseCache.java:67-70 | true exactly when the key has a row; changes nothing |
| `DatabaseCache.Store.Clear` | src/main/java/com/example/DatabaseCache.java:72-79 | the new table has no rows |
| `DatabaseCache.Registry.constructor` | src/main/java/com/example/DatabaseCache.java:13 | before the first `getInstance` there is no instance |
| `DatabaseCache.Registry.GetInstance` | src/main/java/com/example/DatabaseCache.java:28-33 | the first call creates a fresh store over the file's table and keeps it; every later call returns that same store and creates nothing |
| `DatabaseCache.GetInstanceTwice` | src/main/java/com/example/DatabaseCache.java:28-33 | two calls of `getInstance` return one and the same store |
| `Decorators.Run` | src/main/java/com/example/AbstractDecorator.java:9-12 | `parse` on any chain only appends events, only advances the clock, and never lowers the document-call count |
| `Decorators.RunTimed` | src/main/java/com/example/TimedDocument.java:10-21 | the timing layer takes at least one clock reading, and its last event is a duration event |
| `Decorators.RunCached` | src/main/java/com/example/CachedDocument.java:14-26 | the first event of a caching layer is a hit for its key when the key has a row, and a miss otherwise |
| `Decorators.Host.CurrentTimeMillis` | src/main/java/com/example/TimedDocument.java:11 | returns the next clock reading and advances the reading count by one |
| `Decorators.Host.Println` | src/main/java/com/example/TimedDocument.java:19 | appends exactly one event and changes nothing else |
| `Decorators.Parse` | src/main/java/com/example/AbstractDecorator.java:11 | the outcome and the new store, console, clock and call count are exactly those `Run` gives for the old state |
| `Decorators.InvokeDocument` | src/test/java/com/example/AppTest.java:157-165 | the innermost document yields its outcome and is counted as invoked once |
| `Decorators.Delegate` | src/main/java/com/example/AbstractDecorator.java:10-12 | the base decorator's `parse` leaves exactly the state and outcome of a plain layer over the inner chain |
| `Decorators.ParseTimed` | src/main/java/com/example/TimedDocument.java:10-21 | the imperative timing layer leaves exactly the state and outcome `RunTimed` gives |
| `Decorators.ParseCached` | src/main/java/com/example/CachedDocument.java:14-26 | the imperative caching layer leaves exactly the state and outcome `RunCached` gives |
| `Decorators.NewCachedDocument` | src/main/java/com/example/CachedDocument.java:7-11 | a caching layer wraps the inner chain with its key and holds the registry's single store; the first construction creates that store fresh over the file's table, later ones reuse it |
| `DecoratorLaws.PlainDelegates` | src/main/java/com/example/AbstractDecorator.java:10-12 | a plain decorator's call is exactly its inner document's call; a failure passes through unchanged |
| `DecoratorLaws.UncachedPreservesContent` | src/main/java/com/example/TimedDocument.java:14-15 | a chain of plain and timed wrappers returns the innermost outcome, invokes the document exactly once, never touches the store, and adds only one duration event per timing layer |
| `DecoratorLaws.TimedReportsOnce` | src/main/java/com/example/TimedDocument.java:11-20 | the timing layer returns the inner outcome on success and failure, writes no row of its own, and appends one duration event equal to end reading minus start reading, after all inner events |
| `DecoratorLaws.TimedFailureStillReports` | src/main/java/com/example/TimedDocument.java:13-20 | over a failing document the failure reaches the caller unchanged, the store is untouched, and one duration event is printed |
| `DecoratorLaws.CacheHit` | src/main/java/com/example/CachedDocument.java:15-19 | on a hit the stored value is returned, one hit event is printed, and nothing else changes: no inner call, no clock reading, no write |
| `DecoratorLaws.CacheMiss` | src/main/java/com/example/CachedDocument.java:21-25 | on a miss a miss event comes before the inner events, the inner chain runs once and its outcome is returned; on text exactly the row for the key is written, on failure nothing is |
| `DecoratorLaws.FailuresAreNeverCached` | src/main/java/com/example/CachedDocument.java:22-23 | a failing `parse` at any depth returns the innermost failure unchanged and leaves the store exactly as it was |
| `DecoratorLaws.OtherKeysUntouched` | src/main/java/com/example/CachedDocument.java:23 | a `parse` never creates, removes or changes the row of a key that is not one of its chain's caching keys |
| `DecoratorLaws.CachedTwice` | src/main/java/com/example/CachedDocument.java:15-25 | after a call that returned text, a second call is a hit with the same text that leaves the inner chain alone; when the key was absent the first call was a miss |
| `DecoratorLaws.CacheEventFirst` | src/main/java/com/example/CachedDocument.java:17-22 | each call prints exactly one hit or miss event for its key, before any inner event, and on a hit nothing else |
| `DecoratorLaws.CachedTimedHitSkipsTimer` | src/main/java/com/example/CachedDocument.java:15-19 | `Cached(Timed(D), k)` on a hit prints no duration event, does not invoke `D` and reads no clock |
| `DecoratorLaws.TimedCachedOrder` | src/main/java/com/example/TimedDocument.java:14-19 | in `Timed(Cached(D, k))` the cache event comes first and the duration event last |
| `DecoratorLaws.AllMissFillsEveryKey` | src/main/java/com/example/CachedDocument.java:21-23 | when no caching key of a chain has a row, the document is invoked once, its text is returned, and every caching key then maps to it |
| `DecoratorLaws.CoherentChainReturnsBase` | src/main/java/com/example/CachedDocument.java:15-25 | when the store holds only the document's text under the chain's keys, `parse` returns exactly the document's outcome, and the store stays that way |
| `DecoratorLaws.EmptyStoreIsCoherent` | src/main/java/com/example/CachedDocument.java:15-25 | from an empty table, the first and the second `parse` of any chain both return the innermost document's outcome |

## Left out

- JDBC and SQLite: connections, prepared statements and resource closing become operations on a map. The database URL is not modelled.
- Storage failures: `@SneakyThrows` rethrows `SQLException` from every store operation. The model has no failing store operation.
- `null` keys and values: keys and values are non-null strings. With SQL's rules a `null` key never matches `WHERE key = ?`, so `put(null, v)` adds a row that `get(null)` never finds, and a CachedDocument with a `null` key would miss on every call. A direct `put(k, null)` violates `value TEXT NOT NULL` and throws. Neither is modelled.
- A `null` result from an inner document: `put` would then violate the table's `NOT NULL` constraint. The model's documents return either text or a failure.
- Concurrency: the `synchronized` on `getInstance`, and racing miss-then-write sequences. The model has a single sequential caller and one shared store.
- Concrete clock values: readings are supplied, not read from a real clock.
- `RunTimed`: the duration is the difference of two unbounded integers. Java's 64-bit `long` subtraction is not modelled; it can only wrap for readings no clock gives.
- `TimedReportsOnce`: states that the timing layer writes no row of its own. That it reads no row is visible only in the definition of `RunTimed`.
- The text of the printed lines: each line is an abstract event.
- `App.java`: a demo with console output and sleeping mock documents, with no logic of its own.
- The `Document` interface is not part of this model. Its one operation is modelled by the outcome of the innermost document.
- Reassigning a decorator's inner document: a chain is an immutable value, so `parse` cannot change which document a layer wraps.
