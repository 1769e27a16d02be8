# RedisFunctionsBalancer in Dafny

RedisFunctionsBalancer serves a fixed list of items (callables in `index.ts`,
arbitrary records in `index.js`) in a rank-ordered round robin. The ranks live
in one Redis sorted set per rotation key.

- A rotation starts with `getRange`. It reads the set with `ZRANGE key 0 -1`.
  When the member count differs from the item count, the set is stale. Every item
  identifier is then seeded with score 1 under `ZADD NX`, and the declared order
  is served.
- The async generator walks that order. For each stored identifier it yields
  every item that carries it. Before each yield it adds `INC_VALUE` (1) to that
  item's score with `ZINCRBY`.
- The most recently served items therefore sink to the end of the next rotation.

The model has seven modules:

- `SortedSet` (`sorted_set.dfy`): the value of one sorted set as `map<string, int>`,
  and what `ZRANGE 0 -1`, `ZADD NX` and `ZINCRBY` do to it. ZRANGE is ascending by
  score, ties by member.
- `Store` (`store.dfy`): the Redis server as a class holding the keyspace
  (`map<string, map<string, int>>`). It has one method per command the balancers
  send: DEL, ZADD NX, ZRANGE, ZINCRBY.
- `Rotation` (`rotation.dfy`): what the two balancers share.
  - `Resolve`, the value model of `getRange`.
  - `Matches`, the state function of the generator's nested loops, and
    `FindMatch`, the loops themselves as a method.
  - `Trace`, an independent reference definition of the whole sequence.
  - `Bumped`, the scores a sequence of increments leaves behind.
  - The lemmas that connect these.
- `Decimal` (`decimal.dfy`): the decimal spelling of integers, which is what
  `Number.prototype.toString()` gives for the record indices the JavaScript
  balancer uses as member identifiers. `DecimalValue` reads a spelling back.
- `CallableBalancing` (`callable_balancer.dfy`): the `CallableBalancer` class of
  `index.ts` and its generator. The generator is a `MethodIterator` object whose
  `Next()` is one pull of the async generator.
- `RedisBalancing` (`redis_balancer.dfy`): the `RedisBalancer` class of
  `index.js` and its generator as a `RecordIterator` object.
- `Scenarios` and `RecordScenarios` (`scenarios.dfy`, `record_scenarios.dfy`):
  - the behaviour `test/iterator.ts` exercises, stated for any starting keyspace
    and any three names that ascend as A, B, C do;
  - the same first full pass for the JavaScript balancer.

Each iterator keeps its loop position `(outer, inner)` and a ghost list of the
positions it has yielded. Its invariant is
`yielded + Pending() == Trace(order, ids)`: every pull moves the next position of
the reference sequence from pending to yielded, increments exactly that item's
identifier, and yields that item.

## Model

| member | source | states |
|---|---|---|
| SortedSet.LexTransitive | index.ts:92 | The member order Redis uses to break score ties is transitive |
| SortedSet.LexTotal | index.ts:92 | Any two different members are ordered one way or the other |
| SortedSet.LexAsymmetric | index.ts:92 | No two members each precede the other |
| SortedSet.Range | index.ts:92-94 | ZRANGE 0 -1 lists as many entries as the set has members, which is the count `getRange` compares |
| SortedSet.RangeOrdered | index.ts:92 | ZRANGE 0 -1 lists every member exactly once, strictly ascending by score, ties ascending by member |
| SortedSet.AscendingUnique | index.js:90 | Only one listing of a set is ascending and complete, so the range is fully determined by the scores |
| SortedSet.RangeCharacterized | index.js:90 | Any ascending, complete listing of a set is what ZRANGE returns |
| SortedSet.AddNXKeys | index.ts:103 | ZADD NX ends with the old members plus the named ones, and never changes the score of a present member |
| SortedSet.AddNXFirst | index.js:99 | A member that was absent gets the score of the first pair naming it |
| SortedSet.AddNXCount | index.ts:103 | The set grows by exactly the named members that were absent |
| SortedSet.AddNXNonEmpty | index.js:99 | A ZADD with at least one pair leaves a non-empty set |
| SortedSet.IncrBy | index.ts:45 | Definition: ZINCRBY adds delta to the member's score, an absent member starting from 0, and adds no other member or change |
| Store.Lookup | index.ts:92 | Definition: an absent key reads as the empty sorted set |
| Store.RedisStore.Del | index.ts:66 | DEL removes exactly that key and reports whether it existed; no empty set is ever stored |
| Store.RedisStore.ZAddNX | index.ts:103 | ZADD NX replaces the set under the key by its NX union and reports how many members were new |
| Store.RedisStore.ZRange | index.ts:92 | The reply is ascending and covers exactly the members under the key, and it writes nothing |
| Store.RedisStore.ZIncrBy | index.ts:45 | Only the set under the key changes, by one ZINCRBY, and the reply is the new score |
| Rotation.Seeds | index.ts:98-102 | Definition: the ZADD arguments pair score 1 with every identifier, in declared order |
| Rotation.SeedMembers | index.js:94-98 | The seeding names exactly the items' identifiers |
| Rotation.SeededScores | index.ts:98-103 | Seeding adds every missing identifier at score 1 and keeps every stored score |
| Rotation.SeedsOnEmpty | index.js:94-99 | Seeding an empty set gives exactly the identifiers, each at score 1 |
| Rotation.ResolveStale | index.ts:94-105 | A stale set makes `getRange` serve the declared order, seed every identifier under NX and change no other key |
| Rotation.StaleServesDeclared | index.js:90-100 | A stale set written under the key makes the next `getRange` serve the declared order, a corollary of `ResolveStale` |
| Rotation.ResolveSettled | index.ts:92-108 | A set with as many members as items is served in stored order, and nothing is written |
| Rotation.ResolveFresh | index.js:90-100 | On an absent key, `getRange` serves the declared order and stores every identifier at score 1 |
| Rotation.ResolvedMembers | index.ts:94-103 | With distinct identifiers and no foreign member, the set ends up holding exactly the identifiers |
| Rotation.ResolveSettles | index.ts:91-109 | After that one `getRange`, the next one serves the set as stored and writes nothing |
| Rotation.FindMatch | index.ts:52-54 | The nested loops, resumed at (outer, inner), stop at the next item whose identifier equals the current stored entry, or run off the end when none is left |
| Rotation.MatchesAsTrace | index.ts:52-59 | The loop state machine, resumed inside entry i, produces the rest of that entry's matches and then the reference sequence of the later entries |
| Rotation.MatchesFromStart | index.ts:49-59 | From the initial loop state the generator yields exactly the reference sequence |
| Rotation.PositionsCount | index.ts:53-54 | Among the items from j on, item k matches an identifier once if it carries it and never otherwise |
| Rotation.TraceCount | index.ts:52-57 | Item k is yielded exactly as many times as its identifier occurs in the served order |
| Rotation.TraceNamed | index.ts:52-57 | Every yield is an item whose identifier the served order names |
| Rotation.TraceAppend | index.ts:52 | The sequence over concatenated orders is the concatenation of their sequences |
| Rotation.DriftSkipped | index.ts:52-58 | A stored entry that names no item is skipped and changes nothing else in the sequence |
| Rotation.PositionsOfDistinct | index.ts:53-54 | With distinct identifiers, an identifier matches only its own item |
| Rotation.TraceBounded | index.ts:52-58 | With distinct identifiers, a sequence yields at most one item per stored entry |
| Rotation.DeclaredOrderTrace | index.ts:48-60 | Served in declared order, distinct items are yielded once each, in declared order |
| Rotation.BumpedScores | index.ts:55 | After a run of increments every member has its old score plus one per selection, and no member disappears |
| Rotation.FullPassScores | index.ts:52-58 | A full pass over freshly seeded distinct identifiers leaves each at score 2 |
| Decimal.NatToString | index.js:96 | A non-negative index is spelled as a non-empty run of decimal digits, one digit exactly below 10, with a leading "0" only for 0 itself |
| Decimal.IntToString | index.js:56 | An integer's spelling starts with "-" exactly when it is negative |
| Decimal.NatToStringValue | index.js:96 | Reading the spelling of n back as a decimal number, most significant digit first, gives n |
| Decimal.IntToStringValue | index.js:56 | A negative integer is spelled "-" followed by the spelling of its magnitude, any other integer as itself, and each spelling reads back to the magnitude |
| Decimal.NatToStringInjective | index.js:65 | Different indices never share a spelling, a consequence of the read-back |
| Decimal.NegativeIsNoIndex | index.js:50-56 | A negative number, such as the -1 of a miss, is never spelled like an index |
| Decimal.IndexIds | index.js:94-97 | Definition: the identifiers of n records are the spellings of 0 to n-1, in index order |
| Decimal.IndexIdsDistinct | index.js:94-97 | No index identifier appears twice |
| CallableBalancing.Names | index.ts:101 | Definition: the identifiers of the methods are their names, in declared order |
| CallableBalancing.JoinAfterHead | index.ts:84 | Joining a head and names with "." is the head followed by "." and each name |
| CallableBalancing.MakeStoreKey | index.ts:78-85 | The key is "balancer" followed by "." and each method's name, in declared order |
| CallableBalancing.DotEachInjective | index.ts:78-85 | With dot-free names, equal dotted suffixes mean equal name lists |
| CallableBalancing.KeyDeterminesNames | index.ts:78-85 | With dot-free names, two method lists share a key only if their names agree |
| CallableBalancing.DottedNamesCollide | index.ts:78-85 | Names containing "." can give two different name lists the same key |
| CallableBalancing.CallableBalancer.constructor | index.ts:25-28 | The methods are stored and the key is derived from them; the store is not touched |
| CallableBalancing.CallableBalancer.SetMethods | index.ts:39-42 | The methods are replaced and the key is derived anew |
| CallableBalancing.CallableBalancer.IncreaseMethodRank | index.ts:44-46 | Exactly one ZINCRBY of the given amount (1 by default) on the method's name, under the current key |
| CallableBalancing.CallableBalancer.GetAsyncIterator | index.ts:48 | A new, unstarted generator over this balancer; nothing is read or written before the first pull |
| CallableBalancing.CallableBalancer.ResetStore | index.ts:65-67 | The set under the current key is deleted and nothing else changes |
| CallableBalancing.CallableBalancer.GetStoreKey | index.ts:69-71 | The key returned is "balancer" followed by the dotted names of the current methods |
| CallableBalancing.CallableBalancer.GetRange | index.ts:91-109 | The order served and the new keyspace are those `Resolve` gives for the method names |
| CallableBalancing.MethodIterator.constructor | index.ts:48 | A fresh generator has not started |
| CallableBalancing.MethodIterator.Begin | index.ts:49-53 | The first pull runs `getRange`; the pending positions are then the whole reference sequence for the served order |
| CallableBalancing.MethodIterator.Advance | index.ts:52-58 | A pull takes the first pending position, increments that method's name once and yields the method, or ends the sequence without writing when none is pending |
| CallableBalancing.MethodIterator.Next | index.ts:48-60 | One pull: on the first call, `getRange`, then the first position of its reference sequence; afterwards, the next pending position |
| RedisBalancing.IndexOf | index.js:50 | `indexOf` gives the first position of the record, or -1 exactly when it is absent |
| RedisBalancing.RedisBalancer.constructor | index.js:32-36 | The records and the supplied key are stored; the store is not touched |
| RedisBalancing.RedisBalancer.SetData | index.js:45-47 | The records are replaced and the key stays |
| RedisBalancing.RedisBalancer.IncreaseRank | index.js:48-53 | One ZINCRBY of the given amount (1 by default) on the stringified `indexOf` of the record, which is "-1" when it is absent |
| RedisBalancing.RedisBalancer.IncreaseRankByIndex | index.js:54-58 | One ZINCRBY of the given amount (1 by default) on the index's decimal spelling under the key |
| RedisBalancing.RedisBalancer.GetAsyncIterator | index.js:59-60 | A new, unstarted generator over this balancer |
| RedisBalancing.RedisBalancer.ResetStore | index.js:73-77 | The set under the key is deleted and nothing else changes |
| RedisBalancing.RedisBalancer.GetStoreKey | index.js:78-80 | The key returned is the one supplied or last set |
| RedisBalancing.RedisBalancer.SetStoreKey | index.js:81-83 | The key is replaced and the records stay |
| RedisBalancing.RedisBalancer.GetRange | index.js:88-104 | The order served and the new keyspace are those `Resolve` gives for the identifiers "0" to "n-1" |
| RedisBalancing.RecordIterator.constructor | index.js:59-60 | A fresh generator has not started |
| RedisBalancing.RecordIterator.Begin | index.js:61-64 | The first pull runs `getRange`; the pending indices are then the whole reference sequence |
| RedisBalancing.RecordIterator.Advance | index.js:63-69 | A pull takes the first pending index, increments its decimal spelling once and yields that record, or ends without writing |
| RedisBalancing.RecordIterator.Next | index.js:59-72 | One pull of the generator, as for the callable balancer, over index identifiers |
| RedisBalancing.YieldsBounded | index.js:63-69 | A sequence yields at most one record per stored entry |
| RedisBalancing.YieldsPerIndex | index.js:63-69 | Record k is yielded once for each stored entry equal to k's decimal spelling |
| RedisBalancing.MinusOneIsNoIndex | index.js:50-51 | The miss spelling "-1" is none of the index identifiers |
| RedisBalancing.OneTooMany | index.js:92 | One foreign member on a set of exactly the identifiers makes it stale |
| RedisBalancing.MinusOneUnsettles | index.js:50-56 | Incrementing "-1" on a set of exactly the index identifiers makes it stale |
| RedisBalancing.AbsentRecordUnsettles | index.js:48-53 | Rewarding an absent record stores member "-1", which never yields, and makes the next rotation restart from the declared order |
| Scenarios.KeysOfScenario | test/iterator.ts:23-25 | The keys for [A, B, C] and [C, B, A] are "balancer.A.B.C" and "balancer.C.B.A" |
| Scenarios.StoreKeyScenario | test/iterator.ts:22-26 | The constructor derives "balancer.A.B.C", and `setMethods([C, B, A])` rederives "balancer.C.B.A" |
| Scenarios.ABCInOrder | test/iterator.ts:9-13 | The names A, B, C ascend in member order |
| Scenarios.RangeOfThree | test/iterator.ts:48 | A three-member set whose members precede each other as listed is read back in that order |
| Scenarios.ResetBalancer | test/iterator.ts:17-20 | After the test's setup the balancer's key is absent from the keyspace |
| Scenarios.ReadBack | test/iterator.ts:15 | The test's read-back returns the ZRANGE of the key |
| Scenarios.FirstPull | test/iterator.ts:46-49 | The first pull on a reset key yields the first method and leaves scores 2, 1, 1 |
| Scenarios.FirstPullFacts | test/iterator.ts:46-49 | On a reset key `getRange` seeds the three names at 1 and the sequence is positions 0, 1, 2 |
| Scenarios.FirstPullRead | test/iterator.ts:46-49 | After the first pull the read-back is [B, C, A] |
| Scenarios.SecondPull | test/iterator.ts:51-54 | The second pull yields the second method and the read-back is [C, A, B] |
| Scenarios.RangeAfterSecond | test/iterator.ts:51-53 | Scores 2, 2, 1 read back as [C, A, B] |
| Scenarios.ThirdPull | test/iterator.ts:56-59 | The third pull yields the third method and the read-back is [A, B, C] |
| Scenarios.RangeAfterThird | test/iterator.ts:56-58 | Scores 2, 2, 2 read back as [A, B, C] |
| Scenarios.RoundRobinScenario | test/iterator.ts:38-60 | Both read-backs before the first pull are empty; the three pulls yield A, B, C and the read-backs after them are [B, C, A], [C, A, B], [A, B, C] |
| Scenarios.RangeAfterBonus | test/iterator.ts:66-69 | After one pull and +2 on B, the stored order is [C, A, B] |
| Scenarios.TraceOfRotated | test/iterator.ts:68-70 | Served [C, A, B], the sequence yields positions 2, 0, 1 |
| Scenarios.BumpedSecond | test/iterator.ts:66-70 | After one pull and +2 on B, `getRange` keeps the set and serves [C, A, B] |
| Scenarios.BonusThenRestart | test/iterator.ts:66-70 | After +2 on B, a new iterator's first pull yields C |
| Scenarios.TwoIteratorsScenario | test/iterator.ts:62-71 | One pull, +2 on B, then a new iterator yields C first |
| Scenarios.PullDeclared | test/iterator.ts:32 | Pull k over the declared order yields method k and increments its name, or ends once every method has been served |
| Scenarios.PullEnd | test/iterator.ts:32 | A pull with nothing pending reports done and writes nothing |
| Scenarios.DrainDeclared | test/iterator.ts:32-35 | The test's loop collects every method in declared order, and each name is incremented once |
| Scenarios.CallableFirstRun | test/iterator.ts:28-36 | For any distinct names, on a reset key a full pull yields the methods in declared order and leaves every name at score 2 |
| RecordScenarios.ResetRecords | index.js:73-77 | After construction and `resetStore` the key is absent |
| RecordScenarios.RecordPullDeclared | index.js:63-70 | Pull k over the index identifiers in order yields record k and increments "k", or ends after the last record |
| RecordScenarios.RecordDrain | index.js:63-70 | A for-await loop collects every record in order, and each index identifier is incremented once |
| RecordScenarios.RecordFirstRun | index.js:59-72 | For any non-empty records, repeated ones included, on a reset key a full pull yields the records in order and leaves "0" to "n-1" at score 2 |

## Left out

- The transpiler helpers `__awaiter`, `__await` and `__asyncGenerator` (index.js:2-22) and the `promisify` wiring (index.ts:30-36, index.js:37-43) are left out. They only adapt callbacks to promises.
- Asynchrony and concurrency are not modelled. Each Redis command is one atomic step on the keyspace, and each `await` is sequential. Interleaving with other clients that share a key is outside the model.
- Redis scores are floating-point numbers. The model uses integers. That is exact for the balancers' own seeds (1) and their own increments (`INC_VALUE`, 1), but `increaseMethodRank`, `increaseRank` and `increaseRankByIndex` (index.ts:44, index.js:48, :54) pass on whatever amount a caller gives, and a fractional amount such as 0.5 is not modelled.
- JavaScript's `Function.prototype.name` is modelled as an explicit `Callable(name)` datatype. The balancer never looks at a callable beyond its name.
- CallableBalancing.MethodIterator.Next: the generator re-reads `this._methods` on every outer pass (index.ts:53) and `this._storeKey` at every increment (index.ts:45, called from index.ts:55). The model captures the methods at the first pull and requires them unchanged afterwards, so `setMethods` during an iteration is not covered. Each increment does use the owner's key at the time of the call, but that key is tied to the unchanged methods.
- RedisBalancing.RecordIterator.Next: `this._data` is captured at the first pull and required unchanged afterwards, so `setData` during an iteration is not covered. `this.redisPrefix` is not captured: each increment goes through `IncreaseRankByIndex` and uses the owner's prefix at the time of the call, as index.js:56 reads `this.redisPrefix` at every increment.
- The constructors and `setMethods`/`setData` require a non-empty list. For the constructors this is the documented parameter contract ("not empty array", index.ts:22, index.js:28). `setMethods` (index.ts:39) and `setData` (index.js:45) document no such requirement, and the model extends it to them by choice. On an empty list the source's `getRange` behaves in two ways that the model does not cover. If the key holds a non-empty set, the counts differ and it sends `ZADD key NX` with no pairs, which Redis rejects. If the key is empty, nothing is sent and the sequence ends at once.
- CallableBalancing.CallableBalancer and RedisBalancing.RedisBalancer hold the item list as a value. The source keeps the caller's array by reference (index.ts:27, :40; index.js:36, :46) and derives `_storeKey` only when the array is passed in (index.ts:28, :41). An in-place change to that array after construction or after `setMethods`/`setData` changes the items the balancer sees. In the TypeScript balancer it does so without rederiving the key, so `getStoreKey` no longer matches the methods. The model does not represent that aliasing, and `CallableBalancer.Valid()` keeps the key equal to `MakeStoreKey(methods)` throughout.
- Redis compares members byte-wise. The model compares characters, which agrees on ASCII names and identifiers.
- Only `ZRANGE key 0 -1`, `ZADD key NX`, `ZINCRBY` and `DEL` of one key are modelled, since the balancers send nothing else.
- Store commands never fail in the model. In the source a rejected `zIncRbyAsync`, `zRangeAsync` or `zAddAsync` (index.ts:45, :92, :103) aborts the generator and keeps the increments made before it. A key holding a value that is not a sorted set (the WRONGTYPE error) cannot be represented, because the keyspace maps every key to a sorted set.
- Decimal.NatToString and Decimal.IntToString: only integers are spelled. JavaScript writes 1e21 and above in exponent notation and is exact only up to 2^53. Both lie far beyond any list index. `increaseRankByIndex` (index.js:54-58) also accepts a non-integer `index`, which the model's `index: int` excludes.
- The replies of DEL, ZADD and ZINCRBY are modelled, but the balancers ignore them.
- `increaseRank` of an absent record: a stricter balancer would fail before touching the store. The code increments member "-1" instead (index.js:50-51). The model follows the code, and `AbsentRecordUnsettles` states the consequence.
- The test scenarios are proved for any starting keyspace and any three names that ascend as "A", "B", "C" do. `ABCInOrder` shows that the test's own names "A", "B", "C" meet that condition. Running the handlers (their `console.log`) is I/O and is left out.
