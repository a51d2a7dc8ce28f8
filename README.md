# mongo-queue-java, modelled in Dafny

A model of the queue core of mongo-queue-java: a message queue kept in one MongoDB
collection, and the "queue box" framework on top of it that routes messages to consumers.

- `MongoQueueCore` is the lease protocol. `send` inserts a waiting record. `get` first
  releases abandoned leases. It then claims the eligible record that sorts first by
  (priority, created) and returns its payload with its `id` added. `ack` deletes a record.
  `ackSend` and `requeue` write a record back as waiting. `count` counts matching records.
- `MongoQueueCoreIndexes` builds the index keys. It checks that every direction is 1 or -1.
  It then makes sure each index is listed, trying at most five creations.
- `MongoRoutedQueueBehave` stores each routed message as its serialised document. A
  consumer fetches up to `fetchLimit` documents whose `destination` is its id. `reset`
  puts a message back, due now.
- `QueueConsumerThread` alternates fetching and draining. An empty batch schedules the
  next fetch after the fetch delay. A non-empty batch goes through a semaphore and an
  executor, one packet at a time.
- `QueueEngine` keeps one consumer thread per consumer id. `QueueBox` is the entry point
  the application configures and starts.
- `PropertiesBox` gives int properties with a default. `MongoRoutedQueueStatistic` keeps
  named counters.

## How the model is built

The modules follow the program's structure:

| module | models |
|---|---|
| `JavaInts` | int and long widths, decimal text |
| `Bson` | `org.bson.Document`: an append that overwrites in place, and an `equals` that ignores order |
| `Store` | the collection: a map from ObjectId to record, plus the listed index keys |
| `IndexManager` | `MongoQueueCoreIndexes` |
| `QueueStorage` | `MongoQueueCore` |
| `Props` | `PropertiesBox` |
| `Stats` | `MongoRoutedQueueStatistic` |
| `Messages` | messages, containers and consumers |
| `Behave` | `MongoRoutedQueueBehave` |
| `Dispatch` | `QueueConsumerThread` |
| `Engine` | `QueueEngine` |
| `Box` | `QueueBox` |

Objects whose fields the source updates are classes with `modifies` frames: the
collection, the index manager, the core, the behaviour, the consumer thread, the engine,
the box and the statistic. Pure computations are functions with lemmas.

Inputs the program reads from outside become parameters:

- **Clock.** `new Date()` is `now`. The `System.currentTimeMillis` readings of the polling
  loop are a sequence `clock`.
- **Index visibility.** Whether a freshly created index already shows in `listIndexes` is
  a sequence of booleans.
- **Acquire and submit.** What happens at `acquire` and `execute` for each packet is a
  sequence of `Attempt`s: submitted, rejected or interrupted.
- **Serialiser.** The serialiser is a pair of uninterpreted functions.
- **Fetch outcome.** What a launched fetch returned, or that it threw, is an input of
  the consumer thread. `Engine.QueueEngine.Fetch` models the fetch itself.
- **Consumer handler.** The consumer's handler is a function that says whether
  `onPacket` returned normally.

What a consumer thread does is recorded as a trace of events: fetches launched, fetches
scheduled, packets delivered, packets reset. Its lemmas are stated against that trace.

In some places the code does something other than its names and comments suggest. The
model follows the code:

- `put` builds a copy of the message with `source` and `destination` set, then sends a
  second, plain serialisation. The record holds the serializer's document as is
  (`Behave.RoutedQueueBehave.Put`, `Behave.PutThenFind`).
- A container that comes out of `find` always has the default priority. The priority a
  message was queued with is not kept (`Behave.ResetThenFind`).
- `reset` requeues with priority 0, ahead of every default-priority message.
- The fetch delay is read with `getProperty`, so a `Number` property is ignored.
  `tryGetIntProperty` would read it (`Dispatch.FetchDelayIgnoresNumbers`).
- A negative fetch delay parses and is kept. After an empty or failed fetch,
  `Timer.schedule` refuses it with IllegalArgumentException, and the thread never fetches
  again (`Dispatch.QueueConsumerThread.OnComplete`).
- A rejected submission keeps its semaphore permit. Once as many rejections have
  happened as there are permits, the next acquire waits for ever
  (`Dispatch.NoPermitsBlocks`, `Dispatch.EnoughPermits`).
- `subscribe` runs the registration inside an executor task, so a duplicate consumer id
  fails unseen by the caller (`Box.QueueBox.Subscribe`).
- `withQueueBehave(null)` stores the null before it fails.
- `stop` before `start` fails on the missing engine. The box stays marked started after
  `stop`.
- `ensureIndex` gives up after the fifth creation without looking again. An index that
  shows up only after the fifth creation still counts as a failure
  (`IndexManager.EnsureIndexClosedForm`).

## Model

| member | source | states |
|---|---|---|
| JavaInts.ToInt | src/main/java/ru/infon/queuebox/common/PropertiesBox.java:17-18 | intValue of an integral Number (Integer, Long, BigInteger) keeps the low 32 bits: the result is an int congruent to the input modulo 2^32, and an int comes back unchanged |
| JavaInts.DoubleToInt | src/main/java/ru/infon/queuebox/common/PropertiesBox.java:17-18 | intValue of a finite Double or Float drops the fraction toward zero and saturates at INT_MIN and INT_MAX |
| JavaInts.IncLong | src/main/java/net/c0f3/queuebox/mongo/MongoRoutedQueueStatistic.java:14-19 | incrementAndGet adds one below LONG_MAX and wraps LONG_MAX to LONG_MIN, staying a long |
| JavaInts.ParseDecimal | src/main/java/ru/infon/queuebox/common/PropertiesBox.java:20-22 | a parsed value always lies within the requested bounds (out-of-range text is a NumberFormatException) |
| JavaInts.ParseShowRoundTrip | src/main/java/net/c0f3/queuebox/mongo/MongoRoutedQueueStatistic.java:22-24 | parsing the decimal text of any in-range number gives that number back |
| JavaInts.ParseIntShow | src/main/java/ru/infon/queuebox/QueueConsumerThread.java:44-49 | Integer.parseInt of the decimal text of an int is that int |
| JavaInts.ParseLongShow | src/main/java/net/c0f3/queuebox/mongo/MongoRoutedQueueStatistic.java:22-24 | the decimal text of a long parses back as that long |
| JavaInts.DigitsRoundTrip | src/main/java/net/c0f3/queuebox/mongo/MongoRoutedQueueStatistic.java:22-24 | the digits printed for n have the value n |
| Bson.Put | src/main/java/gaillard/mongo/MongoQueueCore.java:105-110 | append: the name then holds the new value, every other lookup is unchanged, a new name goes at the end and an existing one keeps its position |
| Bson.PutWf | src/main/java/gaillard/mongo/MongoQueueCore.java:105-110 | appending keeps the field names distinct |
| Bson.PutAllFresh | src/main/java/gaillard/mongo/MongoQueueCore.java:106-108 | appending fields with new, distinct names is concatenation |
| Bson.GetPutAll | src/main/java/gaillard/mongo/MongoQueueCore.java:106-108 | after a run of appends a name holds the value of its last append, or its old value if none |
| Bson.Remove | src/main/java/ru/infon/queuebox/mongo/MongoRoutedQueueBehave.java:80-84 | remove: the name is gone, every other lookup and every other entry stays, distinct names stay distinct |
| Bson.RemovePutSame | src/main/java/ru/infon/queuebox/mongo/MongoRoutedQueueBehave.java:105-109 | removing a name undoes appending it |
| Bson.RemovePutOther | src/main/java/ru/infon/queuebox/mongo/MongoRoutedQueueBehave.java:105-109 | removing one name commutes with appending another |
| Bson.SameEntriesLookups | src/main/java/net/c0f3/queuebox/mongo/MongoQueueCoreIndexes.java:109-110 | Document.equals on well formed documents implies equal lookups under every name |
| Bson.LookupsSameEntries | src/main/java/net/c0f3/queuebox/mongo/MongoQueueCoreIndexes.java:109-110 | equal lookups under every name imply Document.equals |
| Bson.GetNone | src/main/java/ru/infon/queuebox/mongo/MongoRoutedQueueBehave.java:79 | get gives null exactly when no entry has the name |
| Store.PayloadPathInjective | src/main/java/gaillard/mongo/MongoQueueCore.java:107 | distinct payload field names map to distinct "payload." paths and back |
| Store.PayloadPathsMatch | src/main/java/gaillard/mongo/MongoQueueCore.java:105-110 | a filter of "payload." paths matches a record exactly when every query field matches its payload |
| Store.LeastSortKeyUnique | src/main/java/gaillard/mongo/MongoQueueCore.java:114 | any two records the sort puts first agree on priority and created |
| Store.SelectLeast | src/main/java/gaillard/mongo/MongoQueueCore.java:114-123 | findOneAndUpdate's choice: none exactly when no record matches, otherwise a matching record no matching record sorts before |
| Store.UnusedId | src/main/java/gaillard/mongo/MongoQueueCore.java:338 | a fresh ObjectId exists, above every id in use |
| Store.Collection.CountDocuments | src/main/java/gaillard/mongo/MongoQueueCore.java:163 | the number of records matching the filter |
| Store.Collection.UpdateManySetNotRunning | src/main/java/gaillard/mongo/MongoQueueCore.java:101-103 | every matching record gets running false, all else stays |
| Store.Collection.FindOneAndClaim | src/main/java/gaillard/mongo/MongoQueueCore.java:115-123 | claims the least matching record (running true, new reset timestamp) and returns its id and payload; nothing changes when none matches |
| Store.Collection.InsertOne | src/main/java/gaillard/mongo/MongoQueueCore.java:338 | adds the record under an id not used before |
| Store.Collection.DeleteOne | src/main/java/gaillard/mongo/MongoQueueCore.java:198 | removes the record with that id, if any |
| Store.Collection.UpsertOne | src/main/java/gaillard/mongo/MongoQueueCore.java:252 | replaces or inserts the record under that id |
| Store.Collection.CreateIndex | src/main/java/net/c0f3/queuebox/mongo/MongoQueueCoreIndexes.java:124 | the new key is listed from now on or not, as the server shows it |
| IndexManager.AppendIndexFields | src/main/java/net/c0f3/queuebox/mongo/MongoQueueCoreIndexes.java:57-63 | succeeds exactly when every value is 1 or -1 (else IllegalArgumentException) and then appends each field under its payload path |
| IndexManager.GetIndexKeyLayout | src/main/java/net/c0f3/queuebox/mongo/MongoQueueCoreIndexes.java:50-76 | with distinct, disjoint fields the key is running, the before fields, priority, created, the after fields, earliestGet, in that order |
| IndexManager.GetIndexKeyWf | src/main/java/net/c0f3/queuebox/mongo/MongoQueueCoreIndexes.java:55-75 | the get-index key never repeats a name |
| IndexManager.GetIndexKeyNames | src/main/java/net/c0f3/queuebox/mongo/MongoQueueCoreIndexes.java:57-63 | each before-sort field keeps its slot right after running |
| IndexManager.GetIndexKeyAfterValue | src/main/java/net/c0f3/queuebox/mongo/MongoQueueCoreIndexes.java:67-73 | a field given after the sort holds the after-sort direction |
| IndexManager.GetIndexKeyOverlap | src/main/java/net/c0f3/queuebox/mongo/MongoQueueCoreIndexes.java:57-73 | a field given both before and after the sort stays in its before slot with the after direction |
| IndexManager.CountIndexKeyLayout | src/main/java/net/c0f3/queuebox/mongo/MongoQueueCoreIndexes.java:87-103 | the count key starts with running exactly when asked, followed by the payload fields in order |
| IndexManager.FirstVisible | src/main/java/net/c0f3/queuebox/mongo/MongoQueueCoreIndexes.java:108-125 | the first attempt from the given one whose creation shows, and none before it does |
| IndexManager.EnsureIndexClosedForm | src/main/java/net/c0f3/queuebox/mongo/MongoQueueCoreIndexes.java:107-128 | nothing is created when an equal key is listed; otherwise creation repeats until one shows, at most five times, and succeeds only if an attempt is left to see it |
| IndexManager.EnsureIndexCreations | src/main/java/net/c0f3/queuebox/mongo/MongoQueueCoreIndexes.java:107-128 | at most five createIndex calls, exactly one when the first shows at once |
| IndexManager.ListedIgnoresOrder | src/main/java/net/c0f3/queuebox/mongo/MongoQueueCoreIndexes.java:109-110 | any listed well formed key with the same lookups as the requested one, in whatever order, makes it count as present |
| IndexManager.ListedHasSameLookups | src/main/java/net/c0f3/queuebox/mongo/MongoQueueCoreIndexes.java:109-110 | conversely, a key counts as present only through a listed key with the same lookups |
| IndexManager.LongDirectionRefused | src/main/java/net/c0f3/queuebox/mongo/MongoQueueCoreIndexes.java:58-59 | a direction given as a Long, even 1L, fails the check |
| IndexManager.MongoQueueCoreIndexes.IsListed | src/main/java/net/c0f3/queuebox/mongo/MongoQueueCoreIndexes.java:109-117 | true exactly when some listed key equals the requested one |
| IndexManager.MongoQueueCoreIndexes.EnsureIndex | src/main/java/net/c0f3/queuebox/mongo/MongoQueueCoreIndexes.java:107-128 | its result, resulting index list and createIndex count are those of the retry loop's outcome; records untouched |
| IndexManager.MongoQueueCoreIndexes.EnsureGetIndex | src/main/java/net/c0f3/queuebox/mongo/MongoQueueCoreIndexes.java:50-79 | null arguments are NullPointerException and a bad direction is IllegalArgumentException, both before any index changes; otherwise the get index, then (if that worked) the reset index |
| IndexManager.MongoQueueCoreIndexes.EnsureCountIndex | src/main/java/net/c0f3/queuebox/mongo/MongoQueueCoreIndexes.java:87-105 | null and bad direction fail with the index list untouched; otherwise the outcome of ensuring the count key |
| QueueStorage.ResetFilterMeaning | src/main/java/gaillard/mongo/MongoQueueCore.java:101-103 | the reset filter matches exactly the running records whose reset timestamp has passed |
| QueueStorage.ResetStepIsReset | src/main/java/gaillard/mongo/MongoQueueCore.java:101-103 | the updateMany releases exactly the abandoned leases |
| QueueStorage.ClaimFilterMeaning | src/main/java/gaillard/mongo/MongoQueueCore.java:105-110 | the claim filter matches exactly the records not running, matching the query and due |
| QueueStorage.CountFilterMeaning | src/main/java/gaillard/mongo/MongoQueueCore.java:154-184 | the count filter matches the records with the asked running flag whose payload matches |
| QueueStorage.LeastMatchIsLeastEligible | src/main/java/gaillard/mongo/MongoQueueCore.java:114-123 | the least record for the claim filter is the least eligible record, and back |
| QueueStorage.NoMatchIsNoneEligible | src/main/java/gaillard/mongo/MongoQueueCore.java:120-130 | no record matches the claim filter exactly when none is eligible |
| QueueStorage.AppendPayloadFields | src/main/java/gaillard/mongo/MongoQueueCore.java:106-108 | the loop's document is the base with every query field appended under its payload path |
| QueueStorage.BuiltClaimFilter | src/main/java/gaillard/mongo/MongoQueueCore.java:105-110 | on a well formed query the built filter is running false, the payload fields, then earliestGet |
| QueueStorage.BuiltCountFilter | src/main/java/gaillard/mongo/MongoQueueCore.java:157-162 | on a well formed query the built count filter is the optional running flag then the payload fields |
| QueueStorage.ResetAbandonedEffect | src/main/java/gaillard/mongo/MongoQueueCore.java:101-103 | the reset keeps every record, leaves none abandoned, and changes nothing but the running flag of abandoned ones |
| QueueStorage.ResetAbandonedIdempotent | src/main/java/gaillard/mongo/MongoQueueCore.java:101-103 | resetting twice at one time is resetting once |
| QueueStorage.LeaseOnlyChangeTrans | src/main/java/gaillard/mongo/MongoQueueCore.java:97-133 | lease-only changes compose |
| QueueStorage.ResetIsLeaseOnly | src/main/java/gaillard/mongo/MongoQueueCore.java:101-103 | the reset changes only lease fields |
| QueueStorage.ClaimIsLeaseOnly | src/main/java/gaillard/mongo/MongoQueueCore.java:115 | a claim changes only lease fields |
| QueueStorage.LeaseHolds | src/main/java/gaillard/mongo/MongoQueueCore.java:101-115 | a claimed record cannot be claimed again before its reset timestamp and is released by the next get at or after it |
| QueueStorage.ReturnedIdIsClaimed | src/main/java/gaillard/mongo/MongoQueueCore.java:124-127 | the message get returns names the claimed record under "id", so ack and requeue find it |
| QueueStorage.RequeueRestoresPayload | src/main/java/gaillard/mongo/MongoQueueCore.java:293-295 | requeue of what get returned writes the original payload back when it had no "id" of its own |
| QueueStorage.WaitingEligible | src/main/java/gaillard/mongo/MongoQueueCore.java:324-338 | a sent record is eligible exactly when its payload matches and its earliestGet has come |
| QueueStorage.CountSplits | src/main/java/gaillard/mongo/MongoQueueCore.java:154-184 | count(query) equals count(query, true) plus count(query, false) |
| QueueStorage.CountIsMatching | src/main/java/gaillard/mongo/MongoQueueCore.java:157-163 | the records the count filter matches are those with the asked running flag and a matching payload |
| QueueStorage.MongoQueueCore.EnsureGetIndex | src/main/java/gaillard/mongo/MongoQueueCore.java:38-40 | the get index with nothing after the sort: null and bad direction fail untouched, else the get index then the reset index |
| QueueStorage.MongoQueueCore.BuildClaimFilter | src/main/java/gaillard/mongo/MongoQueueCore.java:105-110 | the filter built is the claim filter |
| QueueStorage.MongoQueueCore.PollClaim | src/main/java/gaillard/mongo/MongoQueueCore.java:118-130 | polls until the deadline; finds the least matching record on the first attempt or none, with no record changed when none |
| QueueStorage.MongoQueueCore.ReleaseAbandoned | src/main/java/gaillard/mongo/MongoQueueCore.java:101-103 | the records afterwards are the abandoned-lease reset of those before |
| QueueStorage.MongoQueueCore.ClaimEligible | src/main/java/gaillard/mongo/MongoQueueCore.java:105-130 | claims the least eligible record and returns its payload with "id", or nothing exactly when none is eligible |
| QueueStorage.MongoQueueCore.Get | src/main/java/gaillard/mongo/MongoQueueCore.java:97-133 | null query is NullPointerException; otherwise after releasing abandoned leases it claims the least eligible record for resetDuration seconds and returns its payload with its id, or null exactly when none is eligible |
| QueueStorage.MongoQueueCore.Count | src/main/java/gaillard/mongo/MongoQueueCore.java:154-184 | null query is NullPointerException; otherwise the number of records with the asked running flag whose payload matches |
| QueueStorage.MongoQueueCore.Ack | src/main/java/gaillard/mongo/MongoQueueCore.java:191-199 | null message is NullPointerException, a non-ObjectId id IllegalArgumentException; otherwise that record is deleted |
| QueueStorage.MongoQueueCore.AckSend | src/main/java/gaillard/mongo/MongoQueueCore.java:230-253 | null arguments, NaN priority and a bad id fail with no change; otherwise the record under the id becomes a waiting record with the new payload |
| QueueStorage.MongoQueueCore.Requeue | src/main/java/gaillard/mongo/MongoQueueCore.java:281-296 | as ackSend with the message itself, minus its "id", as payload |
| QueueStorage.MongoQueueCore.Send | src/main/java/gaillard/mongo/MongoQueueCore.java:324-339 | null arguments and NaN priority fail with no change; otherwise one new waiting record under a fresh id |
| Props.FromProperties | src/main/java/ru/infon/queuebox/common/PropertiesBox.java:7-9 | the box holds exactly the given entries |
| Props.TryGetIntProperty | src/main/java/ru/infon/queuebox/common/PropertiesBox.java:11-24 | a missing name gives the default, and an int default gives an int |
| Props.GetProperty | src/main/java/ru/infon/queuebox/QueueConsumerThread.java:45-46 | getProperty gives the text exactly when the value is a String |
| Props.TryGetNumber | src/main/java/ru/infon/queuebox/common/PropertiesBox.java:17-18 | an integral Number property reads as its low 32 bits; an int reads as itself |
| Props.TryGetFloating | src/main/java/ru/infon/queuebox/common/PropertiesBox.java:17-18 | a Double or Float property is cut toward zero and saturates, so 1e10 reads as INT_MAX |
| Props.TryGetOther | src/main/java/ru/infon/queuebox/common/PropertiesBox.java:20 | an object that is not a String is parsed from its toString, although getProperty returns null for it |
| Props.TryGetText | src/main/java/ru/infon/queuebox/common/PropertiesBox.java:20 | the decimal text of an int reads back as that int |
| Props.TryGetUnparsable | src/main/java/ru/infon/queuebox/common/PropertiesBox.java:20-22 | text that does not parse gives the default |
| Props.TryGetOutOfRange | src/main/java/ru/infon/queuebox/common/PropertiesBox.java:20-22 | the decimal text of a long beyond int range gives the default |
| Stats.RoutedQueueStatistic.Increment | src/main/java/net/c0f3/queuebox/mongo/MongoRoutedQueueStatistic.java:14-24 | a new counter becomes 1 and reports "1"; an existing one goes up by one, so the number getValue reports goes up by one, and LONG_MAX wraps to LONG_MIN; every other counter stays |
| Stats.RoutedQueueStatistic.GetValue | src/main/java/net/c0f3/queuebox/mongo/MongoRoutedQueueStatistic.java:22-24 | the text parses back as the counter, or as -1 when the key is unknown |
| Stats.FirstIncrementReportsOne | src/main/java/net/c0f3/queuebox/mongo/MongoRoutedQueueStatistic.java:14-24 | a counter at 1 reports "1" |
| Messages.NewContainer | src/main/java/ru/infon/queuebox/QueueBox.java:104-110 | a new container holds the message, no id and the default priority |
| Behave.GetString | src/main/java/ru/infon/queuebox/mongo/MongoRoutedQueueBehave.java:81-82 | getString succeeds exactly when the field is a String, null or absent, and gives its text; otherwise ClassCastException |
| Behave.Unwrap | src/main/java/ru/infon/queuebox/mongo/MongoRoutedQueueBehave.java:79-90 | fails (ClassCastException) exactly when destination or source is not a String; otherwise restores id, source and destination on the deserialised message with the default priority |
| Behave.StripRouted | src/main/java/ru/infon/queuebox/mongo/MongoRoutedQueueBehave.java:83-84 | stripping the routing fields forgets that put or reset wrote them |
| Behave.ResetStoredPayload | src/main/java/ru/infon/queuebox/mongo/MongoRoutedQueueBehave.java:103-110 | the record reset writes holds the serialised message with source and destination |
| Behave.ResetThenFind | src/main/java/ru/infon/queuebox/mongo/MongoRoutedQueueBehave.java:66-110 | a message reset wrote back comes out of find whole with its id, but with the default priority |
| Behave.PutThenFind | src/main/java/ru/infon/queuebox/mongo/MongoRoutedQueueBehave.java:53-90 | a message put stored comes out of find whole when the serialiser writes its routing fields |
| Behave.PutIsFoundBy | src/main/java/ru/infon/queuebox/mongo/MongoRoutedQueueBehave.java:53-78 | put's record for destination d is claimable by consumer d exactly once its time has come |
| Behave.ResetIsFoundBy | src/main/java/ru/infon/queuebox/mongo/MongoRoutedQueueBehave.java:66-110 | the record reset writes back at now for a message routed to d is claimable again by consumer d exactly from now on, whatever the serialiser writes |
| Behave.FoundIsAddressed | src/main/java/ru/infon/queuebox/mongo/MongoRoutedQueueBehave.java:67-75 | every document get returns to find carries the consumer's destination |
| Behave.LeaseOnlyKeepsFound | src/main/java/ru/infon/queuebox/mongo/MongoRoutedQueueBehave.java:71-92 | later gets leave the earlier documents tied to their records |
| Behave.FoundDocsUnwrapped | src/main/java/ru/infon/queuebox/mongo/MongoRoutedQueueBehave.java:79-90 | the containers find builds carry their records' ids and the consumer's destination |
| Behave.RoutedQueueBehave.Create | src/main/java/ru/infon/queuebox/mongo/MongoRoutedQueueBehave.java:37-45 | ensures the get index with destination before the sort (a failure fails the construction), then reads fetch limit and reset timeout from the properties with their defaults |
| Behave.RoutedQueueBehave.GetFetchLimit | src/main/java/ru/infon/queuebox/mongo/MongoRoutedQueueBehave.java:48-50 | the configured fetch limit |
| Behave.RoutedQueueBehave.Put | src/main/java/ru/infon/queuebox/mongo/MongoRoutedQueueBehave.java:53-63 | one new waiting record: the plain serialised message, due now, with the container's priority |
| Behave.RoutedQueueBehave.FetchOne | src/main/java/ru/infon/queuebox/mongo/MongoRoutedQueueBehave.java:72-78 | one get for { destination: consumerId } at the call's time: after releasing abandoned leases it leases the least eligible record for resetTimeout seconds and returns its payload with its id; null exactly when, after the release, nothing is eligible, with the records left as released |
| Behave.RoutedQueueBehave.UnwrapFound | src/main/java/ru/infon/queuebox/mongo/MongoRoutedQueueBehave.java:79-90 | the loop body computes Unwrap |
| Behave.RoutedQueueBehave.Find | src/main/java/ru/infon/queuebox/mongo/MongoRoutedQueueBehave.java:66-93 | at most fetchLimit gets, stopping at the first null; the i-th get at the i-th call claims the i-th record (least eligible after the release, leased for resetTimeout seconds), so the containers are consecutive claims in order; they unwrap the claimed documents and carry their ids and the consumer's destination; a non-String routing field is ClassCastException; a short batch ends with a get that found nothing eligible |
| Behave.RoutedQueueBehave.FindStep | src/main/java/ru/infon/queuebox/mongo/MongoRoutedQueueBehave.java:72-90 | one turn of the loop: a get that claims and leases the least eligible record or finds none eligible, and the unwrapping of what it found |
| Behave.ClaimRunSnoc | src/main/java/ru/infon/queuebox/mongo/MongoRoutedQueueBehave.java:71-90 | a run of consecutive claims extended by one more claim is a run of claims |
| Behave.RoutedQueueBehave.Remove | src/main/java/ru/infon/queuebox/mongo/MongoRoutedQueueBehave.java:96-100 | ack of the packet's id: an ObjectId deletes that record, null is NullPointerException, anything else IllegalArgumentException |
| Behave.RoutedQueueBehave.Reset | src/main/java/ru/infon/queuebox/mongo/MongoRoutedQueueBehave.java:103-110 | requeue of the serialised message with source, destination and id: the record becomes waiting, due now, priority 0; the same errors as remove |
| Dispatch.FetchDelay | src/main/java/ru/infon/queuebox/QueueConsumerThread.java:44-49 | the delay property's int value, a negative one included; missing, non-String or unparsable gives 100 |
| Dispatch.FetchDelayText | src/main/java/ru/infon/queuebox/QueueConsumerThread.java:44-49 | the decimal text of an int sets the delay to it |
| Dispatch.FetchDelayIgnoresNumbers | src/main/java/ru/infon/queuebox/QueueConsumerThread.java:44-49 | a Number property is ignored by the delay, though tryGetIntProperty would read it |
| Dispatch.FetchDelayIgnoresOtherObjects | src/main/java/ru/infon/queuebox/QueueConsumerThread.java:44-49 | an object that is not a String, whatever its text, leaves the delay at 100, though tryGetIntProperty would parse it |
| Dispatch.PacketEvents | src/main/java/ru/infon/queuebox/QueueConsumerThread.java:95-126 | a rejected or interrupted packet is reset; a submitted one is delivered, and reset exactly when the handler threw |
| Dispatch.DrainUnblocked | src/main/java/ru/infon/queuebox/QueueConsumerThread.java:88-127 | a drain that does not block handles every packet once, in batch order, and loses one permit per rejection |
| Dispatch.EnoughPermits | src/main/java/ru/infon/queuebox/QueueConsumerThread.java:96-118 | with more permits than rejections the drain never blocks |
| Dispatch.NoPermitsBlocks | src/main/java/ru/infon/queuebox/QueueConsumerThread.java:96 | with no permit left the first packet that is not interrupted blocks the drain |
| Dispatch.DrainStep | src/main/java/ru/infon/queuebox/QueueConsumerThread.java:88-127 | one step of the drain: block without a permit, else that packet's events then the rest |
| Dispatch.QueueConsumerThread.constructor | src/main/java/ru/infon/queuebox/QueueConsumerThread.java:35-52 | the fetch delay from the properties, as many permits as the fetch limit, not running |
| Dispatch.QueueConsumerThread.Start | src/main/java/ru/infon/queuebox/QueueConsumerThread.java:54-61 | sets running and launches the first fetch |
| Dispatch.QueueConsumerThread.Stop | src/main/java/ru/infon/queuebox/QueueConsumerThread.java:63-65 | clears running and nothing else |
| Dispatch.QueueConsumerThread.RunTask | src/main/java/ru/infon/queuebox/QueueConsumerThread.java:149-153 | launches a fetch exactly when running |
| Dispatch.QueueConsumerThread.Schedule | src/main/java/ru/infon/queuebox/QueueConsumerThread.java:155-157 | a negative delay is refused, with IllegalArgumentException from Timer.schedule, and queues nothing; any other delay records the scheduled fetch |
| Dispatch.QueueConsumerThread.SafePacketHandling | src/main/java/ru/infon/queuebox/QueueConsumerThread.java:135-147 | true exactly when the consumer's handler returns normally |
| Dispatch.QueueConsumerThread.HandlePacket | src/main/java/ru/infon/queuebox/QueueConsumerThread.java:94-126 | blocks exactly when a permit is needed and none is free; a rejection keeps the permit, a handled packet returns it; the packet's events are recorded |
| Dispatch.QueueConsumerThread.DrainTurn | src/main/java/ru/infon/queuebox/QueueConsumerThread.java:88-126 | one loop turn is one step of the drain |
| Dispatch.QueueConsumerThread.FetchCompleted | src/main/java/ru/infon/queuebox/QueueConsumerThread.java:67-86 | a fetch that threw, like an empty one, only schedules the next fetch after the delay, or stalls the thread for good when the delay is negative; a fetched batch is drained as onComplete does |
| Dispatch.QueueConsumerThread.OnComplete | src/main/java/ru/infon/queuebox/QueueConsumerThread.java:77-133 | an empty batch schedules the next fetch after the delay, and stalls the thread exactly when the delay is negative (nothing is scheduled); otherwise the batch is drained in order, the permits and events are the drain's, and an unblocked running thread fetches again |
| Engine.QueueEngine.Queue | src/main/java/ru/infon/queuebox/QueueEngine.java:38-41 | put of the container |
| Engine.QueueEngine.GetFetchLimit | src/main/java/ru/infon/queuebox/QueueEngine.java:43-46 | the behaviour's fetch limit |
| Engine.QueueEngine.Fetch | src/main/java/ru/infon/queuebox/QueueEngine.java:48-51 | find for the consumer, with its whole outcome: at most fetchLimit consecutive claims, each of the least eligible record, leased for resetTimeout seconds, unwrapped into a container with its id and the consumer's destination |
| Engine.QueueEngine.Ack | src/main/java/ru/infon/queuebox/QueueEngine.java:53-56 | remove of the packet |
| Engine.QueueEngine.Reset | src/main/java/ru/infon/queuebox/QueueEngine.java:58-61 | reset of the packet |
| Engine.QueueEngine.RegisterConsumer | src/main/java/ru/infon/queuebox/QueueEngine.java:63-75 | a known consumer id is IllegalStateException with nothing changed; a new one gets a fresh, started thread under its id |
| Engine.QueueEngine.Shutdown | src/main/java/ru/infon/queuebox/QueueEngine.java:77-79 | every registered thread stops, nothing else about them changes |
| Box.ForwardingConsumer | src/main/java/ru/infon/queuebox/QueueBox.java:90-102 | the consumer serves the destination |
| Box.ForwardingConsumerForwards | src/main/java/ru/infon/queuebox/QueueBox.java:93-95 | its handler succeeds exactly when the given consumer accepts the message |
| Box.QueueBox.constructor | src/main/java/ru/infon/queuebox/QueueBox.java:41-46 | no behaviour, no executor, no engine, not started |
| Box.QueueBox.WithExecutorService | src/main/java/ru/infon/queuebox/QueueBox.java:48-51 | sets the executor and nothing else |
| Box.QueueBox.WithQueueBehave | src/main/java/ru/infon/queuebox/QueueBox.java:53-57 | stores the behaviour, null included, and a null one is NullPointerException |
| Box.QueueBox.Start | src/main/java/ru/infon/queuebox/QueueBox.java:72-77 | without a behaviour or an executor NullPointerException; otherwise a new engine with no consumers, and started |
| Box.QueueBox.Stop | src/main/java/ru/infon/queuebox/QueueBox.java:79-81 | before start NullPointerException; otherwise every consumer thread stops |
| Box.QueueBox.Subscribe | src/main/java/ru/infon/queuebox/QueueBox.java:83-88 | before start IllegalStateException; otherwise the registration runs, a duplicate leaving the threads unchanged and unseen by the caller |
| Box.QueueBox.SubscribeTo | src/main/java/ru/infon/queuebox/QueueBox.java:90-102 | as subscribe (IllegalStateException before start, a duplicate leaving the threads unchanged, else one fresh started thread with fetchLimit permits), with a consumer for the destination that hands each message to the given one |
| Box.QueueBox.Queue | src/main/java/ru/infon/queuebox/QueueBox.java:104-112 | before start IllegalStateException; otherwise the message is stored due now with the default priority and returned |
| Box.QueueBox.QueueWithPriority | src/main/java/ru/infon/queuebox/QueueBox.java:114-124 | as queue, with the given priority |

## Left out

- Threads, executors, timers and futures. Every task submitted to an executor runs to
  completion at once. `CompletableFuture.supplyAsync` launching a fetch and the timer
  scheduling one are recorded as events; a schedule the timer refuses records none. The
  fetch that follows is not run by the thread model itself.
- Store.Collection: driver failures are not modelled. Every collection operation
  (updateMany, findOneAndUpdate, insertOne, updateOne, deleteOne, countDocuments,
  listIndexes, createIndex) succeeds, so no MongoException reaches the caller. In
  particular a `get` that throws part way through `find`'s loop
  (MongoRoutedQueueBehave.java:69-92), which leaves the records claimed so far leased
  until their reset timestamp and returns no container, is not captured. A fetch that
  throws is still an input to `Dispatch.QueueConsumerThread.FetchCompleted`.
- Concurrent clients of the collection. Each collection operation is one atomic step. No
  other process writes between the attempts of one `get`.
- `Thread.sleep(pollDuration)` between polls. `find` passes a poll duration of 0.
- `get` reads the clock three times before polling: `new Date()` for the reset filter,
  `new Date()` for the claim filter, and `Instant.now()` for the lease deadline. The
  model takes all three as one `now`.
- `Integer.parseInt` is limited to ASCII digits; non-ASCII decimal digits are not modelled.
- Serialiser exceptions. The Jackson-based serializer is not part of this model.
- Query operators other than `$lte`, and dotted paths inside the payload. Filters are
  equality on payload fields plus the `$lte` of `earliestGet` and `resetTimestamp`.
- NaN and infinite Double or Float property values. A floating property value is a
  finite real, so `intValue` of NaN (0) and of the infinities (the int bounds) is not
  modelled.
- Numeric matching across number classes. A filter value matches only a field of its
  own class, so an Integer query value does not match a Long field. MongoDB compares
  numbers by value, and the queue's own filters never mix classes.
- Double priorities. A priority is a whole number or NaN, because the queue box only
  passes ints.
- Index names, options and background building. Only the key documents are modelled.
- Logging.
- The overloads that only supply defaults: `get(query, resetDuration)` and the other
  short `get` forms, `ensureGetIndex()`, `ackSend`, `requeue` and `send` without an
  earliestGet or priority. Each one calls the full form that is modelled.
- `setContext`, `withStatistic`, `getStatistic` and `getProperties`. These only pass
  objects along.
- `setCallback` on packets. The callbacks it installs are the engine's `ack` and `reset`,
  which are modelled.
- MongoConnection and MongoRoutedQueueBox. They wire up the objects and are not part of
  this model.
- MessageContainer is not part of this model. Its default priority is taken to be the
  documented normal priority, 4.
- Box.QueueBox.Subscribe: states the new thread's consumer, permits and first event, but
  not its fetch delay (that is stated by `Engine.QueueEngine.RegisterConsumer`).
- Dispatch.QueueConsumerThread.OnComplete: the drain's iterator is always at the head of
  the batch, because every turn removes the packet it took. The re-wind of an exhausted
  iterator is kept in the loop but never changes the packet chosen.
- Store.Collection.InsertOne: picks any unused id. The driver's ObjectId layout
  (timestamp, counter) is not modelled.
- Store.SelectLeast: the order among records that tie on (priority, created) is left
  open, as it is to the server.
