# Loan approval store: a Dafny model

This project models the in-memory approval store of the loan-approval service. The store is the class `LoanRepository`. The model also covers the value logic the store relies on:

- the mergeable decimal accumulator `BigDecimalSummaryStatistics`;
- its wrapper `Statistics.calculate`;
- the ordering of the event index, `EventKey.compareTo`;
- the two-phase identity of `LoanApprovalRequest`, that is, its `equals` and `hashCode`.

Everything is sequential: one caller at a time.

Files and modules:

- `wrappers.dfy` (`Wrappers`): `Option` and `Outcome`. An `Outcome` is either `Pass` or `Fail(error)`, and stands for an exception thrown by the store: a `BusinessRuleException`, or the NullPointerException of a request whose approver set, or one of whose approver names, is null. An `Option` stands for a nullable field; as the result of `GetStatistics` and `CalculateNullable`, `None` is the NullPointerException of `accept(null)`.
- `finance.dfy` (`Finance`): the accumulator.
  - It is a class whose fields `sum`, `min`, `max` and `count` are updated in place by `Accept` and `Merge`.
  - Each method is specified by a pure function of the fields, `AcceptValue` and `MergeValue`.
  - `Accumulate` folds a sequence through `AcceptValue`.
  - The lemmas prove the properties of these spec functions: count and total, bounds, merge identity, commutativity and associativity, the merge homomorphism, and order independence.
  - `Collect` is the stream collector: a loop of `Accept` calls.
- `stats.dfy` (`Stats`): `Calculate`, the `Statistics` record of a list of amounts. It includes the concrete results that the repository's tests assert.
- `events.dfy` (`Events`): uuids, instants and `EventKey.compareTo`.
  - The `ConcurrentSkipListMap<EventKey, UUID>` is modelled as a sequence of entries, in insertion order. Order does not matter here, since only `putIfAbsent` and `tailMap(...).values()` are used.
  - `putIfAbsent` is modelled as `PutIfAbsent`, and `tailMap(probe).values()` as `TailValues`.
- `requests.dfy` (`Requests`): `DecisionState`, `Approver`, `Decision` and `LoanApprovalRequest`, together with `equals` and `hashCode`. `Objects.hash` and `String.hashCode` are written out with 32-bit wrap-around; `StringHash` folds one value per character, which is `String.hashCode` for strings in the Basic Multilingual Plane (BMP), such as the ASCII customer ids the request form allows.
- `repository.dfy` (`Repository`): the store. It has fields for the event index, the pending entries, the finalised keys, and a ghost log of dispatched notifications.
  - `SaveAsPending`, `Save`, `ProcessDecisions`, `GetDecisionMap` and `GetStatistics` are methods.
  - The store invariant is `StoreInvariant`.
- `scenarios.dfy` (`Scenarios`): the repository's test cases restated over the model. These cover the one-minute window, duplicate pending requests, two producers, unanimity, a split ledger, an unknown customer, and requests with a null amount, a null approver set or an approver with a null name.
  - The window test writes to the repository's maps directly, without `saveAsPending`, and leaves keys without uuids in the index. `OneMinuteWindowScenario` does the same: it sets the store's fields and calls `GetStatistics`, which works on any store.

Representation choices. Each follows from the code:

- **Amounts** are `real`. `BigDecimal` addition and comparison are exact, so this is faithful except for the rounded average (see Left out).
- **Instants** are epoch nanoseconds. `EpochMilli` floors: Dafny's `/` by a positive divisor is floor division, which matches `Instant.toEpochMilli`.
- **UUIDs** are their two signed `long` halves. They are compared first by the most significant half, then by the least, as `UUID.compareTo` does.
- **Storage.** The store is a `ConcurrentHashMap<ApprovalRequest, ledger>`. Because of the phase-dependent `equals` and `hashCode`, it behaves like two tables, each entry with a ledger:
  - PENDING keys are found by `customerId` alone. They are modelled as `pending: map<customerId, PendingEntry(request, ledger)>`.
  - A final key equals another key only when all six fields match. `processDecisions` stores it under `LookupKey(customerId)` with the state set.
  - Every final key maps to the same ledger object as the pending entry it came from. So only the set of final keys, `finalised`, is kept.
  - `Equals`, `PendingLookupMatches` and `FinalKeyIsNewEntry` prove that this abstraction gives the lookups the code performs.
- **The code as written.** The model keeps two behaviours of the code that a reader might not expect:
  - `processDecisions` sets the final state on the *lookup key*, not on the stored pending key. The pending entry therefore stays. The customer stays blocked for `saveAsPending`, stays findable by `save`, and every later unanimous `save` dispatches again (`UnanimousApprovalScenario`).
  - `save` does not check that the approver is in the ledger. An unknown name is added as a new key.
- **The window boundary.** The window of `getStatistics` is inclusive at its lower end: an event exactly `period` old is counted. This follows from the code:
  - the probe `new EventKey(now - period)` has a null uuid;
  - `compareTo` compares only milliseconds, and calls a same-millisecond key with a null uuid equal;
  - so `tailMap` includes every event in the cutoff's millisecond, including one exactly `period` old (`ProbeIsInclusive`, `WindowLowerEdgeIncluded`).

## Model

| member | source | states |
|---|---|---|
| Finance.BigDecimalSummaryStatistics.constructor | src/main/java/com/example/loans/finance/BigDecimalSummaryStatistics.java:19-26 | a fresh accumulator has count 0 and sum, min and max all 0 |
| Finance.BigDecimalSummaryStatistics.Accept | src/main/java/com/example/loans/finance/BigDecimalSummaryStatistics.java:28-41 | the new fields are `AcceptValue` of the old ones; the first accept sets count 1 and sum = min = max = t |
| Finance.BigDecimalSummaryStatistics.Merge | src/main/java/com/example/loans/finance/BigDecimalSummaryStatistics.java:43-58 | returns the receiver itself; its new fields are `MergeValue` of the old receiver and the argument |
| Finance.BigDecimalSummaryStatistics.GetAvg | src/main/java/com/example/loans/finance/BigDecimalSummaryStatistics.java:60-62 | with count 0 or 1 the average is the sum itself; with count >= 2, average times count is the sum |
| Finance.Collect | src/main/java/com/example/loans/finance/BigDecimalSummaryStatistics.java:13-17 | accepting the values one by one into a fresh accumulator leaves it holding `Accumulate` of the whole sequence |
| Finance.AccumulateWellFormed | src/main/java/com/example/loans/finance/BigDecimalSummaryStatistics.java:28-41 | an accumulator with count 0 holds zeros, and one that has accepted a value has positive count |
| Finance.AccumulateCountSum | src/main/java/com/example/loans/finance/BigDecimalSummaryStatistics.java:28-40 | after accepting xs, count is the length of xs and sum is its total |
| Finance.AccumulateBounds | src/main/java/com/example/loans/finance/BigDecimalSummaryStatistics.java:37-38 | after accepting a non-empty xs, min and max are elements of xs, and every element lies between them |
| Finance.MergeIdentity | src/main/java/com/example/loans/finance/BigDecimalSummaryStatistics.java:44-49 | merging an empty accumulator changes nothing; merging into an empty one copies the four fields |
| Finance.AcceptAfterMerge | src/main/java/com/example/loans/finance/BigDecimalSummaryStatistics.java:28-58 | accepting a value after a merge is merging with the second accumulator after it accepted that value, the step of the merge homomorphism |
| Finance.AccumulateConcat | src/main/java/com/example/loans/finance/BigDecimalSummaryStatistics.java:50-55 | merging the accumulators of xs and ys equals accumulating xs followed by ys |
| Finance.MergeCommutative | src/main/java/com/example/loans/finance/BigDecimalSummaryStatistics.java:43-58 | merge of two well-formed accumulators does not depend on their order |
| Finance.MergeAssociative | src/main/java/com/example/loans/finance/BigDecimalSummaryStatistics.java:43-58 | merge is associative, so a parallel collector may combine partial results in any grouping |
| Finance.AccumulatePermutation | src/main/java/com/example/loans/finance/BigDecimalSummaryStatistics.java:28-41 | two sequences with the same multiset of values give the same count, sum, min and max |
| Finance.PresentAll | src/main/java/com/example/loans/finance/BigDecimalSummaryStatistics.java:28-41 | a list without null has as many non-null values as elements, in the same order |
| Finance.AcceptAllNull | src/main/java/com/example/loans/finance/BigDecimalSummaryStatistics.java:28-41 | streaming a list through accept throws exactly when some element is null (requireNonNull first, sum.add later); otherwise it leaves the accumulator of the values |
| Stats.Calculate | src/main/java/com/example/loans/model/Statistics.java:27-36 | count is the number of amounts and sum their total; min and max are amounts bounding every amount; no amounts gives all zeros; avg is the sum below two amounts and sum/count from two on |
| Stats.CalculateNullable | src/main/java/com/example/loans/model/Statistics.java:27-36 | on a list that may hold null: it throws exactly when some amount is null, and otherwise equals the statistics of the values |
| Stats.CalculateSingle | src/test/java/com/example/loans/dao/LoanRepositoryTest.java:52-58 | one amount x gives count 1 and sum = avg = min = max = x |
| Stats.CalculatePermutation | src/main/java/com/example/loans/model/Statistics.java:27-28 | reordering the amounts does not change the statistics |
| Stats.CalculateSplit | src/main/java/com/example/loans/finance/BigDecimalSummaryStatistics.java:13-17 | the statistics of xs followed by ys come from merging the accumulators of the two parts |
| Stats.CalculateTwoProducers | src/test/java/com/example/loans/dao/LoanRepositoryTest.java:137-141 | amounts 123.01 and 1023.55 give count 2, sum 1146.56, avg 573.28, max 1023.55, min 123.01 |
| Stats.CalculateThreeInWindow | src/test/java/com/example/loans/dao/LoanRepositoryTest.java:175-179 | amounts 111.01, 121.01 and 131.01 give count 3, sum 363.03, avg 121.01, max 131.01, min 111.01 |
| Events.CompareUuid | src/main/java/com/example/loans/model/EventKey.java:28 | the uuid comparison is -1, 0 or 1, and is 0 exactly for equal uuids |
| Events.EpochMilli | src/main/java/com/example/loans/model/EventKey.java:24 | the millisecond of an instant is its floor: that millisecond starts at or before the instant and the next one after it |
| Events.Compare | src/main/java/com/example/loans/model/EventKey.java:22-32 | the key comparison is -1, 0 or 1 |
| Events.CompareByMillis | src/main/java/com/example/loans/model/EventKey.java:24-26 | keys in different milliseconds are ordered by their milliseconds alone, whatever their uuids |
| Events.CompareSameMillisByUuid | src/main/java/com/example/loans/model/EventKey.java:27-28 | keys in the same millisecond, both with uuids, are ordered by uuid |
| Events.CompareSameMillisNullUuid | src/main/java/com/example/loans/model/EventKey.java:29-31 | keys in the same millisecond where either uuid is null compare as 0 |
| Events.ProbeIsInclusive | src/main/java/com/example/loans/model/EventKey.java:18-31 | a key is at or after the probe of instant t exactly when its millisecond is at or after t's |
| Events.SubMillisecondIgnored | src/main/java/com/example/loans/model/EventKey.java:24 | replacing a timestamp by another in the same millisecond changes no comparison |
| Events.CompareAntisymmetric | src/main/java/com/example/loans/model/EventKey.java:24-31 | compare(a, b) is the negation of compare(b, a) |
| Events.CompareZeroWithUuids | src/main/java/com/example/loans/model/EventKey.java:24-28 | two keys with uuids compare as 0 exactly when they share millisecond and uuid |
| Events.CompareIsLexicographic | src/main/java/com/example/loans/model/EventKey.java:24-28 | with uuids present, the order is lexicographic on (millisecond, uuid) |
| Events.CompareTransitive | src/main/java/com/example/loans/model/EventKey.java:24-28 | with uuids present, the order is transitive |
| Events.NullUuidBreaksTransitivity | src/main/java/com/example/loans/model/EventKey.java:27-31 | two distinct keys of one millisecond both compare 0 with the probe of that millisecond, yet not with each other |
| Events.CompareReflexive | src/main/java/com/example/loans/model/EventKey.java:24-31 | every key compares as 0 with itself |
| Events.PutIfAbsentKeeps | src/main/java/com/example/loans/dao/LoanRepository.java:50 | putIfAbsent keeps every mapping and adds at most one; afterwards a key comparing 0 with the given key is present, and the index grew, by exactly the new mapping, exactly when no such key was there before |
| Events.PutFreshAppends | src/main/java/com/example/loans/dao/LoanRepository.java:47-50 | a key made from a uuid the index does not hold is always inserted |
| Events.TailValues | src/main/java/com/example/loans/dao/LoanRepository.java:147 | the tail values are uuids that the index maps to |
| Events.TailFromProbe | src/main/java/com/example/loans/dao/LoanRepository.java:147 | a uuid is among the tail values from the probe of t exactly when some event maps to it in t's millisecond or later |
| Events.WindowLowerEdgeIncluded | src/main/java/com/example/loans/dao/LoanRepository.java:147 | an event in the same millisecond as now - period is inside the window |
| Requests.EqualsReflexive | src/main/java/com/example/loans/model/LoanApprovalRequest.java:43 | every request equals itself |
| Requests.Equals | src/main/java/com/example/loans/model/LoanApprovalRequest.java:42-57 | in either phase, equal requests belong to one customer |
| Requests.PendingEqualsByCustomer | src/main/java/com/example/loans/model/LoanApprovalRequest.java:44-48 | a PENDING receiver equals a request exactly when the customer ids agree |
| Requests.FinalEqualsAllFields | src/main/java/com/example/loans/model/LoanApprovalRequest.java:49-55 | a non-PENDING receiver equals a request exactly when all six fields agree |
| Requests.EqualsNotSymmetric | src/main/java/com/example/loans/model/LoanApprovalRequest.java:47-55 | a pending request equals an approved one with the same customer and another amount, but not the other way round |
| Requests.Fold31 | src/main/java/com/example/loans/model/LoanApprovalRequest.java:59-66 | the 31-polynomial hash of int32 values is an int32 |
| Requests.HashCode | src/main/java/com/example/loans/model/LoanApprovalRequest.java:59-66 | the hash code is a Java int in both phases |
| Requests.PendingHashAgreesWithEquals | src/main/java/com/example/loans/model/LoanApprovalRequest.java:61-62 | equal PENDING requests have equal hash codes |
| Requests.Wrap32Eq | src/main/java/com/example/loans/model/LoanApprovalRequest.java:64 | two values wrap to the same int32 exactly when they agree modulo 2^32 |
| Requests.Times31Injective | src/main/java/com/example/loans/model/LoanApprovalRequest.java:64 | multiplying by 31 is injective on int32 modulo 2^32 |
| Requests.Fold31OneElement | src/main/java/com/example/loans/model/LoanApprovalRequest.java:64 | changing one element of the hashed list preserves the hash exactly when the change is a multiple of 2^32 |
| Requests.FinalHashCoversEveryField | src/main/java/com/example/loans/model/LoanApprovalRequest.java:63-65 | for final requests differing in one field's hash only, the hashes agree exactly when that field's hashes agree modulo 2^32 |
| Repository.Consensus | src/main/java/com/example/loans/dao/LoanRepository.java:125-134 | a final state is never PENDING and is the state of every decision; there is none exactly when some decision is PENDING or two decisions differ; an empty ledger counts as APPROVED |
| Repository.NoConsensusWhenMixedOrPending | src/main/java/com/example/loans/dao/LoanRepository.java:141-143 | a ledger holding a pending decision, or an approval and a decline, has no consensus |
| Repository.UnanimousDecline | src/main/java/com/example/loans/dao/LoanRepository.java:126-134 | a non-empty all-declined ledger ends DECLINED |
| Repository.AllMatchExclusive | src/main/java/com/example/loans/dao/LoanRepository.java:141-143 | allMatch is true of an empty ledger for every state, and a non-empty ledger matches at most one state |
| Repository.PresentAmounts | src/main/java/com/example/loans/dao/LoanRepository.java:149-152 | when no selected key has a null amount, the collector sees exactly the keys' amounts |
| Repository.AmountsOfPermutation | src/main/java/com/example/loans/dao/LoanRepository.java:149-152 | reordering the selected keys reorders their amounts |
| Repository.Enumeration | src/main/java/com/example/loans/dao/LoanRepository.java:149 | some sequence lists each key of the key set exactly once |
| Repository.EnumerationMultiset | src/main/java/com/example/loans/dao/LoanRepository.java:149 | a sequence listing each element of a set once has that set's multiset |
| Repository.EnumerationsArePermutations | src/main/java/com/example/loans/dao/LoanRepository.java:149 | any two iteration orders of a set are permutations of each other |
| Repository.StatisticsOfAnyOrder | src/main/java/com/example/loans/dao/LoanRepository.java:149-154 | whatever order the key set is iterated in, the statistics are the same |
| Repository.WindowKeysMembership | src/main/java/com/example/loans/dao/LoanRepository.java:147-150 | a key is selected exactly when it is stored, has a uuid, and some event maps to that uuid in the cutoff's millisecond or later |
| Repository.EventKeepsInvariant | src/main/java/com/example/loans/dao/LoanRepository.java:47-50 | indexing an event under a fresh uuid keeps the store invariant and adds exactly that uuid |
| Repository.PendingEntryKeepsInvariant | src/main/java/com/example/loans/dao/LoanRepository.java:62 | adding a well-formed entry for a customer without one keeps the store invariant |
| Repository.PendingRequestsSize | src/main/java/com/example/loans/dao/LoanRepository.java:57-62 | pending entries keyed by their own customer id hold as many distinct requests as customers |
| Repository.LoanRepository.constructor | src/main/java/com/example/loans/dao/LoanRepository.java:31-37 | a new store is empty and satisfies the invariant |
| Repository.LoanRepository.PendingLookupMatches | src/main/java/com/example/loans/dao/LoanRepository.java:57-106 | the PENDING lookup key equals a stored key exactly when the customer has a pending entry, and it equals only that customer's pending request |
| Repository.LoanRepository.FinalKeyIsNewEntry | src/main/java/com/example/loans/dao/LoanRepository.java:131-136 | the lookup key with a final state equals no stored pending request, so storing it adds an entry |
| Repository.LoanRepository.StorageSize | src/main/java/com/example/loans/dao/LoanRepository.java:62-136 | storage.size() is the number of pending customers plus the number of final keys, the two kinds of key never being equal |
| Repository.LoanRepository.GetDecisionMap | src/main/java/com/example/loans/dao/LoanRepository.java:72-84 | it throws exactly when the approver set is null or some approver's name is null (`ApproversMissing`); otherwise the ledger has exactly one key per approver name, each mapped to a PENDING decision of that customer and approver |
| Repository.LoanRepository.SaveAsPending | src/main/java/com/example/loans/dao/LoanRepository.java:44-70 | the event (now, uuid) is always appended and the uuid set on the request; it fails exactly when the customer has a pending entry (duplicate) or, failing that, the approver set or an approver's name is null (NullPointerException), then with pending storage unchanged; otherwise it adds the customer with a fresh PENDING ledger and changes no other entry; a null amount is stored as it is |
| Repository.LoanRepository.Save | src/main/java/com/example/loans/dao/LoanRepository.java:92-116 | a PENDING decision, or one for a customer without a pending entry, fails with nothing changed; otherwise the decision is written under its approver name (overwriting or adding) and consensus is applied to the updated ledger |
| Repository.LoanRepository.ProcessDecisions | src/main/java/com/example/loans/dao/LoanRepository.java:124-139 | on consensus the final key is stored and exactly one notification with the ledger is dispatched; otherwise nothing changes; the pending entries never change |
| Repository.LoanRepository.WindowKeysArePending | src/main/java/com/example/loans/dao/LoanRepository.java:147-150 | the filter selects only pending requests, each the stored request of its customer: a final key has a null uuid |
| Repository.LoanRepository.WindowAmounts | src/main/java/com/example/loans/dao/LoanRepository.java:149-152 | the loop visits each selected key exactly once and collects its amount, null included: every collected amount is a selected key's, and every selected key's amount is collected |
| Repository.LoanRepository.GetStatistics | src/main/java/com/example/loans/dao/LoanRepository.java:145-157 | on any store: it throws exactly when some selected key has a null amount; otherwise the result is the statistics of the amounts of exactly the stored keys whose uuid an event maps to at or after now - period |
| Scenarios.OneMinuteWindowIds | src/test/java/com/example/loans/dao/LoanRepositoryTest.java:153-157 | events aged 10, 20 and 30 seconds are in a one-minute window; those aged 66 and 90 seconds are not |
| Scenarios.OneMinuteWindowStatistics | src/test/java/com/example/loans/dao/LoanRepositoryTest.java:159-179 | for the five stored requests, the window selects three, giving count 3, sum 363.03, avg 121.01, max 131.01, min 111.01 |
| Scenarios.WindowTestStorage | src/test/java/com/example/loans/dao/LoanRepositoryTest.java:159-169 | the five storage.put calls store exactly the five test requests |
| Scenarios.WindowTestStorageSize | src/test/java/com/example/loans/dao/LoanRepositoryTest.java:173 | the five test requests are five stored keys |
| Scenarios.WindowTestAmounts | src/test/java/com/example/loans/dao/LoanRepositoryTest.java:193-203 | every test request carries an amount |
| Scenarios.OneMinuteWindowScenario | src/test/java/com/example/loans/dao/LoanRepositoryTest.java:145-180 | getStatistics on the test's store: five stored keys, five events, and count 3, sum 363.03, avg 121.01, max 131.01, min 111.01 |
| Scenarios.SingleRequestWindow | src/test/java/com/example/loans/dao/LoanRepositoryTest.java:52-58 | a request saved now with amount 111.01 gives count 1 and sum = avg = min = max = 111.01 |
| Scenarios.DuplicateSaves | src/test/java/com/example/loans/dao/LoanRepositoryTest.java:47-51 | the second pending request of customer OK-XXXX-AAA, built ten seconds before now, fails as a duplicate, and only the first is stored |
| Scenarios.DuplicatePendingScenario | src/test/java/com/example/loans/dao/LoanRepositoryTest.java:44-59 | the duplicate fails with the duplicate message, one key is stored, and getStatistics gives count 1 and sum = avg = min = max = 111.01 |
| Scenarios.TwoProducersSave | src/test/java/com/example/loans/dao/LoanRepositoryTest.java:70-136 | three saves per customer leave six events and only the first request of each customer stored |
| Scenarios.TwoProducersStored | src/test/java/com/example/loans/dao/LoanRepositoryTest.java:135-136 | after both producers the storage holds two keys, the first request of each, and the index six events |
| Scenarios.TwoProducersScenario | src/test/java/com/example/loans/dao/LoanRepositoryTest.java:61-142 | getStatistics after both producers: two stored keys, six events, count 2, sum 1146.56, avg 573.28, max 1023.55, min 123.01 |
| Scenarios.ProducerWindowStatistics | src/test/java/com/example/loans/dao/LoanRepositoryTest.java:137-141 | the first requests of the two producers give count 2, sum 1146.56, avg 573.28, max 1023.55, min 123.01 |
| Scenarios.ApproveByBoth | src/main/java/com/example/loans/dao/LoanRepository.java:113-137 | approvals by both approvers store one final APPROVED key and dispatch one notification, while the pending entry stays |
| Scenarios.UnanimousApprovalScenario | src/main/java/com/example/loans/dao/LoanRepository.java:57-137 | after finalisation the customer is still pending, so a new request fails as a duplicate; a further approval succeeds and dispatches a second notification, the final key staying the same |
| Scenarios.SplitDecisionScenario | src/main/java/com/example/loans/dao/LoanRepository.java:95-143 | an approval and a decline leave the request pending with no final key, and a PENDING decision is refused |
| Scenarios.UnknownCustomerScenario | src/test/java/com/example/loans/LoansApplicationTestIT.java:48-69 | a decision for XX-XXXX-X3X, which has no pending request, fails with the message the integration test expects |
| Scenarios.NullAmountScenario | src/main/java/com/example/loans/dao/LoanRepository.java:44-157 | a request with a null amount is stored, and the next getStatistics whose window selects it throws |
| Scenarios.NullApproversScenario | src/main/java/com/example/loans/dao/LoanRepository.java:47-84 | a request with a null approver set is indexed but not stored: getDecisionMap throws |
| Scenarios.NullApproverNameScenario | src/main/java/com/example/loans/dao/LoanRepository.java:75-81 | a request with an approver whose name is null is indexed but not stored: `decisions.put` throws on the null key |

## Left out

- Concurrency. This covers the atomicity of `ConcurrentHashMap` and `ConcurrentSkipListMap`, the race between `containsKey` and `putIfAbsent`, and the thread pool. The model serves one caller at a time, so the second duplicate branch of `saveAsPending` (LoanRepository.java:62-69) cannot be reached and is not modelled.
- The two producers of the concurrency test are modelled as one interleaving of their calls. Every interleaving stores the same two requests and six events.
- `NotifyCustomerTask` and `ThreadPoolTaskScheduler.execute` are an asynchronous foreign call. The dispatch is a ghost `notifications` log of (final key, ledger).
- The notification task holds the live ledger object, which later `save` calls keep changing. The log records the ledger as it was at dispatch.
- The final key stored by `processDecisions` shares the ledger object with the pending entry. The model keeps only the set of final keys, not a second copy of the ledger.
- Finance.BigDecimalSummaryStatistics.GetAvg: the average for count >= 2 is exact `sum / count`. It is not `BigDecimal.divide` rounded to DECIMAL128.
- BigDecimal scale is not modelled: `equals` on amounts is value equality.
- Finance.BigDecimalSummaryStatistics.Accept: `count` is a `long` in the source. The model's `nat` does not wrap after 2^63 accepts.
- Requests.HashCode: the hashes of `BigDecimal`, `Set<Approver>`, `ZonedDateTime`, the enum and `UUID` are a parameter (`FieldHashes`). `Objects.hash` and `String.hashCode` themselves are written out.
- The bucket mechanics of Java hash tables are replaced by the map and set of the storage abstraction. The equality lemmas justify that abstraction.
- Repository.Message: the duplicate-request message is modelled up to the request's `toString` rendering, which is Lombok-generated text.
- Time zones of `ZonedDateTime` are not modelled. A timestamp is its instant. `compareTo` reads only `toInstant().toEpochMilli()`. `equals` and `hashCode` of a request do read the zone, through `ZonedDateTime.equals` and `hashCode`, but never where it could matter here: a PENDING request's equality and hash ignore the timestamp, and a final key's timestamp is null.
- `ZonedDateTime.now()` and `UUID.randomUUID()` are parameters of `SaveAsPending` and `GetStatistics`. The uuid must not be in the index yet, as a random uuid practically never is.
- The caller's request object is updated in place by `setUuid`. The model returns the updated request as `stamped` and stores that value.
- `Decision.loanApprovalRequestId` and `Decision.compareTo` are never read by the store.
- `equals` against `null` or an object of another class, and the reference-equality shortcut, are covered by reflexivity only.
- `LoanController`, `LoanService`, `ErrorHandlingControllerAdvice`, `RepositoryConfiguration`, Lombok getters, setters and builders, `toString` and logging are not part of this model.
- DTO validation (the customer-id pattern, a positive amount of at most three integer digits, one to three approvers) happens before the store and is not modelled. Those constraints accept a null amount and a null approver list, so the store's model takes requests with either field null: `SaveAsPending` stores a null amount, `GetStatistics` throws on it, and `GetDecisionMap` throws on null approvers. (`LoanService` itself would already throw on a null approver list.) They also accept a null element of the approver list, which `LoanService` turns into an approver with a null name; `Approver.name` is therefore an `Option`, and `GetDecisionMap` throws on it as `ConcurrentHashMap.put` does.
- The `Approver` class is not part of this model. It is taken to be a record of its name whose constructor accepts a null name.
- Repository.LoanRepository.SaveAsPending: requires a PENDING request, as `LoanService.saveApproval` always builds. A non-PENDING argument would be looked up by full equality, which the model does not cover.
