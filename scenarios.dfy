/**
 * The repository's own test cases, restated over the model: the time window
 * of `getStatistics`, duplicate pending requests, two producers, unanimity.
 */
module Scenarios {
  import opened Wrappers
  import opened Events
  import opened Requests
  import opened Stats
  import opened Repository

  const Minute := 60 * NanosPerSecond
  const SmallLoanApprover := Approver(Some("Under €1_000 Approver"))

  /** The window test's customers, `"OK-XXXX-"` followed by a three-digit suffix. */
  const Customer1 := "OK-XXXX-001"
  const Customer2 := "OK-XXXX-002"
  const Customer3 := "OK-XXXX-003"
  const Customer4 := "OK-XXXX-004"
  const Customer5 := "OK-XXXX-005"

  /** A stored pending request as the window test builds it, created ten seconds before `now`. */
  function TestRequest(now: Instant, customerId: string, amount: real, u: Uuid): LoanApprovalRequest {
    LoanApprovalRequest(customerId, Some(amount), Some({SmallLoanApprover}),
                        Some(now - 10 * NanosPerSecond), PENDING, Some(u))
  }

  /** Floor division by a positive constant is monotone, and a millisecond apart means a different millisecond. */
  lemma EpochMilliMonotone(a: Instant, b: Instant)
    ensures a <= b ==> EpochMilli(a) <= EpochMilli(b)
    ensures a + NanosPerMilli <= b ==> EpochMilli(a) < EpochMilli(b)
  {
    var qa, ra := a / NanosPerMilli, a % NanosPerMilli;
    var qb, rb := b / NanosPerMilli, b % NanosPerMilli;
    assert a == qa * NanosPerMilli + ra && b == qb * NanosPerMilli + rb;
  }

  function WindowTestEvents(now: Instant, u: seq<Uuid>): seq<Entry>
    requires |u| == 5
  {
    [Entry(Probe(now - 10 * NanosPerSecond), u[0]),
     Entry(Probe(now - 20 * NanosPerSecond), u[1]),
     Entry(Probe(now - 30 * NanosPerSecond), u[2]),
     Entry(Probe(now - 66 * NanosPerSecond), u[3]),
     Entry(Probe(now - 90 * NanosPerSecond), u[4])]
  }

  function WindowTestKeys(now: Instant, u: seq<Uuid>): set<LoanApprovalRequest>
    requires |u| == 5
  {
    {TestRequest(now, Customer1, 111.01, u[0]), TestRequest(now, Customer2, 121.01, u[1]),
     TestRequest(now, Customer3, 131.01, u[2]), TestRequest(now, Customer4, 141.01, u[3]),
     TestRequest(now, Customer5, 151.01, u[4])}
  }

  /** Events aged 10, 20 and 30 seconds are inside a one-minute window; 66 and 90 seconds are not. */
  lemma OneMinuteWindowIds(now: Instant, u: seq<Uuid>)
    requires |u| == 5
    ensures TailValues(WindowTestEvents(now, u), Probe(now - Minute)) == {u[0], u[1], u[2]}
  {
    var events := WindowTestEvents(now, u);
    var cutoff := now - Minute;
    EpochMilliMonotone(cutoff, now - 10 * NanosPerSecond);
    EpochMilliMonotone(cutoff, now - 20 * NanosPerSecond);
    EpochMilliMonotone(cutoff, now - 30 * NanosPerSecond);
    EpochMilliMonotone(now - 66 * NanosPerSecond, cutoff);
    EpochMilliMonotone(now - 90 * NanosPerSecond, cutoff);
    forall e | e in events
      ensures Compare(e.key, Probe(cutoff)) >= 0 <==> e.value in {u[0], u[1], u[2]} && e != events[3] && e != events[4]
    {
      ProbeIsInclusive(e.key, cutoff);
    }
    assert events[0] in events && events[1] in events && events[2] in events;
    ProbeIsInclusive(events[0].key, cutoff);
    ProbeIsInclusive(events[1].key, cutoff);
    ProbeIsInclusive(events[2].key, cutoff);
  }

  /** StatisticsOf a one-, two- or three-key set, in listing order. */
  lemma StatisticsOfOne(k: LoanApprovalRequest)
    ensures StatisticsOf({k}) == Calculate([Amount(k)])
  {
    assert Enumerates([k], {k});
    StatisticsOfAnyOrder({k}, [k]);
    assert AmountsOf([k]) == [Amount(k)];
  }

  lemma StatisticsOfTwo(k1: LoanApprovalRequest, k2: LoanApprovalRequest)
    requires k1 != k2
    ensures StatisticsOf({k1, k2}) == Calculate([Amount(k1), Amount(k2)])
  {
    assert Enumerates([k1, k2], {k1, k2});
    StatisticsOfAnyOrder({k1, k2}, [k1, k2]);
    assert AmountsOf([k1, k2]) == [Amount(k1), Amount(k2)];
  }

  lemma StatisticsOfThree(k1: LoanApprovalRequest, k2: LoanApprovalRequest, k3: LoanApprovalRequest)
    requires k1 != k2 && k1 != k3 && k2 != k3
    ensures StatisticsOf({k1, k2, k3}) == Calculate([Amount(k1), Amount(k2), Amount(k3)])
  {
    assert Enumerates([k1, k2, k3], {k1, k2, k3});
    StatisticsOfAnyOrder({k1, k2, k3}, [k1, k2, k3]);
    assert AmountsOf([k1, k2, k3]) == [Amount(k1), Amount(k2), Amount(k3)];
  }

  /** The window test: three requests counted, amounts 111.01, 121.01 and 131.01. */
  lemma OneMinuteWindowStatistics(now: Instant, u: seq<Uuid>)
    requires |u| == 5
    requires forall i, j | 0 <= i < j < 5 :: u[i] != u[j]
    ensures var ids := TailValues(WindowTestEvents(now, u), Probe(now - Minute));
            StatisticsOf(WindowKeys(WindowTestKeys(now, u), ids)) == Statistics(3, 363.03, 121.01, 131.01, 111.01)
  {
    OneMinuteWindowIds(now, u);
    var r1, r2, r3 := TestRequest(now, Customer1, 111.01, u[0]), TestRequest(now, Customer2, 121.01, u[1]),
                      TestRequest(now, Customer3, 131.01, u[2]);
    var selected := WindowKeys(WindowTestKeys(now, u), {u[0], u[1], u[2]});
    assert selected == {r1, r2, r3};
    assert r1.customerId != r2.customerId && r1.customerId != r3.customerId && r2.customerId != r3.customerId by {
      assert r1.customerId[10] == '1' && r2.customerId[10] == '2' && r3.customerId[10] == '3';
    }
    StatisticsOfThree(r1, r2, r3);
    CalculateThreeInWindow();
  }

  /** The window test's ledger for one customer: its single approver, still PENDING. */
  function TestLedger(customerId: string): map<string, Decision> {
    map[SmallLoanApprover.name.value := Decision(customerId, SmallLoanApprover.name.value, PENDING)]
  }

  /** The five `storage.put` calls of the window test, as pending entries by customer id. */
  function WindowTestPending(now: Instant, u: seq<Uuid>): map<string, PendingEntry>
    requires |u| == 5
  {
    map[Customer1 := PendingEntry(TestRequest(now, Customer1, 111.01, u[0]), TestLedger(Customer1)),
        Customer2 := PendingEntry(TestRequest(now, Customer2, 121.01, u[1]), TestLedger(Customer2)),
        Customer3 := PendingEntry(TestRequest(now, Customer3, 131.01, u[2]), TestLedger(Customer3)),
        Customer4 := PendingEntry(TestRequest(now, Customer4, 141.01, u[3]), TestLedger(Customer4)),
        Customer5 := PendingEntry(TestRequest(now, Customer5, 151.01, u[4]), TestLedger(Customer5))]
  }

  /** The five customer ids of the window test differ. */
  lemma WindowTestCustomersDiffer()
    ensures |{Customer1, Customer2, Customer3, Customer4, Customer5}| == 5
  {
    var ids := [Customer1, Customer2, Customer3, Customer4, Customer5];
    forall i, j | 0 <= i < j < 5
      ensures ids[i] != ids[j]
    {
      assert ids[i][10] != ids[j][10];
    }
  }

  /** The window test's storage holds the five requests it puts. */
  lemma WindowTestStorage(now: Instant, u: seq<Uuid>)
    requires |u| == 5
    ensures PendingRequests(WindowTestPending(now, u)) == WindowTestKeys(now, u)
  {
    var pending := WindowTestPending(now, u);
    var image := PendingRequests(pending);
    assert pending[Customer1].request in image && pending[Customer2].request in image;
    assert pending[Customer3].request in image && pending[Customer4].request in image;
    assert pending[Customer5].request in image;
  }

  /** One stored request per customer: five in all. */
  lemma WindowTestStorageSize(now: Instant, u: seq<Uuid>)
    requires |u| == 5
    ensures |PendingRequests(WindowTestPending(now, u))| == 5
  {
    var pending := WindowTestPending(now, u);
    WindowTestCustomersDiffer();
    assert pending.Keys == {Customer1, Customer2, Customer3, Customer4, Customer5};
    PendingRequestsSize(pending);
  }

  /** The store as the window test leaves it before asking for statistics. */
  method WindowTestStore(now: Instant, u: seq<Uuid>) returns (repository: LoanRepository)
    requires |u| == 5
    ensures fresh(repository)
    ensures repository.events == WindowTestEvents(now, u)
    ensures repository.StoredKeys() == WindowTestKeys(now, u) && |repository.StoredKeys()| == 5
  {
    repository := new LoanRepository();
    repository.events := WindowTestEvents(now, u);
    repository.pending := WindowTestPending(now, u);
    WindowTestStorage(now, u);
    WindowTestStorageSize(now, u);
  }

  /**
   * The window test run against the store: five events and five stored
   * requests, of which the three inside the minute are counted.
   */
  method OneMinuteWindowScenario(now: Instant, u: seq<Uuid>) returns (stored: nat, indexed: nat, statistics: Option<Statistics>)
    requires |u| == 5
    requires forall i, j | 0 <= i < j < 5 :: u[i] != u[j]
    ensures stored == 5 && indexed == 5
    ensures statistics == Some(Statistics(3, 363.03, 121.01, 131.01, 111.01))
  {
    var repository := WindowTestStore(now, u);
    stored, indexed := |repository.StoredKeys()|, |repository.events|;
    statistics := repository.GetStatistics(now, Minute);
    ghost var selected := WindowKeys(WindowTestKeys(now, u), TailValues(WindowTestEvents(now, u), Probe(now - Minute)));
    WindowTestAmounts(now, u, selected);
    OneMinuteWindowStatistics(now, u);
  }

  /** Every request the window test stores has an amount. */
  lemma WindowTestAmounts(now: Instant, u: seq<Uuid>, selected: set<LoanApprovalRequest>)
    requires |u| == 5 && selected <= WindowTestKeys(now, u)
    ensures forall k | k in selected :: k.loanAmount.Some?
  {
  }

  /** The requests of a two-customer pending map. */
  lemma RequestsOfTwo(pending: map<string, PendingEntry>, c1: string, c2: string)
    requires pending.Keys == {c1, c2}
    ensures PendingRequests(pending) == {pending[c1].request, pending[c2].request}
  {
    var image := PendingRequests(pending);
    assert pending[c1].request in image && pending[c2].request in image;
  }

  /** A pending request as `LoanService.saveApproval` builds it. */
  function NewRequest(now: Instant, customerId: string, amount: real, approvers: set<Approver>): LoanApprovalRequest {
    LoanApprovalRequest(customerId, Some(amount), Some(approvers), Some(now), PENDING, None)
  }

  /** A request saved at `now` is inside the one-minute window ending at `now`. */
  lemma SingleRequestWindow(now: Instant, events: seq<Entry>, k: LoanApprovalRequest)
    requires |events| > 0 && k.uuid == Some(events[0].value) && events[0].key.timestamp == now
    requires k.loanAmount == Some(111.01)
    ensures StatisticsOf(WindowKeys({k}, TailValues(events, Probe(now - Minute)))) == Statistics(1, 111.01, 111.01, 111.01, 111.01)
  {
    EpochMilliMonotone(now - Minute, now);
    TailFromProbe(events, now - Minute, events[0].value);
    assert events[0] in events;
    assert WindowKeys({k}, TailValues(events, Probe(now - Minute))) == {k};
    StatisticsOfOne(k);
    CalculateSingle(111.01);
  }

  /** The duplicate test's customer, `"OK-XXXX-"` followed by the suffix `"AAA"`. */
  const DuplicateCustomer := "OK-XXXX-AAA"

  /**
   * The duplicate test's two saves of requests built ten seconds before `now`
   * (their own uuids are overwritten): the second one fails.
   */
  method DuplicateSaves(now: Instant) returns (repository: LoanRepository, first: LoanApprovalRequest, failed: Outcome<StoreError>)
    ensures failed == Fail(DuplicatePendingRequest(DuplicateCustomer))
    ensures |repository.events| > 0 && repository.events[0] == Entry(EventKey(now, Some(Uuid(1, 1))), Uuid(1, 1))
    ensures repository.StoredKeys() == {first} && first.uuid == Some(Uuid(1, 1)) && first.loanAmount == Some(111.01)
  {
    repository := new LoanRepository();
    var ok, second;
    first, ok := repository.SaveAsPending(TestRequest(now, DuplicateCustomer, 111.01, Uuid(0, 1)), now, Uuid(1, 1));
    second, failed := repository.SaveAsPending(TestRequest(now, DuplicateCustomer, 111.01, Uuid(0, 2)), now, Uuid(2, 2));
    assert repository.pending.Keys == {DuplicateCustomer};
    assert PendingRequests(repository.pending) == {first};
  }

  /** The duplicate test: the second pending request of a customer fails; one request is stored and counted. */
  method DuplicatePendingScenario(now: Instant) returns (failed: Outcome<StoreError>, stored: nat, statistics: Option<Statistics>)
    ensures failed == Fail(DuplicatePendingRequest(DuplicateCustomer)) && Message(failed.error) == DuplicateMessagePrefix
    ensures stored == 1
    ensures statistics == Some(Statistics(1, 111.01, 111.01, 111.01, 111.01))
  {
    var repository, first;
    repository, first, failed := DuplicateSaves(now);
    stored := |repository.StoredKeys()|;
    statistics := repository.GetStatistics(now, Minute);
    SingleRequestWindow(now, repository.events, first);
  }

  const FirstProducer := "1X-XXXX-XAX"
  const SecondProducer := "2X-XXXX-XWX"

  /** `Uuid(i, 0)` for the i-th call, all made at `now`. */
  function ProducerEvents(now: Instant): seq<Entry> {
    [Entry(EventKey(now, Some(Uuid(1, 0))), Uuid(1, 0)), Entry(EventKey(now, Some(Uuid(2, 0))), Uuid(2, 0)),
     Entry(EventKey(now, Some(Uuid(3, 0))), Uuid(3, 0)), Entry(EventKey(now, Some(Uuid(4, 0))), Uuid(4, 0)),
     Entry(EventKey(now, Some(Uuid(5, 0))), Uuid(5, 0)), Entry(EventKey(now, Some(Uuid(6, 0))), Uuid(6, 0))]
  }

  /** The uuid of the next call is not yet in the index. */
  lemma ProducerUuidFresh(now: Instant, n: nat)
    requires n < 6
    ensures Uuid(n + 1, 0) !in Values(ProducerEvents(now)[..n])
  {
    var prefix := ProducerEvents(now)[..n];
    forall e | e in prefix
      ensures e.value.mostSigBits <= n
    {
      var k :| 0 <= k < |prefix| && prefix[k] == e;
      assert ProducerEvents(now)[k].value.mostSigBits == k + 1;
    }
  }

  /** The index grows by one producer event per call. */
  lemma ProducerPrefixStep(now: Instant, n: nat)
    requires n < 6
    ensures ProducerEvents(now)[..n + 1] == ProducerEvents(now)[..n] + [Entry(EventKey(now, Some(Uuid(n + 1, 0))), Uuid(n + 1, 0))]
  {
    assert ProducerEvents(now)[n] == Entry(EventKey(now, Some(Uuid(n + 1, 0))), Uuid(n + 1, 0));
  }

  const FirstApprovers := {Approver(Some("Under €1_000 Approver"))}
  const SecondApprovers := {Approver(Some("Under €9_000 Approver"))}

  /** Both producers save once more: two events are added and the pending entries are untouched. */
  method ProducerRound(repository: LoanRepository, now: Instant, n: nat, amount1: real, amount2: real)
    requires repository.Valid()
    requires n + 2 <= 6 && repository.events == ProducerEvents(now)[..n]
    requires repository.pending.Keys == {FirstProducer, SecondProducer}
    modifies repository
    ensures repository.Valid()
    ensures repository.events == ProducerEvents(now)[..n + 2]
    ensures repository.pending == old(repository.pending) && repository.finalised == old(repository.finalised)
  {
    ProducerUuidFresh(now, n);
    ProducerPrefixStep(now, n);
    var s1, o1 := repository.SaveAsPending(NewRequest(now, FirstProducer, amount1, FirstApprovers), now, Uuid(n + 1, 0));
    ProducerUuidFresh(now, n + 1);
    ProducerPrefixStep(now, n + 1);
    var s2, o2 := repository.SaveAsPending(NewRequest(now, SecondProducer, amount2, SecondApprovers), now, Uuid(n + 2, 0));
  }

  /** The first producer's first request is stored. */
  method FirstSave(now: Instant) returns (repository: LoanRepository, s1: LoanApprovalRequest)
    ensures fresh(repository) && repository.Valid()
    ensures repository.events == ProducerEvents(now)[..1]
    ensures repository.pending.Keys == {FirstProducer} && repository.finalised == {}
    ensures repository.pending[FirstProducer].request == s1 && s1.loanAmount == Some(123.01) && s1.uuid == Some(Uuid(1, 0))
  {
    repository := new LoanRepository();
    var o1;
    assert ProducerEvents(now)[..0] == [];
    ProducerUuidFresh(now, 0);
    ProducerPrefixStep(now, 0);
    s1, o1 := repository.SaveAsPending(NewRequest(now, FirstProducer, 123.01, FirstApprovers), now, Uuid(1, 0));
  }

  /** The first request of each producer is stored. */
  method FirstRound(now: Instant) returns (repository: LoanRepository, s1: LoanApprovalRequest, s2: LoanApprovalRequest)
    ensures fresh(repository) && repository.Valid()
    ensures repository.events == ProducerEvents(now)[..2]
    ensures repository.pending.Keys == {FirstProducer, SecondProducer} && repository.finalised == {}
    ensures repository.pending[FirstProducer].request == s1 && s1.loanAmount == Some(123.01) && s1.uuid == Some(Uuid(1, 0))
    ensures repository.pending[SecondProducer].request == s2 && s2.loanAmount == Some(1023.55) && s2.uuid == Some(Uuid(2, 0))
  {
    repository, s1 := FirstSave(now);
    var o2;
    assert FirstProducer != SecondProducer by { assert FirstProducer[0] != SecondProducer[0]; }
    ProducerUuidFresh(now, 1);
    ProducerPrefixStep(now, 1);
    s2, o2 := repository.SaveAsPending(NewRequest(now, SecondProducer, 1023.55, SecondApprovers), now, Uuid(2, 0));
  }

  /** Two producers, each saving three requests for its own customer; only the first of each is kept. */
  method TwoProducersSave(now: Instant) returns (repository: LoanRepository, s1: LoanApprovalRequest, s2: LoanApprovalRequest)
    ensures fresh(repository) && repository.Valid()
    ensures repository.events == ProducerEvents(now)
    ensures repository.pending.Keys == {FirstProducer, SecondProducer} && repository.finalised == {}
    ensures repository.pending[FirstProducer].request == s1 && s1.loanAmount == Some(123.01) && s1.uuid == Some(Uuid(1, 0))
    ensures repository.pending[SecondProducer].request == s2 && s2.loanAmount == Some(1023.55) && s2.uuid == Some(Uuid(2, 0))
  {
    repository, s1, s2 := FirstRound(now);
    ProducerRound(repository, now, 2, 124.01, 1033.55);
    ProducerRound(repository, now, 4, 125.01, 1043.55);
    assert ProducerEvents(now)[..6] == ProducerEvents(now);
  }

  /** Both first requests fall inside a one-minute window ending at the moment they were saved. */
  lemma ProducerWindowStatistics(now: Instant, s1: LoanApprovalRequest, s2: LoanApprovalRequest)
    requires s1.loanAmount == Some(123.01) && s1.uuid == Some(Uuid(1, 0))
    requires s2.loanAmount == Some(1023.55) && s2.uuid == Some(Uuid(2, 0))
    ensures StatisticsOf(WindowKeys({s1, s2}, TailValues(ProducerEvents(now), Probe(now - Minute))))
            == Statistics(2, 1146.56, 573.28, 1023.55, 123.01)
  {
    var events := ProducerEvents(now);
    EpochMilliMonotone(now - Minute, now);
    assert events[0].value == Uuid(1, 0) && events[1].value == Uuid(2, 0);
    TailFromProbe(events, now - Minute, Uuid(1, 0));
    TailFromProbe(events, now - Minute, Uuid(2, 0));
    assert WindowKeys({s1, s2}, TailValues(events, Probe(now - Minute))) == {s1, s2};
    StatisticsOfTwo(s1, s2);
    CalculateTwoProducers();
  }

  /** After both producers finish, the storage holds exactly their first requests. */
  method TwoProducersStored(now: Instant) returns (repository: LoanRepository, s1: LoanApprovalRequest, s2: LoanApprovalRequest)
    ensures repository.events == ProducerEvents(now)
    ensures repository.StoredKeys() == {s1, s2} && |repository.StoredKeys()| == 2
    ensures s1.loanAmount == Some(123.01) && s1.uuid == Some(Uuid(1, 0))
    ensures s2.loanAmount == Some(1023.55) && s2.uuid == Some(Uuid(2, 0))
  {
    repository, s1, s2 := TwoProducersSave(now);
    RequestsOfTwo(repository.pending, FirstProducer, SecondProducer);
    assert s1 != s2 by { assert s1.uuid != s2.uuid; }
  }

  /** The two-producer test: six events, two stored requests, statistics of the first amount of each. */
  method TwoProducersScenario(now: Instant) returns (stored: nat, indexed: nat, statistics: Option<Statistics>)
    ensures stored == 2 && indexed == 6
    ensures statistics == Some(Statistics(2, 1146.56, 573.28, 1023.55, 123.01))
  {
    var repository, s1, s2 := TwoProducersStored(now);
    stored, indexed := |repository.StoredKeys()|, |repository.events|;
    statistics := repository.GetStatistics(now, Minute);
    ProducerWindowStatistics(now, s1, s2);
  }

  const Unanimous := "XX-XXXX-X7X"

  /** A pending request of `Unanimous` awaiting approvers A and B. */
  method PendingForBoth(now: Instant) returns (repository: LoanRepository)
    ensures fresh(repository) && repository.Valid()
    ensures repository.events == [Entry(EventKey(now, Some(Uuid(7, 7))), Uuid(7, 7))]
    ensures repository.pending.Keys == {Unanimous}
    ensures repository.pending[Unanimous].ledger == map["A" := Decision(Unanimous, "A", PENDING), "B" := Decision(Unanimous, "B", PENDING)]
    ensures repository.finalised == {} && repository.notifications == []
  {
    repository := new LoanRepository();
    var stamped, created := repository.SaveAsPending(NewRequest(now, Unanimous, 123.45, {Approver(Some("A")), Approver(Some("B"))}), now, Uuid(7, 7));
    assert repository.pending[Unanimous].ledger.Keys == {"A", "B"};
  }

  /** Approver A approves; B is still pending, so nothing is dispatched. */
  method FirstApproval(now: Instant) returns (repository: LoanRepository)
    ensures fresh(repository) && repository.Valid()
    ensures repository.events == [Entry(EventKey(now, Some(Uuid(7, 7))), Uuid(7, 7))]
    ensures repository.pending.Keys == {Unanimous}
    ensures repository.pending[Unanimous].ledger.Keys == {"A", "B"}
    ensures repository.pending[Unanimous].ledger["A"].state == APPROVED
    ensures repository.finalised == {} && repository.notifications == []
  {
    repository := PendingForBoth(now);
    var first := repository.Save(Decision(Unanimous, "A", APPROVED));
    NoConsensusWhenMixedOrPending(repository.pending[Unanimous].ledger, "B", "A");
  }

  /** Approvers A then B approve a pending request of `Unanimous`: one notification, one final key. */
  method ApproveByBoth(now: Instant) returns (repository: LoanRepository)
    ensures fresh(repository) && repository.Valid()
    ensures repository.events == [Entry(EventKey(now, Some(Uuid(7, 7))), Uuid(7, 7))]
    ensures Unanimous in repository.pending
    ensures AllMatchState(repository.pending[Unanimous].ledger, APPROVED)
    ensures repository.pending[Unanimous].ledger.Keys == {"A", "B"}
    ensures repository.finalised == {LookupKey(Unanimous).(decisionState := APPROVED)}
    ensures |repository.notifications| == 1
    ensures repository.notifications[0].request == LookupKey(Unanimous).(decisionState := APPROVED)
  {
    repository := FirstApproval(now);
    var c := Unanimous;
    var second := repository.Save(Decision(c, "B", APPROVED));
    assert repository.pending[c].ledger.Keys == {"A", "B"};
    assert AllMatchState(repository.pending[c].ledger, APPROVED);
  }

  /**
   * Unanimity: after finalisation the customer stays pending, so a new request
   * is refused, and a further approval dispatches a second notification.
   */
  method UnanimousApprovalScenario(now: Instant)
    returns (blocked: Outcome<StoreError>, third: Outcome<StoreError>, finalKeys: set<LoanApprovalRequest>, ghost dispatched: nat)
    ensures blocked == Fail(DuplicatePendingRequest(Unanimous))
    ensures third == Pass
    ensures finalKeys == {LookupKey(Unanimous).(decisionState := APPROVED)}
    ensures dispatched == 2
  {
    var repository := ApproveByBoth(now);
    var again;
    again, blocked := repository.SaveAsPending(NewRequest(now, Unanimous, 10.0, {Approver(Some("A"))}), now, Uuid(8, 8));
    third := repository.Save(Decision(Unanimous, "B", APPROVED));
    assert AllMatchState(repository.pending[Unanimous].ledger, APPROVED);
    finalKeys, dispatched := repository.finalised, |repository.notifications|;
  }

  /** A split ledger stays pending and dispatches nothing; a `PENDING` decision is refused. */
  method SplitDecisionScenario(now: Instant)
    returns (second: Outcome<StoreError>, pendingDecision: Outcome<StoreError>, finalKeys: set<LoanApprovalRequest>)
    ensures second == Pass && pendingDecision == Fail(PendingDecision) && finalKeys == {}
  {
    var repository := new LoanRepository();
    var c := "XX-XXXX-X8X";
    var stamped, created := repository.SaveAsPending(NewRequest(now, c, 500.0, {Approver(Some("A")), Approver(Some("B"))}), now, Uuid(9, 9));
    var first := repository.Save(Decision(c, "A", APPROVED));
    NoConsensusWhenMixedOrPending(repository.pending[c].ledger, "B", "A");
    assert repository.finalised == {} && repository.notifications == [];
    second := repository.Save(Decision(c, "B", DECLINED));
    var ledger := repository.pending[c].ledger;
    assert "A" in ledger && "B" in ledger && ledger["A"].state == APPROVED && ledger["B"].state == DECLINED;
    NoConsensusWhenMixedOrPending(ledger, "A", "B");
    assert repository.finalised == {} && repository.notifications == [];

    pendingDecision := repository.Save(Decision(c, "A", PENDING));
    finalKeys := repository.finalised;
  }

  const UnknownCustomer := "XX-XXXX-X3X"

  /** A decision for a customer without a pending request fails with the integration test's message. */
  method UnknownCustomerScenario() returns (unknown: Outcome<StoreError>)
    ensures unknown == Fail(NoRelatedRequest(UnknownCustomer))
    ensures Message(unknown.error) == NoRelatedRequestPrefix + UnknownCustomer
  {
    var repository := new LoanRepository();
    unknown := repository.Save(Decision(UnknownCustomer, "Uncle Bob", APPROVED));
  }

  /**
   * A request without an amount, which the request form's constraints let
   * through, is stored; the next statistics call that selects it throws.
   */
  method NullAmountScenario(now: Instant) returns (saved: Outcome<StoreError>, stored: nat, statistics: Option<Statistics>)
    ensures saved == Pass && stored == 1
    ensures statistics == None
  {
    var repository := new LoanRepository();
    var request := LoanApprovalRequest("NA-XXXX-X0X", None, Some({SmallLoanApprover}), Some(now), PENDING, None);
    var stamped;
    stamped, saved := repository.SaveAsPending(request, now, Uuid(3, 3));
    assert PendingRequests(repository.pending) == {stamped};
    stored := |repository.StoredKeys()|;
    statistics := repository.GetStatistics(now, Minute);
    EpochMilliMonotone(now - Minute, now);
    TailFromProbe(repository.events, now - Minute, Uuid(3, 3));
    assert repository.events[0] in repository.events;
    assert stamped in WindowKeys(repository.StoredKeys(), TailValues(repository.events, Probe(now - Minute)));
  }

  /** A request whose approver set is null is indexed but not stored. */
  method NullApproversScenario(now: Instant) returns (saved: Outcome<StoreError>, stored: nat, indexed: nat)
    ensures saved == Fail(NullApprovers) && stored == 0 && indexed == 1
  {
    var repository := new LoanRepository();
    var request := LoanApprovalRequest("NA-XXXX-X1X", Some(100.0), None, Some(now), PENDING, None);
    var stamped;
    stamped, saved := repository.SaveAsPending(request, now, Uuid(4, 4));
    assert PendingRequests(repository.pending) == {};
    stored, indexed := |repository.StoredKeys()|, |repository.events|;
  }

  /**
   * A request with an approver whose name is null, as `LoanService` builds
   * from a null element of the approver list, is indexed but not stored.
   */
  method NullApproverNameScenario(now: Instant) returns (saved: Outcome<StoreError>, stored: nat, indexed: nat)
    ensures saved == Fail(NullApprovers) && stored == 0 && indexed == 1
  {
    var repository := new LoanRepository();
    var request := LoanApprovalRequest("NA-XXXX-X2X", Some(100.0), Some({SmallLoanApprover, Approver(None)}), Some(now), PENDING, None);
    assert Approver(None) in request.approvers.value;
    var stamped;
    stamped, saved := repository.SaveAsPending(request, now, Uuid(5, 5));
    assert PendingRequests(repository.pending) == {};
    stored, indexed := |repository.StoredKeys()|, |repository.events|;
  }
}
