/**
 * `LoanRepository`: the in-memory approval store. One caller at a time.
 *
 * Java keeps one hash map from `ApprovalRequest` to its decision ledger. The
 * phase-dependent `equals`/`hashCode` split that map into two kinds of entry,
 * held apart here:
 *  - `pending`: the request stored by `saveAsPending`, found again by any
 *    PENDING key with the same customer id (see PendingLookupMatches);
 *  - `finalised`: the keys `processDecisions` stores, the lookup key with its
 *    state set, every other field null. Their value is the very ledger object
 *    of the pending entry, so only the keys are kept.
 */
module Repository {
  import opened Wrappers
  import opened Events
  import opened Requests
  import opened Finance
  import opened Stats

  /** A stored pending request and its ledger: approver name to decision. */
  datatype PendingEntry = PendingEntry(request: LoanApprovalRequest, ledger: map<string, Decision>)

  /** One dispatched `NotifyCustomerTask`: the finalised key and the ledger it was handed. */
  datatype Notification = Notification(request: LoanApprovalRequest, ledger: map<string, Decision>)

  /**
   * The exceptions the store throws: its three `BusinessRuleException`s, and
   * the NullPointerException of `getDecisionMap` on a request whose approver
   * set, or the name of one of its approvers, is null.
   */
  datatype StoreError =
    | DuplicatePendingRequest(customerId: string)
    | PendingDecision
    | NoRelatedRequest(customerId: string)
    | NullApprovers

  const DuplicateMessagePrefix := "Attempt to save duplicate pending LoanApprovalRequest: "
  const PendingDecisionMessage := "PENDING decisions cannot be saved"
  const NoRelatedRequestPrefix := "Decision cannot be saved. There is no related ApprovalRequest with customerId: "

  /** The two messages of `save`, in full; the duplicate message up to the request's rendering. */
  function Message(e: StoreError): string
    requires !e.NullApprovers?
  {
    match e
    case DuplicatePendingRequest(_) => DuplicateMessagePrefix
    case PendingDecision => PendingDecisionMessage
    case NoRelatedRequest(c) => NoRelatedRequestPrefix + c
  }

  /** The key `save` builds: the customer id, state PENDING, every other field null. */
  function LookupKey(customerId: string): LoanApprovalRequest {
    LoanApprovalRequest(customerId, None, None, None, PENDING, None)
  }

  /** The non-null names of an approver set. */
  function Names(approvers: set<Approver>): set<string> {
    set a | a in approvers && a.name.Some? :: a.name.value
  }

  /**
   * The requests `getDecisionMap` throws on: a null approver set, or an
   * approver whose null name `ConcurrentHashMap.put` refuses as a key.
   */
  predicate ApproversMissing(approvers: Option<set<Approver>>) {
    approvers.None? || exists a | a in approvers.value :: a.name.None?
  }

  /** The ledger `getDecisionMap` builds: one PENDING placeholder per approver name. */
  ghost predicate IsPendingLedger(ledger: map<string, Decision>, customerId: string, approvers: set<Approver>) {
    && ledger.Keys == Names(approvers)
    && forall n | n in ledger :: ledger[n] == Decision(customerId, n, PENDING)
  }

  /** What every stored pending entry of customer `c` satisfies. */
  ghost predicate PendingEntryValid(c: string, e: PendingEntry, ids: set<Uuid>) {
    && e.request.customerId == c
    && e.request.decisionState == PENDING
    && e.request.uuid.Some? && e.request.uuid.value in ids
    && e.request.approvers.Some?
    && Names(e.request.approvers.value) <= e.ledger.Keys
    && forall n | n in e.ledger :: e.ledger[n].customerId == c && e.ledger[n].approverUsername == n
  }

  /** `allMatchState`: every ledger value is in `state` (true of an empty ledger). */
  function AllMatchState(ledger: map<string, Decision>, state: DecisionState): bool {
    forall n | n in ledger :: ledger[n].state == state
  }

  /** A non-empty ledger matches at most one state; an empty one matches every state. */
  lemma AllMatchExclusive(ledger: map<string, Decision>, s: DecisionState, t: DecisionState)
    ensures ledger == map[] ==> AllMatchState(ledger, s)
    ensures s != t && AllMatchState(ledger, s) && AllMatchState(ledger, t) ==> ledger == map[]
  {
  }

  /**
   * The outcome of the unanimity check of `processDecisions`: a final state
   * that every decision of the ledger holds, and none while some decision is
   * still PENDING or two decisions differ. APPROVED is tested first, so an
   * empty ledger counts as approved.
   */
  function Consensus(ledger: map<string, Decision>): (r: Option<DecisionState>)
    ensures r.Some? ==> r.value != PENDING && forall n | n in ledger :: ledger[n].state == r.value
    ensures r.None? <==> exists n, m | n in ledger && m in ledger ::
                           ledger[n].state == PENDING || ledger[n].state != ledger[m].state
    ensures ledger == map[] ==> r == Some(APPROVED)
  {
    if AllMatchState(ledger, APPROVED) then Some(APPROVED)
    else if AllMatchState(ledger, DECLINED) then Some(DECLINED)
    else None
  }

  /** A ledger that still holds a PENDING decision, or holds both verdicts, finalises nothing. */
  lemma NoConsensusWhenMixedOrPending(ledger: map<string, Decision>, n: string, m: string)
    requires n in ledger && m in ledger
    requires ledger[n].state == PENDING || (ledger[n].state == APPROVED && ledger[m].state == DECLINED)
    ensures Consensus(ledger) == None
  {
  }

  /** A non-empty ledger whose every decision is DECLINED is finalised as DECLINED. */
  lemma UnanimousDecline(ledger: map<string, Decision>, n: string)
    requires n in ledger
    requires forall m | m in ledger :: ledger[m].state == DECLINED
    ensures Consensus(ledger) == Some(DECLINED)
  {
    assert ledger[n].state != APPROVED;
  }

  // ---- statistics --------------------------------------------------------

  /** The stored keys whose uuid is one of `ids`: the filter of `getStatistics`. */
  function WindowKeys(keys: set<LoanApprovalRequest>, ids: set<Uuid>): set<LoanApprovalRequest> {
    set k | k in keys && k.uuid.Some? && k.uuid.value in ids
  }

  /** `.map(ApprovalRequest::getLoanAmount)` over a sequence of keys: the list may hold null. */
  function LoanAmountsOf(ks: seq<LoanApprovalRequest>): seq<Option<real>> {
    seq(|ks|, i requires 0 <= i < |ks| => ks[i].loanAmount)
  }

  /**
   * The amount of a key, for keys that have one. The statistics use it only
   * when every selected key has an amount, so the 0 never enters a result.
   */
  function Amount(k: LoanApprovalRequest): real {
    if k.loanAmount.Some? then k.loanAmount.value else 0.0
  }

  /** The amounts of a sequence of keys that all have one. */
  function AmountsOf(ks: seq<LoanApprovalRequest>): seq<real> {
    seq(|ks|, i requires 0 <= i < |ks| => Amount(ks[i]))
  }

  /** When no key's amount is null, the collector sees exactly the keys' amounts. */
  lemma PresentAmounts(ks: seq<LoanApprovalRequest>)
    requires forall i | 0 <= i < |ks| :: ks[i].loanAmount.Some?
    ensures Present(LoanAmountsOf(ks)) == AmountsOf(ks)
  {
    PresentAll(LoanAmountsOf(ks));
  }

  /** Taking out the element at j leaves the multiset minus that element. */
  lemma MultisetRemove<T>(ys: seq<T>, j: nat)
    requires j < |ys|
    ensures ys == ys[..j] + [ys[j]] + ys[j + 1..]
    ensures multiset(ys) == multiset(ys[..j] + ys[j + 1..]) + multiset{ys[j]}
  {
    assert ys == ys[..j] + [ys[j]] + ys[j + 1..];
    assert multiset(ys) == multiset(ys[..j]) + multiset{ys[j]} + multiset(ys[j + 1..]);
  }

  /** Taking out the key at j takes out its amount. */
  lemma AmountsOfRemove(ys: seq<LoanApprovalRequest>, j: nat)
    requires j < |ys|
    ensures multiset(AmountsOf(ys)) == multiset(AmountsOf(ys[..j] + ys[j + 1..])) + multiset{Amount(ys[j])}
  {
    var r, q := AmountsOf(ys), ys[..j] + ys[j + 1..];
    forall i | 0 <= i < |q|
      ensures AmountsOf(q)[i] == (r[..j] + r[j + 1..])[i]
    {
      if i < j { assert q[i] == ys[i]; } else { assert q[i] == ys[i + 1]; }
    }
    assert AmountsOf(q) == r[..j] + r[j + 1..];
    MultisetRemove(r, j);
    assert r[j] == Amount(ys[j]);
  }

  /** Reordering the keys reorders their amounts. */
  lemma {:induction false} AmountsOfPermutation(xs: seq<LoanApprovalRequest>, ys: seq<LoanApprovalRequest>)
    requires multiset(xs) == multiset(ys)
    ensures multiset(AmountsOf(xs)) == multiset(AmountsOf(ys))
    decreases |xs|
  {
    if |xs| > 0 {
      var x, rest := xs[0], xs[1..];
      assert x in multiset(ys);
      var j :| 0 <= j < |ys| && ys[j] == x;
      var others := ys[..j] + ys[j + 1..];
      MultisetRemove(ys, j);
      MultisetRemove(xs, 0);
      assert xs[..0] + xs[1..] == rest;
      MultisetCancel(multiset(rest), multiset(others), x);
      AmountsOfPermutation(rest, others);
      AmountsOfRemove(ys, j);
      AmountsOfRemove(xs, 0);
    } else {
      assert |ys| == |multiset(ys)| == 0;
    }
  }

  lemma MultisetCancel<T>(a: multiset<T>, b: multiset<T>, x: T)
    requires a + multiset{x} == b + multiset{x}
    ensures a == b
  {
    forall y
      ensures a[y] == b[y]
    {
      assert (a + multiset{x})[y] == (b + multiset{x})[y];
    }
  }

  ghost predicate Distinct<T>(xs: seq<T>) {
    forall i, j | 0 <= i < j < |xs| :: xs[i] != xs[j]
  }

  /** A sequence listing each element of `s` once: some iteration order of a hash set. */
  ghost predicate Enumerates<T>(xs: seq<T>, s: set<T>) {
    Distinct(xs) && (forall i | 0 <= i < |xs| :: xs[i] in s) && (forall x | x in s :: x in xs)
  }

  /** One fixed iteration order of a finite set. */
  ghost function Enumeration<T>(s: set<T>): (xs: seq<T>)
    ensures Enumerates(xs, s)
  {
    if s == {} then []
    else
      var x :| x in s;
      var rest := Enumeration(s - {x});
      assert forall i | 0 <= i < |rest| :: rest[i] in s - {x};
      [x] + rest
  }

  /** A sequence that lists each element of a set once has the set's multiset. */
  lemma {:induction false} EnumerationMultiset<T>(xs: seq<T>, s: set<T>)
    requires Enumerates(xs, s)
    ensures multiset(xs) == multiset(s)
    decreases |xs|
  {
    if |xs| > 0 {
      var init, x := xs[..|xs| - 1], xs[|xs| - 1];
      assert xs == init + [x];
      forall i | 0 <= i < |init| ensures init[i] in s - {x} {
        assert init[i] == xs[i];
      }
      forall y | y in s - {x} ensures y in init {
        var k :| 0 <= k < |xs| && xs[k] == y;
        assert init[k] == y;
      }
      EnumerationMultiset(init, s - {x});
      assert s == (s - {x}) + {x};
    }
  }

  /** Every enumeration of a set is a permutation of every other. */
  lemma EnumerationsArePermutations<T>(xs: seq<T>, ys: seq<T>, s: set<T>)
    requires Enumerates(xs, s) && Enumerates(ys, s)
    ensures multiset(xs) == multiset(ys)
  {
    EnumerationMultiset(xs, s);
    EnumerationMultiset(ys, s);
  }

  /** The statistics of the amounts of a set of keys, streamed in any order. */
  ghost function StatisticsOf(keys: set<LoanApprovalRequest>): Statistics {
    Calculate(AmountsOf(Enumeration(keys)))
  }

  /** Whatever order the key set is iterated in, `calculate` yields StatisticsOf the set. */
  lemma StatisticsOfAnyOrder(keys: set<LoanApprovalRequest>, xs: seq<LoanApprovalRequest>)
    requires Enumerates(xs, keys)
    ensures Calculate(AmountsOf(xs)) == StatisticsOf(keys)
  {
    var ys := Enumeration(keys);
    EnumerationsArePermutations(xs, ys, keys);
    AmountsOfPermutation(xs, ys);
    CalculatePermutation(AmountsOf(xs), AmountsOf(ys));
  }

  /**
   * The window selects exactly the keys whose uuid some event maps to, where
   * that event is in the cutoff's millisecond or later.
   */
  lemma WindowKeysMembership(keys: set<LoanApprovalRequest>, events: seq<Entry>, cutoff: Instant, k: LoanApprovalRequest)
    ensures k in WindowKeys(keys, TailValues(events, Probe(cutoff))) <==>
            && k in keys && k.uuid.Some?
            && exists e | e in events :: e.value == k.uuid.value && EpochMilli(e.key.timestamp) >= EpochMilli(cutoff)
  {
    if k.uuid.Some? {
      TailFromProbe(events, cutoff, k.uuid.value);
    }
  }

  /**
   * What the store keeps: every event maps its own uuid, no uuid twice; every
   * pending entry is well formed and its uuid is in the index; every final key
   * belongs to a pending customer and is that customer's lookup key with its
   * state set.
   */
  ghost predicate StoreInvariant(events: seq<Entry>, pending: map<string, PendingEntry>, finalised: set<LoanApprovalRequest>) {
    && KeysCarryValues(events)
    && (forall i, j | 0 <= i < j < |events| :: events[i].value != events[j].value)
    && (forall c | c in pending :: PendingEntryValid(c, pending[c], Values(events)))
    && (forall k | k in finalised ::
          && k.customerId in pending
          && k.decisionState != PENDING
          && k == LookupKey(k.customerId).(decisionState := k.decisionState))
  }

  /** Indexing an event under a fresh uuid keeps the invariant and adds that uuid. */
  lemma EventKeepsInvariant(events: seq<Entry>, pending: map<string, PendingEntry>, finalised: set<LoanApprovalRequest>, e: Entry)
    requires StoreInvariant(events, pending, finalised)
    requires e.key.uuid == Some(e.value) && e.value !in Values(events)
    ensures Values(events + [e]) == Values(events) + {e.value}
    ensures StoreInvariant(events + [e], pending, finalised)
  {
    var grown := events + [e];
    forall x | x in Values(events) + {e.value}
      ensures x in Values(grown)
    {
      if x == e.value {
        assert grown[|events|] == e;
      } else {
        var f :| f in events && f.value == x;
        assert f in grown;
      }
    }
    forall i, j | 0 <= i < j < |grown|
      ensures grown[i].value != grown[j].value
    {
      if j == |events| {
        assert grown[i] == events[i] && events[i] in events;
      }
    }
    forall c | c in pending
      ensures PendingEntryValid(c, pending[c], Values(grown))
    {
    }
  }

  /** A well-formed entry for a customer without one keeps the invariant. */
  lemma PendingEntryKeepsInvariant(events: seq<Entry>, pending: map<string, PendingEntry>, finalised: set<LoanApprovalRequest>,
                                   c: string, entry: PendingEntry)
    requires StoreInvariant(events, pending, finalised)
    requires c !in pending && PendingEntryValid(c, entry, Values(events))
    ensures StoreInvariant(events, pending[c := entry], finalised)
  {
  }

  /** The requests of a pending map whose entries are keyed by their own customer id. */
  function PendingRequests(pending: map<string, PendingEntry>): set<LoanApprovalRequest> {
    set c | c in pending :: pending[c].request
  }

  /** Keyed by their own customer ids, the pending requests are as many as the customers. */
  lemma {:induction false} PendingRequestsSize(pending: map<string, PendingEntry>)
    requires forall c | c in pending :: pending[c].request.customerId == c
    ensures |PendingRequests(pending)| == |pending|
    decreases |pending|
  {
    if |pending| > 0 {
      var c :| c in pending;
      var rest := pending - {c};
      assert rest.Keys == pending.Keys - {c};
      assert |rest.Keys| == |pending.Keys| - 1;
      PendingRequestsSize(rest);
      forall k | k in PendingRequests(pending)
        ensures k in PendingRequests(rest) + {pending[c].request}
      {
        var d :| d in pending && pending[d].request == k;
        if d != c { assert rest[d] == pending[d]; }
      }
      assert PendingRequests(pending) == PendingRequests(rest) + {pending[c].request};
      assert pending[c].request !in PendingRequests(rest);
    }
  }

  class LoanRepository {
    /** The event index, as its mappings in insertion order. */
    var events: seq<Entry>
    /** The pending entries, by customer id. */
    var pending: map<string, PendingEntry>
    /** The keys stored by `processDecisions`. */
    var finalised: set<LoanApprovalRequest>
    /** Every `NotifyCustomerTask` handed to the scheduler, in order. */
    ghost var notifications: seq<Notification>

    ghost predicate Valid()
      reads this
    {
      StoreInvariant(events, pending, finalised)
    }

    /** `storage.keySet()`. */
    function StoredKeys(): set<LoanApprovalRequest>
      reads this
    {
      PendingRequests(pending) + finalised
    }

    /**
     * `storage.size()`: one key per pending customer and one per final key,
     * the two kinds never equal.
     */
    lemma StorageSize()
      requires Valid()
      ensures PendingRequests(pending) !! finalised
      ensures |StoredKeys()| == |pending| + |finalised|
    {
      PendingRequestsSize(pending);
      forall k | k in PendingRequests(pending)
        ensures k.decisionState == PENDING
      {
        var c :| c in pending && pending[c].request == k;
      }
    }

    constructor ()
      ensures Valid()
      ensures events == [] && pending == map[] && finalised == {} && notifications == []
    {
      events := [];
      pending := map[];
      finalised := {};
      notifications := [];
    }

    /**
     * A PENDING lookup key finds the stored entries exactly when the customer
     * has a pending entry, and among the pending entries only that customer's.
     */
    lemma PendingLookupMatches(customerId: string)
      requires Valid()
      ensures (exists k | k in StoredKeys() :: Equals(LookupKey(customerId), k)) <==> customerId in pending
      ensures forall c | c in pending :: Equals(LookupKey(customerId), pending[c].request) <==> c == customerId
    {
      if exists k | k in StoredKeys() :: Equals(LookupKey(customerId), k) {
        var k :| k in StoredKeys() && Equals(LookupKey(customerId), k);
        if k !in finalised {
          var c :| c in pending && pending[c].request == k;
        }
      }
      if customerId in pending {
        assert pending[customerId].request in StoredKeys();
      }
    }

    /**
     * A key set final by `processDecisions` equals no stored pending request,
     * so `storage.put` adds it as a new entry rather than replacing one.
     */
    lemma FinalKeyIsNewEntry(customerId: string, state: DecisionState)
      requires Valid() && state != PENDING
      ensures forall c | c in pending :: !Equals(LookupKey(customerId).(decisionState := state), pending[c].request)
    {
    }

    /**
     * `getDecisionMap`: a PENDING placeholder decision for every approver of
     * the request; None is the NullPointerException of iterating a null set
     * or of putting a null name, whichever approver the iteration reaches first.
     */
    static method GetDecisionMap(request: LoanApprovalRequest) returns (decisions: Option<map<string, Decision>>)
      ensures decisions.None? <==> ApproversMissing(request.approvers)
      ensures decisions.Some? ==> IsPendingLedger(decisions.value, request.customerId, request.approvers.value)
    {
      if request.approvers.None? {
        return None;
      }
      var approvers := request.approvers.value;
      var ledger := map[];
      var remaining := approvers;
      while remaining != {}
        invariant remaining <= approvers
        invariant forall a | a in approvers - remaining :: a.name.Some?
        invariant ledger.Keys == Names(approvers - remaining)
        invariant forall n | n in ledger :: ledger[n] == Decision(request.customerId, n, PENDING)
        decreases remaining
      {
        var approver :| approver in remaining;
        if approver.name.None? {
          return None;
        }
        ledger := ledger[approver.name.value := Decision(request.customerId, approver.name.value, PENDING)];
        assert approvers - (remaining - {approver}) == (approvers - remaining) + {approver};
        remaining := remaining - {approver};
      }
      assert approvers - remaining == approvers;
      decisions := Some(ledger);
    }

    /**
     * `saveAsPending`, with the clock reading `now` and the fresh uuid `uuid`
     * as parameters. The event is always added and the uuid always set on the
     * request (returned as `stamped`); the request is stored only when the
     * customer has no pending entry yet and neither its approver set nor the
     * name of any of its approvers is null.
     * The amount is not read: a request with a null amount is stored too.
     */
    method SaveAsPending(request: LoanApprovalRequest, now: Instant, uuid: Uuid)
      returns (stamped: LoanApprovalRequest, outcome: Outcome<StoreError>)
      requires Valid()
      requires request.decisionState == PENDING
      requires uuid !in Values(events)
      modifies this
      ensures Valid()
      ensures events == old(events) + [Entry(EventKey(now, Some(uuid)), uuid)]
      ensures stamped == request.(uuid := Some(uuid))
      ensures outcome.Fail? <==> request.customerId in old(pending) || ApproversMissing(request.approvers)
      ensures request.customerId in old(pending) ==> outcome == Fail(DuplicatePendingRequest(request.customerId))
      ensures request.customerId !in old(pending) && ApproversMissing(request.approvers) ==> outcome == Fail(NullApprovers)
      ensures outcome.Fail? ==> pending == old(pending)
      ensures outcome.Pass? ==>
                && pending.Keys == old(pending).Keys + {request.customerId}
                && pending[request.customerId].request == stamped
                && IsPendingLedger(pending[request.customerId].ledger, request.customerId, request.approvers.value)
                && forall c | c in old(pending) :: pending[c] == old(pending)[c]
      ensures finalised == old(finalised) && notifications == old(notifications)
    {
      var key := EventKey(now, Some(uuid));
      PutFreshAppends(events, now, uuid);
      EventKeepsInvariant(events, pending, finalised, Entry(key, uuid));
      events := PutIfAbsent(events, key, uuid);
      stamped := request.(uuid := Some(uuid));

      PendingLookupMatches(request.customerId);
      if request.customerId in pending {
        outcome := Fail(DuplicatePendingRequest(request.customerId));
        return;
      }

      var decisions := GetDecisionMap(stamped);
      if decisions.None? {
        outcome := Fail(NullApprovers);
        return;
      }
      var ledger := decisions.value;
      PendingEntryKeepsInvariant(events, pending, finalised, request.customerId, PendingEntry(stamped, ledger));
      pending := pending[request.customerId := PendingEntry(stamped, ledger)];
      outcome := Pass;
    }

    /**
     * `save`: rejects a PENDING decision and a decision for a customer with no
     * pending entry; otherwise writes the decision under its approver name,
     * known to the ledger or not, and runs the unanimity check.
     */
    method Save(decision: Decision) returns (outcome: Outcome<StoreError>)
      requires Valid()
      modifies this
      ensures Valid()
      ensures events == old(events)
      ensures decision.state == PENDING ==>
                outcome == Fail(PendingDecision) && unchanged(this)
      ensures decision.state != PENDING && decision.customerId !in old(pending) ==>
                outcome == Fail(NoRelatedRequest(decision.customerId)) && unchanged(this)
      ensures decision.state != PENDING && decision.customerId in old(pending) ==>
                var c := decision.customerId;
                var ledger := old(pending)[c].ledger[decision.approverUsername := decision];
                && outcome == Pass
                && pending == old(pending)[c := PendingEntry(old(pending)[c].request, ledger)]
                && (Consensus(ledger).Some? ==>
                      var key := LookupKey(c).(decisionState := Consensus(ledger).value);
                      && finalised == old(finalised) + {key}
                      && notifications == old(notifications) + [Notification(key, ledger)])
                && (Consensus(ledger).None? ==>
                      finalised == old(finalised) && notifications == old(notifications))
    {
      if decision.state == PENDING {
        outcome := Fail(PendingDecision);
        return;
      }
      var customerId := decision.customerId;
      var lookupKey := LookupKey(customerId);
      PendingLookupMatches(customerId);
      if customerId !in pending {
        outcome := Fail(NoRelatedRequest(customerId));
        return;
      }
      var entry := pending[customerId];
      var allDecisions := entry.ledger[decision.approverUsername := decision];
      pending := pending[customerId := entry.(ledger := allDecisions)];
      ProcessDecisions(lookupKey, allDecisions);
      outcome := Pass;
    }

    /**
     * `processDecisions`: on a unanimous ledger, sets the lookup key's state,
     * stores that key and dispatches one notification; otherwise does nothing.
     */
    method ProcessDecisions(approvalRequest: LoanApprovalRequest, allDecisions: map<string, Decision>)
      requires Valid()
      requires approvalRequest == LookupKey(approvalRequest.customerId)
      requires approvalRequest.customerId in pending
      modifies this
      ensures Valid()
      ensures events == old(events) && pending == old(pending)
      ensures Consensus(allDecisions).Some? ==>
                var key := approvalRequest.(decisionState := Consensus(allDecisions).value);
                && finalised == old(finalised) + {key}
                && notifications == old(notifications) + [Notification(key, allDecisions)]
      ensures Consensus(allDecisions).None? ==>
                finalised == old(finalised) && notifications == old(notifications)
    {
      var allApproved := AllMatchState(allDecisions, APPROVED);
      var allDeclined := AllMatchState(allDecisions, DECLINED);
      if allApproved || allDeclined {
        var finalKey := approvalRequest.(decisionState := if allApproved then APPROVED else DECLINED);
        FinalKeyIsNewEntry(approvalRequest.customerId, finalKey.decisionState);
        finalised := finalised + {finalKey};
        notifications := notifications + [Notification(finalKey, allDecisions)];
      }
    }

    /**
     * The statistics count pending requests only: a final key has a null uuid,
     * so the filter never selects it.
     */
    lemma WindowKeysArePending(ids: set<Uuid>)
      requires Valid()
      ensures forall k | k in WindowKeys(StoredKeys(), ids) ::
                k !in finalised && k.customerId in pending && pending[k.customerId].request == k
    {
      forall k | k in WindowKeys(StoredKeys(), ids)
        ensures k !in finalised && k.customerId in pending && pending[k.customerId].request == k
      {
        if k !in finalised {
          var c :| c in pending && pending[c].request == k;
        }
      }
    }

    /**
     * The `filter` and `map` stages of `getStatistics`: one pass over the
     * stored keys, in the key set's iteration order, keeping the amount of every
     * key whose uuid is among `ids`.
     */
    static method WindowAmounts(keys: set<LoanApprovalRequest>, ids: set<Uuid>)
      returns (amounts: seq<Option<real>>, ghost picked: seq<LoanApprovalRequest>)
      ensures Enumerates(picked, WindowKeys(keys, ids))
      ensures amounts == LoanAmountsOf(picked)
      ensures forall i | 0 <= i < |amounts| :: exists k | k in WindowKeys(keys, ids) :: amounts[i] == k.loanAmount
      ensures forall k | k in WindowKeys(keys, ids) :: k.loanAmount in amounts
    {
      ghost var selected := WindowKeys(keys, ids);
      var remaining := keys;
      amounts, picked := [], [];
      while remaining != {}
        invariant remaining <= keys
        invariant Distinct(picked)
        invariant forall i | 0 <= i < |picked| :: picked[i] in selected && picked[i] !in remaining
        invariant forall k | k in selected && k !in remaining :: k in picked
        invariant amounts == LoanAmountsOf(picked)
        decreases remaining
      {
        var k :| k in remaining;
        if k.uuid.Some? && k.uuid.value in ids {
          assert LoanAmountsOf(picked + [k]) == LoanAmountsOf(picked) + [k.loanAmount];
          amounts := amounts + [k.loanAmount];
          picked := picked + [k];
        }
        remaining := remaining - {k};
      }
      forall k | k in selected
        ensures k.loanAmount in amounts
      {
        var j :| 0 <= j < |picked| && picked[j] == k;
        assert amounts[j] == k.loanAmount;
      }
    }

    /**
     * `getStatistics(period)`: the statistics of the amounts of the stored
     * requests whose uuid some event at or after `now - period` maps to. One
     * selected request with a null amount makes `calculate` throw
     * NullPointerException, which is None.
     */
    method GetStatistics(now: Instant, period: int) returns (statistics: Option<Statistics>)
      ensures var selected := WindowKeys(StoredKeys(), TailValues(events, Probe(now - period)));
              && (statistics.None? <==> exists k | k in selected :: k.loanAmount.None?)
              && (statistics.Some? ==> statistics.value == StatisticsOf(selected))
    {
      var eventIds := TailValues(events, Probe(now - period));
      ghost var selected := WindowKeys(StoredKeys(), eventIds);
      var amounts, picked := WindowAmounts(StoredKeys(), eventIds);
      statistics := CalculateNullable(amounts);
      if statistics.Some? {
        assert forall i | 0 <= i < |picked| :: amounts[i] == picked[i].loanAmount;
        PresentAmounts(picked);
        StatisticsOfAnyOrder(selected, picked);
      } else {
        ghost var i :| 0 <= i < |amounts| && amounts[i].None?;
        ghost var k :| k in selected && amounts[i] == k.loanAmount;
      }
    }
  }
}
