/**
 * The request and decision records, and the phase-dependent identity of
 * `LoanApprovalRequest`: while PENDING a request is its customer id, afterwards
 * it is all six of its fields.
 */
module Requests {
  import opened Wrappers
  import opened Events

  datatype DecisionState = PENDING | APPROVED | DECLINED

  /** An approver; `None` is a name left null, which `LoanService` builds from a null list element. */
  datatype Approver = Approver(name: Option<string>)

  /** An approver's decision on one customer's request. */
  datatype Decision = Decision(customerId: string, approverUsername: string, state: DecisionState)

  /** The six fields of a `LoanApprovalRequest`; `None` stands for a field left null. */
  datatype LoanApprovalRequest = LoanApprovalRequest(
    customerId: string,
    loanAmount: Option<real>,
    approvers: Option<set<Approver>>,
    timestamp: Option<Instant>,
    decisionState: DecisionState,
    uuid: Option<Uuid>)

  /** `LoanApprovalRequest.equals`, with the receiver `a`; in either phase only requests of one customer are equal. */
  predicate Equals(a: LoanApprovalRequest, b: LoanApprovalRequest)
    ensures Equals(a, b) ==> a.customerId == b.customerId
  {
    if a.decisionState == PENDING then
      a.customerId == b.customerId
    else
      && a.customerId == b.customerId
      && a.loanAmount == b.loanAmount
      && a.approvers == b.approvers
      && a.timestamp == b.timestamp
      && a.decisionState == b.decisionState
      && a.uuid == b.uuid
  }

  lemma EqualsReflexive(a: LoanApprovalRequest)
    ensures Equals(a, a)
  {
  }

  /** A PENDING receiver equals every request of the same customer, whatever its other fields. */
  lemma PendingEqualsByCustomer(a: LoanApprovalRequest, b: LoanApprovalRequest)
    requires a.decisionState == PENDING
    ensures Equals(a, b) <==> a.customerId == b.customerId
  {
  }

  /** A finalised receiver equals only a request with all six fields equal. */
  lemma FinalEqualsAllFields(a: LoanApprovalRequest, b: LoanApprovalRequest)
    requires a.decisionState != PENDING
    ensures Equals(a, b) <==> a == b
  {
  }

  /** `equals` is not symmetric across phases. */
  lemma EqualsNotSymmetric()
    ensures var a := LoanApprovalRequest("AB-CDEF-GHI", Some(100.0), None, None, PENDING, None);
            var b := LoanApprovalRequest("AB-CDEF-GHI", Some(200.0), None, None, APPROVED, None);
            Equals(a, b) && !Equals(b, a)
  {
  }

  // ---- hashCode ----------------------------------------------------------

  const TwoTo32 := 0x1_0000_0000
  const TwoTo31 := 0x8000_0000

  /** A Java `int` range check. */
  predicate IsInt32(x: int) {
    -TwoTo31 <= x < TwoTo31
  }

  /** The 32-bit two's-complement wrap-around of Java `int` arithmetic. */
  function Wrap32(x: int): (r: int)
    ensures IsInt32(r)
  {
    (x + TwoTo31) % TwoTo32 - TwoTo31
  }

  /** `h = 31 * h + e` over the elements, from `seed`, in `int` arithmetic. */
  function Fold31(seed: int, hs: seq<int>): (r: int)
    ensures IsInt32(seed) ==> IsInt32(r)
  {
    if |hs| == 0 then seed else Wrap32(31 * Fold31(seed, hs[..|hs| - 1]) + hs[|hs| - 1])
  }

  /** `String.hashCode`, for strings in the Basic Multilingual Plane (one UTF-16 unit per character). */
  function StringHash(s: string): int {
    Fold31(0, seq(|s|, i requires 0 <= i < |s| => s[i] as int))
  }

  /** `Objects.hash(...)` of the given element hashes (`Arrays.hashCode`, seed 1). */
  function ObjectsHash(hs: seq<int>): int {
    Fold31(1, hs)
  }

  /**
   * The `hashCode` of the field types other than `String`, which are library
   * code (`BigDecimal`, `HashSet<Approver>`, `ZonedDateTime`, the enum, `UUID`).
   */
  datatype FieldHashes = FieldHashes(
    amount: real -> int,
    approvers: set<Approver> -> int,
    timestamp: Instant -> int,
    state: DecisionState -> int,
    uuid: Uuid -> int)

  /** The hash of a nullable field: 0 for null. */
  function OptionHash<T>(o: Option<T>, h: T -> int): int {
    if o.Some? then h(o.value) else 0
  }

  /** The element hashes fed to `Objects.hash` by a finalised request. */
  function FieldHashInputs(a: LoanApprovalRequest, fh: FieldHashes): seq<int> {
    [StringHash(a.customerId), OptionHash(a.loanAmount, fh.amount), OptionHash(a.approvers, fh.approvers),
     OptionHash(a.timestamp, fh.timestamp), fh.state(a.decisionState), OptionHash(a.uuid, fh.uuid)]
  }

  /** `LoanApprovalRequest.hashCode`: a Java `int` in both phases. */
  function HashCode(a: LoanApprovalRequest, fh: FieldHashes): (h: int)
    ensures IsInt32(h)
  {
    if a.decisionState == PENDING then ObjectsHash([StringHash(a.customerId)])
    else ObjectsHash(FieldHashInputs(a, fh))
  }

  /** Among PENDING requests, equal requests have equal hashes, so equality and hashing agree. */
  lemma PendingHashAgreesWithEquals(a: LoanApprovalRequest, b: LoanApprovalRequest, fh: FieldHashes)
    requires a.decisionState == PENDING && b.decisionState == PENDING
    requires Equals(a, b)
    ensures HashCode(a, fh) == HashCode(b, fh)
  {
  }

  /** Two wrapped values agree exactly when the unwrapped ones agree modulo 2^32. */
  lemma Wrap32Eq(x: int, y: int)
    ensures Wrap32(x) == Wrap32(y) <==> (x - y) % TwoTo32 == 0
  {
    var qx, rx := (x + TwoTo31) / TwoTo32, (x + TwoTo31) % TwoTo32;
    var qy, ry := (y + TwoTo31) / TwoTo32, (y + TwoTo31) % TwoTo32;
    assert x - y == (qx - qy) * TwoTo32 + (rx - ry);
    if (x - y) % TwoTo32 == 0 {
      var k := (x - y) / TwoTo32;
      assert x - y == k * TwoTo32;
      assert rx - ry == (k - qx + qy) * TwoTo32;
    }
  }

  /** 31 is odd, hence invertible modulo 2^32: multiplying two Java ints by 31 keeps them apart. */
  lemma Times31Injective(a: int, b: int)
    requires IsInt32(a) && IsInt32(b)
    requires (31 * (a - b)) % TwoTo32 == 0
    ensures a == b
  {
    // 31 * 3186588639 == 1 + 23 * 2^32
    var d := a - b;
    var k := 31 * d / TwoTo32;
    assert 31 * d == k * TwoTo32;
    assert d == k * 3186588639 * TwoTo32 - 23 * d * TwoTo32 by {
      assert 31 * d * 3186588639 == d + 23 * d * TwoTo32;
    }
    var j := k * 3186588639 - 23 * d;
    assert d == j * TwoTo32;
  }

  /** Changing one element changes the hash exactly when it changes that element modulo 2^32. */
  lemma {:induction false} Fold31OneElement(seed: int, p: seq<int>, x: int, y: int, q: seq<int>)
    requires IsInt32(seed)
    ensures Fold31(seed, p + [x] + q) == Fold31(seed, p + [y] + q) <==> (x - y) % TwoTo32 == 0
    decreases |q|
  {
    var fp := Fold31(seed, p);
    if |q| == 0 {
      assert p + [x] + q == p + [x] && (p + [x])[..|p|] == p;
      assert p + [y] + q == p + [y] && (p + [y])[..|p|] == p;
      Wrap32Eq(31 * fp + x, 31 * fp + y);
    } else {
      var q' := q[..|q| - 1];
      var z := q[|q| - 1];
      assert (p + [x] + q)[..|p + [x] + q| - 1] == p + [x] + q';
      assert (p + [y] + q)[..|p + [y] + q| - 1] == p + [y] + q';
      Fold31OneElement(seed, p, x, y, q');
      var fx, fy := Fold31(seed, p + [x] + q'), Fold31(seed, p + [y] + q');
      Wrap32Eq(31 * fx + z, 31 * fy + z);
      assert (31 * fx + z) - (31 * fy + z) == 31 * (fx - fy);
      if (31 * (fx - fy)) % TwoTo32 == 0 {
        Times31Injective(fx, fy);
      }
    }
  }

  /**
   * The finalised hash covers all six fields: for two finalised requests whose
   * field hashes differ in one position only, the hashes are equal exactly when
   * that field's hashes agree modulo 2^32.
   */
  lemma FinalHashCoversEveryField(a: LoanApprovalRequest, b: LoanApprovalRequest, fh: FieldHashes, i: nat)
    requires a.decisionState != PENDING && b.decisionState != PENDING
    requires i < 6
    requires forall j | 0 <= j < 6 && j != i :: FieldHashInputs(a, fh)[j] == FieldHashInputs(b, fh)[j]
    ensures HashCode(a, fh) == HashCode(b, fh) <==>
            (FieldHashInputs(a, fh)[i] - FieldHashInputs(b, fh)[i]) % TwoTo32 == 0
  {
    var ha, hb := FieldHashInputs(a, fh), FieldHashInputs(b, fh);
    assert ha == ha[..i] + [ha[i]] + ha[i + 1..];
    assert hb == hb[..i] + [hb[i]] + hb[i + 1..];
    assert ha[..i] == hb[..i] && ha[i + 1..] == hb[i + 1..];
    Fold31OneElement(1, ha[..i], ha[i], hb[i], ha[i + 1..]);
  }
}
