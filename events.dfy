/**
 * `EventKey` and the ordered event index it keys: a map from
 * (creation time, uuid) to uuid, compared by `EventKey.compareTo`.
 */
module Events {
  import opened Wrappers

  /** A `java.util.UUID`: its two signed 64-bit halves. */
  datatype Uuid = Uuid(mostSigBits: int, leastSigBits: int)

  /** A point in time, in nanoseconds since the epoch (the zone of a `ZonedDateTime` is not modelled). */
  type Instant = int

  const NanosPerMilli := 1_000_000
  const NanosPerSecond := 1_000_000_000

  /** `toInstant().toEpochMilli()`: floor division, so sub-millisecond digits are dropped. */
  function EpochMilli(t: Instant): (m: int)
    ensures m * NanosPerMilli <= t < (m + 1) * NanosPerMilli
  {
    t / NanosPerMilli
  }

  /** `Long.compare`. */
  function CompareLong(a: int, b: int): int {
    if a < b then -1 else if a > b then 1 else 0
  }

  /** `UUID.compareTo`: the most significant half first, then the least significant half. */
  function CompareUuid(a: Uuid, b: Uuid): (r: int)
    ensures -1 <= r <= 1
    ensures r == 0 <==> a == b
  {
    var c := CompareLong(a.mostSigBits, b.mostSigBits);
    if c != 0 then c else CompareLong(a.leastSigBits, b.leastSigBits)
  }

  /** A key of the event index; `uuid` is `None` for the timestamp-only constructor. */
  datatype EventKey = EventKey(timestamp: Instant, uuid: Option<Uuid>)

  /** `new EventKey(timestamp)`: a probe with no uuid. */
  function Probe(t: Instant): EventKey {
    EventKey(t, None)
  }

  /** `EventKey.compareTo`. */
  function Compare(a: EventKey, b: EventKey): (r: int)
    ensures -1 <= r <= 1
  {
    var c := CompareLong(EpochMilli(a.timestamp), EpochMilli(b.timestamp));
    if c != 0 then c
    else if a.uuid.Some? && b.uuid.Some? then CompareUuid(a.uuid.value, b.uuid.value)
    else 0
  }

  /** Keys in different milliseconds are ordered by the milliseconds alone, whatever their uuids. */
  lemma CompareByMillis(a: EventKey, b: EventKey)
    requires EpochMilli(a.timestamp) != EpochMilli(b.timestamp)
    ensures Compare(a, b) < 0 <==> EpochMilli(a.timestamp) < EpochMilli(b.timestamp)
    ensures Compare(a, b) > 0 <==> EpochMilli(a.timestamp) > EpochMilli(b.timestamp)
  {
  }

  /** In the same millisecond, two keys with uuids are ordered by uuid. */
  lemma CompareSameMillisByUuid(a: EventKey, b: EventKey)
    requires EpochMilli(a.timestamp) == EpochMilli(b.timestamp)
    requires a.uuid.Some? && b.uuid.Some?
    ensures Compare(a, b) == CompareUuid(a.uuid.value, b.uuid.value)
  {
  }

  /** In the same millisecond, a key without a uuid compares equal to every key. */
  lemma CompareSameMillisNullUuid(a: EventKey, b: EventKey)
    requires EpochMilli(a.timestamp) == EpochMilli(b.timestamp)
    requires a.uuid.None? || b.uuid.None?
    ensures Compare(a, b) == 0
  {
  }

  /** A timestamp-only probe has exactly the keys of its millisecond and later at or after it. */
  lemma ProbeIsInclusive(k: EventKey, t: Instant)
    ensures Compare(k, Probe(t)) >= 0 <==> EpochMilli(k.timestamp) >= EpochMilli(t)
  {
  }

  /** Timestamps that fall in the same millisecond are interchangeable for the comparison. */
  lemma SubMillisecondIgnored(a: EventKey, a': EventKey, b: EventKey)
    requires EpochMilli(a.timestamp) == EpochMilli(a'.timestamp) && a.uuid == a'.uuid
    ensures Compare(a, b) == Compare(a', b) && Compare(b, a) == Compare(b, a')
  {
  }

  /** Antisymmetry: swapping the operands flips the sign. */
  lemma CompareAntisymmetric(a: EventKey, b: EventKey)
    ensures Compare(a, b) == -Compare(b, a)
  {
  }

  /** Among keys with a uuid, 0 means the same millisecond and the same uuid. */
  lemma CompareZeroWithUuids(a: EventKey, b: EventKey)
    requires a.uuid.Some? && b.uuid.Some?
    ensures Compare(a, b) == 0 <==> EpochMilli(a.timestamp) == EpochMilli(b.timestamp) && a.uuid == b.uuid
  {
  }

  /** The order on (millisecond, uuid) that `compareTo` follows for keys with a uuid. */
  predicate LexLeq(a: EventKey, b: EventKey)
    requires a.uuid.Some? && b.uuid.Some?
  {
    var ma, mb := EpochMilli(a.timestamp), EpochMilli(b.timestamp);
    var ua, ub := a.uuid.value, b.uuid.value;
    ma < mb || (ma == mb && (ua.mostSigBits < ub.mostSigBits ||
                              (ua.mostSigBits == ub.mostSigBits && ua.leastSigBits <= ub.leastSigBits)))
  }

  /** Restricted to keys with a uuid, `compareTo` is the lexicographic order on (millisecond, uuid). */
  lemma CompareIsLexicographic(a: EventKey, b: EventKey)
    requires a.uuid.Some? && b.uuid.Some?
    ensures Compare(a, b) <= 0 <==> LexLeq(a, b)
  {
  }

  /** Restricted to keys with a uuid, `compareTo` is transitive. */
  lemma CompareTransitive(a: EventKey, b: EventKey, c: EventKey)
    requires a.uuid.Some? && b.uuid.Some? && c.uuid.Some?
    requires Compare(a, b) <= 0 && Compare(b, c) <= 0
    ensures Compare(a, c) <= 0
  {
    CompareIsLexicographic(a, b);
    CompareIsLexicographic(b, c);
    CompareIsLexicographic(a, c);
  }

  /** With a uuid-less key in the middle, "compares as 0" is not transitive. */
  lemma NullUuidBreaksTransitivity()
    ensures var a, p, b := EventKey(0, Some(Uuid(0, 1))), Probe(0), EventKey(0, Some(Uuid(0, 2)));
            Compare(a, p) == 0 && Compare(p, b) == 0 && Compare(a, b) != 0
  {
  }

  /** One mapping of the event index: key to uuid. */
  datatype Entry = Entry(key: EventKey, value: Uuid)

  /**
   * `events.putIfAbsent(key, value)` on the index, held as the sequence of its
   * mappings in insertion order: nothing is added when some key compares
   * equal to `key`.
   */
  function PutIfAbsent(events: seq<Entry>, key: EventKey, value: Uuid): seq<Entry> {
    if exists i | 0 <= i < |events| :: Compare(events[i].key, key) == 0 then events
    else events + [Entry(key, value)]
  }

  /** Every key compares equal to itself. */
  lemma CompareReflexive(k: EventKey)
    ensures Compare(k, k) == 0
  {
  }

  /**
   * `putIfAbsent` keeps every mapping and adds at most one: afterwards some
   * key compares equal to `key`, and the index grew exactly when none did
   * before, by the mapping from `key` to `value`.
   */
  lemma PutIfAbsentKeeps(events: seq<Entry>, key: EventKey, value: Uuid)
    ensures var r := PutIfAbsent(events, key, value);
            && events <= r && |r| <= |events| + 1
            && (exists i | 0 <= i < |r| :: Compare(r[i].key, key) == 0)
            && (|r| == |events| + 1 <==> forall i | 0 <= i < |events| :: Compare(events[i].key, key) != 0)
            && (|r| == |events| + 1 ==> r[|events|] == Entry(key, value))
  {
    var r := PutIfAbsent(events, key, value);
    if |r| == |events| + 1 {
      CompareReflexive(key);
      assert r[|events|].key == key;
    }
  }

  /** Every key carries the uuid it maps to. */
  predicate KeysCarryValues(events: seq<Entry>) {
    forall i | 0 <= i < |events| :: events[i].key.uuid == Some(events[i].value)
  }

  /** The set of uuids the index maps to. */
  function Values(events: seq<Entry>): set<Uuid> {
    set e | e in events :: e.value
  }

  /** A key built from a uuid that the index does not hold yet is always inserted. */
  lemma PutFreshAppends(events: seq<Entry>, t: Instant, u: Uuid)
    requires KeysCarryValues(events)
    requires u !in Values(events)
    ensures PutIfAbsent(events, EventKey(t, Some(u)), u) == events + [Entry(EventKey(t, Some(u)), u)]
  {
    forall i | 0 <= i < |events|
      ensures Compare(events[i].key, EventKey(t, Some(u))) != 0
    {
      assert events[i] in events;
      CompareZeroWithUuids(events[i].key, EventKey(t, Some(u)));
    }
  }

  /** `new HashSet<>(events.tailMap(probe).values())`: the values of all keys at or after the probe. */
  function TailValues(events: seq<Entry>, probe: EventKey): (ids: set<Uuid>)
    ensures ids <= Values(events)
  {
    set e | e in events && Compare(e.key, probe) >= 0 :: e.value
  }

  /** The tail from a timestamp-only probe holds the uuid of every event in its millisecond or later. */
  lemma TailFromProbe(events: seq<Entry>, t: Instant, u: Uuid)
    ensures u in TailValues(events, Probe(t)) <==>
            exists e | e in events :: e.value == u && EpochMilli(e.key.timestamp) >= EpochMilli(t)
  {
    if u in TailValues(events, Probe(t)) {
      var e :| e in events && Compare(e.key, Probe(t)) >= 0 && e.value == u;
      ProbeIsInclusive(e.key, t);
    }
    if exists e | e in events :: e.value == u && EpochMilli(e.key.timestamp) >= EpochMilli(t) {
      var e :| e in events && e.value == u && EpochMilli(e.key.timestamp) >= EpochMilli(t);
      ProbeIsInclusive(e.key, t);
    }
  }

  /**
   * The window is inclusive at its lower edge: an event created exactly `period`
   * ago is in it, and so is one created up to a millisecond earlier when both
   * instants fall in the same millisecond.
   */
  lemma WindowLowerEdgeIncluded(created: Instant, now: Instant, period: int, u: Uuid)
    requires EpochMilli(created) == EpochMilli(now - period)
    ensures u in TailValues([Entry(EventKey(created, Some(u)), u)], Probe(now - period))
  {
    TailFromProbe([Entry(EventKey(created, Some(u)), u)], now - period, u);
  }
}
