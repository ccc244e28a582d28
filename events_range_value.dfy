/** The value held by a `BuildSlaveEventsRange`, the response of a distributed
    build coordinator to a query for the events of a build slave: four optional
    fields, with `success` stored as a bool beside its own "is set" bit. This
    module gives the struct's field table, its presence-aware `equals` and
    `compareTo`, and the reference definitions they are proved against. */
module RangeValues {
  import opened Optional

  /** `BuildSlaveEventsQuery`, opaque: equal and ordered by its key. */
  datatype EventsQuery = EventsQuery(key: int)

  /** `SequencedBuildSlaveEvent`, opaque: equal and ordered by its key. */
  datatype SequencedEvent = SequencedEvent(key: int)

  /** What the struct holds. `success` keeps its stored value even while
      `successIsSet` is false; `None` is a null field. */
  datatype RangeValue = RangeValue(
    success: bool,
    successIsSet: bool,
    errorMessage: Option<string>,
    query: Option<EventsQuery>,
    events: Option<seq<SequencedEvent>>)

  /** A struct after the no-argument constructor or `clear()`. */
  const Cleared: RangeValue := RangeValue(false, false, None, None, None)

  // ---------------------------------------------------------------------------
  // The field table (`_Fields`)

  datatype Field = SUCCESS | ERROR_MESSAGE | QUERY | EVENTS

  function ThriftId(f: Field): (id: int)
    ensures 1 <= id <= 4
  {
    match f
    case SUCCESS => 1
    case ERROR_MESSAGE => 2
    case QUERY => 3
    case EVENTS => 4
  }

  function FieldName(f: Field): string {
    match f
    case SUCCESS => "success"
    case ERROR_MESSAGE => "errorMessage"
    case QUERY => "query"
    case EVENTS => "events"
  }

  /** `_Fields.findByThriftId`: null (None) for an id the struct does not have. */
  function FindByThriftId(id: int): (f: Option<Field>)
    ensures f.Some? <==> 1 <= id <= 4
    ensures f.Some? ==> ThriftId(f.value) == id
  {
    match id
    case 1 => Some(SUCCESS)
    case 2 => Some(ERROR_MESSAGE)
    case 3 => Some(QUERY)
    case 4 => Some(EVENTS)
    case _ => None
  }

  /** The `IllegalArgumentException` of `findByThriftIdOrThrow`. */
  datatype FieldLookupError = NoSuchField(id: int)

  function FindByThriftIdOrThrow(id: int): (r: Result<Field, FieldLookupError>)
    ensures r.Success? <==> 1 <= id <= 4
    ensures r.Success? ==> ThriftId(r.value) == id
    ensures r.Failure? ==> r.error == NoSuchField(id)
  {
    match FindByThriftId(id)
    case Some(f) => Success(f)
    case None => Failure(NoSuchField(id))
  }

  /** Looking a field up by its own id gives it back. */
  lemma FindByThriftIdInverse(f: Field)
    ensures FindByThriftId(ThriftId(f)) == Some(f)
  {
  }

  /** `isSet(field)`. */
  predicate IsSet(v: RangeValue, f: Field) {
    match f
    case SUCCESS => v.successIsSet
    case ERROR_MESSAGE => v.errorMessage.Some?
    case QUERY => v.query.Some?
    case EVENTS => v.events.Some?
  }

  /** `validate()`: no field is required; only a present query is checked, by
      its own `validate`, which this model takes as the parameter `queryValid`. */
  predicate Validate(v: RangeValue, queryValid: EventsQuery -> bool) {
    v.query.Some? ==> queryValid(v.query.value)
  }

  /** Every combination of presence passes `validate`. */
  lemma ValidateIgnoresPresence(v: RangeValue, queryValid: EventsQuery -> bool)
    requires v.query.Some? ==> queryValid(v.query.value)
    ensures Validate(v.(successIsSet := !v.successIsSet), queryValid)
    ensures Validate(v.(errorMessage := None), queryValid)
    ensures Validate(v.(events := None), queryValid)
    ensures Validate(v.(query := None), queryValid)
    ensures Validate(v, queryValid)
  {
  }

  // ---------------------------------------------------------------------------
  // Equality

  /** The reference meaning of equality: what remains once a stale `success`
      (one whose bit is clear) is forgotten. */
  function Normalize(v: RangeValue): (n: RangeValue)
    ensures n.successIsSet == v.successIsSet
    ensures n.success == (v.successIsSet && v.success)
    ensures n.errorMessage == v.errorMessage && n.query == v.query && n.events == v.events
  {
    if v.successIsSet then v else v.(success := false)
  }

  /** `equals(that)`, field by field, both absent, or
      both present with equal values. */
  predicate Equals(a: RangeValue, b: RangeValue) {
    && (a.successIsSet || b.successIsSet ==> a.successIsSet && b.successIsSet && a.success == b.success)
    && (a.errorMessage.Some? || b.errorMessage.Some? ==>
          a.errorMessage.Some? && b.errorMessage.Some? && a.errorMessage.value == b.errorMessage.value)
    && (a.query.Some? || b.query.Some? ==>
          a.query.Some? && b.query.Some? && a.query.value == b.query.value)
    && (a.events.Some? || b.events.Some? ==>
          a.events.Some? && b.events.Some? && a.events.value == b.events.value)
  }

  /** `equals` holds exactly when the normal forms coincide. */
  lemma EqualsIffSameNormalForm(a: RangeValue, b: RangeValue)
    ensures Equals(a, b) <==> Normalize(a) == Normalize(b)
  {
    if Normalize(a) == Normalize(b) {
      assert Normalize(a).successIsSet == Normalize(b).successIsSet;
      assert Normalize(a).success == Normalize(b).success;
    }
  }

  /** An unset `success` is equal whatever its stale value. */
  lemma StaleSuccessIgnored(v: RangeValue, stale: bool)
    requires !v.successIsSet
    ensures Equals(v, v.(success := stale))
  {
  }

  /** `equals` is an equivalence relation. */
  lemma EqualsIsEquivalence(a: RangeValue, b: RangeValue, c: RangeValue)
    ensures Equals(a, a)
    ensures Equals(a, b) ==> Equals(b, a)
    ensures Equals(a, b) && Equals(b, c) ==> Equals(a, c)
  {
    EqualsIffSameNormalForm(a, a);
    EqualsIffSameNormalForm(a, b);
    EqualsIffSameNormalForm(b, a);
    EqualsIffSameNormalForm(b, c);
    EqualsIffSameNormalForm(a, c);
  }

  // ---------------------------------------------------------------------------
  // Ordering. Results are signs: -1, 0 or 1.

  predicate IsSign(c: int) {
    c == -1 || c == 0 || c == 1
  }

  /** `Boolean.compareTo`: false before true. */
  function CompareBool(a: bool, b: bool): (c: int)
    ensures IsSign(c)
    ensures c == 0 <==> a == b
    ensures c < 0 <==> !a && b
  {
    if a == b then 0 else if a then 1 else -1
  }

  function CompareInt(a: int, b: int): (c: int)
    ensures IsSign(c)
    ensures c < 0 <==> a < b
    ensures c == 0 <==> a == b
  {
    if a < b then -1 else if a == b then 0 else 1
  }

  /** The sign of `String.compareTo`: the first differing character decides,
      otherwise the shorter string comes first. */
  function CompareStrings(a: string, b: string): (c: int)
    ensures IsSign(c)
    decreases |a|
  {
    if a == [] && b == [] then 0
    else if a == [] then -1
    else if b == [] then 1
    else if a[0] < b[0] then -1
    else if a[0] > b[0] then 1
    else CompareStrings(a[1..], b[1..])
  }

  /** `TBaseHelper.compareTo` on two lists: the shorter list first, then element
      by element. */
  function CompareEvents(a: seq<SequencedEvent>, b: seq<SequencedEvent>): (c: int)
    ensures IsSign(c)
  {
    if |a| != |b| then CompareInt(|a|, |b|) else CompareEventsFrom(a, b, 0)
  }

  function CompareEventsFrom(a: seq<SequencedEvent>, b: seq<SequencedEvent>, i: nat): (c: int)
    requires |a| == |b| && i <= |a|
    ensures IsSign(c)
    decreases |a| - i
  {
    if i == |a| then 0
    else if a[i].key != b[i].key then CompareInt(a[i].key, b[i].key)
    else CompareEventsFrom(a, b, i + 1)
  }

  /** One field's step of `compareTo`: presence first (unset before set), then
      the value, which `valueOrder` compares when both are present. */
  function ComparePresence(aSet: bool, bSet: bool, valueOrder: int): (c: int)
    requires IsSign(valueOrder)
    ensures IsSign(c)
    ensures !aSet && bSet ==> c == -1
    ensures aSet && !bSet ==> c == 1
  {
    var p := CompareBool(aSet, bSet);
    if p != 0 then p else if aSet then valueOrder else 0
  }

  /** The view of `success` that `equals` and `compareTo` look at. */
  function SuccessView(v: RangeValue): (o: Option<bool>)
    ensures o.Some? <==> v.successIsSet
    ensures o.Some? ==> o.value == v.success
  {
    if v.successIsSet then Some(v.success) else None
  }

  function SuccessOrder(a: RangeValue, b: RangeValue): (c: int)
    ensures IsSign(c)
  {
    var x, y := SuccessView(a), SuccessView(b);
    ComparePresence(x.Some?, y.Some?, if x.Some? && y.Some? then CompareBool(x.value, y.value) else 0)
  }

  function ErrorMessageOrder(a: RangeValue, b: RangeValue): (c: int)
    ensures IsSign(c)
  {
    var x, y := a.errorMessage, b.errorMessage;
    ComparePresence(x.Some?, y.Some?, if x.Some? && y.Some? then CompareStrings(x.value, y.value) else 0)
  }

  function QueryOrder(a: RangeValue, b: RangeValue): (c: int)
    ensures IsSign(c)
  {
    var x, y := a.query, b.query;
    ComparePresence(x.Some?, y.Some?, if x.Some? && y.Some? then CompareInt(x.value.key, y.value.key) else 0)
  }

  function EventsOrder(a: RangeValue, b: RangeValue): (c: int)
    ensures IsSign(c)
  {
    var x, y := a.events, b.events;
    ComparePresence(x.Some?, y.Some?, if x.Some? && y.Some? then CompareEvents(x.value, y.value) else 0)
  }

  /** `compareTo`: lexicographic over the fields in id order 1..4. */
  function CompareTo(a: RangeValue, b: RangeValue): (c: int)
    ensures IsSign(c)
  {
    var c1 := SuccessOrder(a, b);
    if c1 != 0 then c1 else
    var c2 := ErrorMessageOrder(a, b);
    if c2 != 0 then c2 else
    var c3 := QueryOrder(a, b);
    if c3 != 0 then c3 else
    EventsOrder(a, b)
  }

  // ---------------------------------------------------------------------------
  // The comparators are total orders consistent with equality.

  lemma {:induction false} CompareStringsIsOrder(a: string, b: string)
    ensures CompareStrings(a, b) == 0 <==> a == b
    ensures CompareStrings(a, b) == -CompareStrings(b, a)
    decreases |a|
  {
    if a != [] && b != [] && a[0] == b[0] {
      CompareStringsIsOrder(a[1..], b[1..]);
      if a[1..] == b[1..] {
        assert a == [a[0]] + a[1..] && b == [b[0]] + b[1..];
      }
    }
  }

  lemma {:induction false} CompareStringsTransitive(a: string, b: string, c: string)
    requires CompareStrings(a, b) < 0 && CompareStrings(b, c) < 0
    ensures CompareStrings(a, c) < 0
    decreases |a|
  {
    if a != [] && b != [] && c != [] && a[0] == b[0] && b[0] == c[0] {
      CompareStringsTransitive(a[1..], b[1..], c[1..]);
    }
  }

  lemma {:induction false} CompareEventsFromIsOrder(a: seq<SequencedEvent>, b: seq<SequencedEvent>, i: nat)
    requires |a| == |b| && i <= |a|
    ensures CompareEventsFrom(a, b, i) == 0 <==> a[i..] == b[i..]
    ensures CompareEventsFrom(a, b, i) == -CompareEventsFrom(b, a, i)
    decreases |a| - i
  {
    if i < |a| {
      assert a[i..] == [a[i]] + a[i + 1..] && b[i..] == [b[i]] + b[i + 1..];
      if a[i].key == b[i].key {
        CompareEventsFromIsOrder(a, b, i + 1);
      } else {
        assert a[i..][0] != b[i..][0];
      }
    }
  }

  lemma {:induction false} CompareEventsFromTransitive(a: seq<SequencedEvent>, b: seq<SequencedEvent>, c: seq<SequencedEvent>, i: nat)
    requires |a| == |b| == |c| && i <= |a|
    requires CompareEventsFrom(a, b, i) < 0 && CompareEventsFrom(b, c, i) < 0
    ensures CompareEventsFrom(a, c, i) < 0
    decreases |a| - i
  {
    if i < |a| && a[i].key == b[i].key && b[i].key == c[i].key {
      CompareEventsFromTransitive(a, b, c, i + 1);
    }
  }

  lemma CompareEventsIsOrder(a: seq<SequencedEvent>, b: seq<SequencedEvent>)
    ensures CompareEvents(a, b) == 0 <==> a == b
    ensures CompareEvents(a, b) == -CompareEvents(b, a)
  {
    if |a| == |b| {
      CompareEventsFromIsOrder(a, b, 0);
      assert a[0..] == a && b[0..] == b;
    }
  }

  lemma CompareEventsTransitive(a: seq<SequencedEvent>, b: seq<SequencedEvent>, c: seq<SequencedEvent>)
    requires CompareEvents(a, b) < 0 && CompareEvents(b, c) < 0
    ensures CompareEvents(a, c) < 0
  {
    if |a| == |b| == |c| {
      CompareEventsFromTransitive(a, b, c, 0);
    }
  }

  /** Each field's order is zero exactly on equal views, flips under swapping,
      and is transitive. */
  lemma FieldOrdersAreOrders(a: RangeValue, b: RangeValue)
    ensures SuccessOrder(a, b) == 0 <==> SuccessView(a) == SuccessView(b)
    ensures ErrorMessageOrder(a, b) == 0 <==> a.errorMessage == b.errorMessage
    ensures QueryOrder(a, b) == 0 <==> a.query == b.query
    ensures EventsOrder(a, b) == 0 <==> a.events == b.events
    ensures SuccessOrder(a, b) == -SuccessOrder(b, a)
    ensures ErrorMessageOrder(a, b) == -ErrorMessageOrder(b, a)
    ensures QueryOrder(a, b) == -QueryOrder(b, a)
    ensures EventsOrder(a, b) == -EventsOrder(b, a)
  {
    SuccessOrderIsOrder(a, b);
    ErrorMessageOrderIsOrder(a, b);
    QueryOrderIsOrder(a, b);
    EventsOrderIsOrder(a, b);
  }

  /** The field steps one at a time: zero iff the field's views agree, and
      antisymmetric. */
  lemma SuccessOrderIsOrder(a: RangeValue, b: RangeValue)
    ensures SuccessOrder(a, b) == 0 <==> SuccessView(a) == SuccessView(b)
    ensures SuccessOrder(a, b) == -SuccessOrder(b, a)
  {
  }

  lemma ErrorMessageOrderIsOrder(a: RangeValue, b: RangeValue)
    ensures ErrorMessageOrder(a, b) == 0 <==> a.errorMessage == b.errorMessage
    ensures ErrorMessageOrder(a, b) == -ErrorMessageOrder(b, a)
  {
    if a.errorMessage.Some? && b.errorMessage.Some? {
      CompareStringsIsOrder(a.errorMessage.value, b.errorMessage.value);
    }
  }

  lemma QueryOrderIsOrder(a: RangeValue, b: RangeValue)
    ensures QueryOrder(a, b) == 0 <==> a.query == b.query
    ensures QueryOrder(a, b) == -QueryOrder(b, a)
  {
  }

  lemma EventsOrderIsOrder(a: RangeValue, b: RangeValue)
    ensures EventsOrder(a, b) == 0 <==> a.events == b.events
    ensures EventsOrder(a, b) == -EventsOrder(b, a)
  {
    if a.events.Some? && b.events.Some? {
      CompareEventsIsOrder(a.events.value, b.events.value);
    }
  }

  lemma FieldOrdersTransitive(a: RangeValue, b: RangeValue, c: RangeValue)
    ensures SuccessOrder(a, b) < 0 && SuccessOrder(b, c) < 0 ==> SuccessOrder(a, c) < 0
    ensures ErrorMessageOrder(a, b) < 0 && ErrorMessageOrder(b, c) < 0 ==> ErrorMessageOrder(a, c) < 0
    ensures QueryOrder(a, b) < 0 && QueryOrder(b, c) < 0 ==> QueryOrder(a, c) < 0
    ensures EventsOrder(a, b) < 0 && EventsOrder(b, c) < 0 ==> EventsOrder(a, c) < 0
  {
    if a.errorMessage.Some? && b.errorMessage.Some? && c.errorMessage.Some?
      && CompareStrings(a.errorMessage.value, b.errorMessage.value) < 0
      && CompareStrings(b.errorMessage.value, c.errorMessage.value) < 0
    {
      CompareStringsTransitive(a.errorMessage.value, b.errorMessage.value, c.errorMessage.value);
    }
    if a.events.Some? && b.events.Some? && c.events.Some?
      && CompareEvents(a.events.value, b.events.value) < 0
      && CompareEvents(b.events.value, c.events.value) < 0
    {
      CompareEventsTransitive(a.events.value, b.events.value, c.events.value);
    }
  }

  /** `x.compareTo(y) == 0` exactly when `x.equals(y)`; in particular
      `x.compareTo(x) == 0`. */
  lemma CompareToZeroIffEquals(a: RangeValue, b: RangeValue)
    ensures CompareTo(a, b) == 0 <==> Equals(a, b)
    ensures CompareTo(a, a) == 0
  {
    FieldOrdersAreOrders(a, b);
    FieldOrdersAreOrders(a, a);
    EqualsIffSameNormalForm(a, b);
  }

  /** `sgn(x.compareTo(y)) == -sgn(y.compareTo(x))`. */
  lemma CompareToAntisymmetric(a: RangeValue, b: RangeValue)
    ensures CompareTo(a, b) == -CompareTo(b, a)
  {
    FieldOrdersAreOrders(a, b);
  }

  /** `compareTo` is transitive. */
  lemma CompareToTransitive(a: RangeValue, b: RangeValue, c: RangeValue)
    requires CompareTo(a, b) < 0 && CompareTo(b, c) < 0
    ensures CompareTo(a, c) < 0
  {
    FieldOrdersAreOrders(a, b);
    FieldOrdersAreOrders(b, c);
    FieldOrdersAreOrders(a, c);
    FieldOrdersTransitive(a, b, c);
  }

  /** Equal structs compare alike to every other struct. */
  lemma CompareToRespectsEquals(a: RangeValue, b: RangeValue, c: RangeValue)
    requires Equals(a, b)
    ensures CompareTo(a, c) == CompareTo(b, c)
  {
    EqualsIffSameNormalForm(a, b);
    assert SuccessView(a) == SuccessView(b);
  }
}
