/** The two wire schemes of `BuildSlaveEventsRange` over an abstract token
    stream: the tagged "standard" scheme (field headers, unknown fields skipped,
    a STOP mark at the end) and the compact "tuple" scheme (a four-bit presence
    set, then the present fields in id order). Each scheme is given by a writer
    and a reader function; the reader functions say what a read does to a
    struct that already holds `base`. */
module RangeProtocol {
  import opened Optional
  import opened RangeValues

  /** Thrift's wire types (STOP is the separate token `FieldStop`). */
  datatype TType = BOOL | BYTE | DOUBLE | I16 | I32 | I64 | STRING | STRUCT | MAP | SET | LIST | ENUM

  /** One protocol call's worth of data. A nested struct is one token: its own
      `read`/`write` is not part of this model. A value of a type this struct
      never reads is the single token `OtherValue`. */
  datatype Token =
    | FieldBegin(fieldType: TType, id: int)
    | FieldStop
    | BoolValue(b: bool)
    | StringValue(s: string)
    | I32Value(n: int)
    | QueryStruct(q: EventsQuery)
    | EventStruct(e: SequencedEvent)
    | ListBegin(elemType: TType, size: int)
    | BitSet(bits: bv4)
    | OtherValue(t: TType)

  /** Why a read or write throws: the stream ends (`TTransportException`), holds
      something else than the protocol expects, announces a negative list size,
      or `validate()` rejects the struct. */
  datatype ProtocolError = Truncated | UnexpectedToken | NegativeSize | InvalidQuery

  /** The wire type each field is written with. */
  function FieldType(f: Field): TType {
    match f
    case SUCCESS => BOOL
    case ERROR_MESSAGE => STRING
    case QUERY => STRUCT
    case EVENTS => LIST
  }

  /** A field header the standard reader decodes: a known id with its own type. */
  predicate IsKnownHeader(t: TType, id: int) {
    FindByThriftId(id).Some? && FieldType(FindByThriftId(id).value) == t
  }

  /** What a read leaves in a struct that held `base` when it decodes the
      fields present in `v`: those replace the old ones, the others stay. */
  function Overlay(base: RangeValue, v: RangeValue): (r: RangeValue)
    ensures r.successIsSet == (base.successIsSet || v.successIsSet)
    ensures v.successIsSet ==> r.success == v.success
    ensures !v.successIsSet ==> r.success == base.success
    ensures r.errorMessage == if v.errorMessage.Some? then v.errorMessage else base.errorMessage
    ensures r.query == if v.query.Some? then v.query else base.query
    ensures r.events == if v.events.Some? then v.events else base.events
  {
    RangeValue(
      if v.successIsSet then v.success else base.success,
      base.successIsSet || v.successIsSet,
      if v.errorMessage.Some? then v.errorMessage else base.errorMessage,
      if v.query.Some? then v.query else base.query,
      if v.events.Some? then v.events else base.events)
  }

  /** Reading into a fresh (or cleared) struct yields the normal form of what
      was written, which `equals` the original. */
  lemma OverlayOnCleared(v: RangeValue)
    ensures Overlay(Cleared, v) == Normalize(v)
    ensures Equals(Overlay(Cleared, v), v)
  {
    EqualsIffSameNormalForm(Overlay(Cleared, v), v);
  }

  /** The tokens of a list's elements. */
  function EventTokens(es: seq<SequencedEvent>): (toks: seq<Token>)
    ensures |toks| == |es|
    ensures forall i :: 0 <= i < |es| ==> toks[i] == EventStruct(es[i])
  {
    seq(|es|, i requires 0 <= i < |es| => EventStruct(es[i]))
  }

  // ---------------------------------------------------------------------------
  // Reading pieces shared by both schemes

  /** Reads `n` nested events, as the `for` loops of both readers do. */
  function ReadEvents(toks: seq<Token>, n: nat): (r: Result<seq<SequencedEvent>, ProtocolError>)
    ensures r.Success? <==> n <= |toks| && forall i :: 0 <= i < n ==> toks[i].EventStruct?
    ensures r.Success? ==> |r.value| == n && forall i :: 0 <= i < n ==> toks[i] == EventStruct(r.value[i])
    ensures r.Failure? ==>
      r.error == (if exists k :: 0 <= k < n && k < |toks| && !toks[k].EventStruct? then UnexpectedToken else Truncated)
  {
    if n == 0 then Success([])
    else if toks == [] then Failure(Truncated)
    else if !toks[0].EventStruct? then Failure(UnexpectedToken)
    else
      var tail := ReadEvents(toks[1..], n - 1);
      if tail.Failure? then
        assert forall k :: 0 <= k < n - 1 && k < |toks| - 1 ==> toks[1..][k] == toks[k + 1];
        assert (exists k :: 0 <= k < n - 1 && k < |toks| - 1 && !toks[1..][k].EventStruct?)
            <==> (exists k :: 0 <= k < n && k < |toks| && !toks[k].EventStruct?) by {
          if exists k :: 0 <= k < n && k < |toks| && !toks[k].EventStruct? {
            var k :| 0 <= k < n && k < |toks| && !toks[k].EventStruct?;
            assert k != 0;
            assert !toks[1..][k - 1].EventStruct?;
          }
        }
        Failure(tail.error)
      else
        Success([toks[0].e] + tail.value)
  }

  /** A value token of a type that is not a list. */
  predicate MatchesScalar(t: TType, tok: Token) {
    match t
    case BOOL => tok.BoolValue?
    case STRING => tok.StringValue?
    case I32 => tok.I32Value?
    case STRUCT => tok.QueryStruct? || tok.EventStruct?
    case LIST => false
    case _ => tok == OtherValue(t)
  }

  /** `TProtocolUtil.skip`: passes over one value of type `t` and returns the
      rest of the stream, always a proper suffix. */
  function Skip(t: TType, toks: seq<Token>): (r: Result<seq<Token>, ProtocolError>)
    ensures r.Success? ==> |r.value| < |toks| && r.value == toks[|toks| - |r.value|..]
    decreases |toks|, 0
  {
    if toks == [] then Failure(Truncated)
    else if t == LIST then
      match toks[0]
      case ListBegin(elemType, n) =>
        if n < 0 then Failure(NegativeSize) else SkipElements(elemType, n, toks[1..])
      case _ => Failure(UnexpectedToken)
    else if MatchesScalar(t, toks[0]) then Success(toks[1..])
    else Failure(UnexpectedToken)
  }

  function SkipElements(t: TType, n: nat, toks: seq<Token>): (r: Result<seq<Token>, ProtocolError>)
    ensures r.Success? ==> |r.value| <= |toks| && r.value == toks[|toks| - |r.value|..]
    decreases |toks|, 1, n
  {
    if n == 0 then Success(toks)
    else
      match Skip(t, toks)
      case Failure(e) => Failure(e)
      case Success(rest) => SkipElements(t, n - 1, rest)
  }

  // ---------------------------------------------------------------------------
  // The standard scheme

  /** Each set field behind its header; an unset field is not written. */
  function StandardSuccessField(v: RangeValue): seq<Token> {
    if v.successIsSet then [FieldBegin(BOOL, 1), BoolValue(v.success)] else []
  }

  function StandardErrorMessageField(v: RangeValue): seq<Token> {
    if v.errorMessage.Some? then [FieldBegin(STRING, 2), StringValue(v.errorMessage.value)] else []
  }

  function StandardQueryField(v: RangeValue): seq<Token> {
    if v.query.Some? then [FieldBegin(STRUCT, 3), QueryStruct(v.query.value)] else []
  }

  function StandardEventsField(v: RangeValue): seq<Token> {
    if v.events.Some?
    then [FieldBegin(LIST, 4), ListBegin(STRUCT, |v.events.value|)] + EventTokens(v.events.value)
    else []
  }

  /** The set fields, in id order. */
  function StandardFieldTokens(v: RangeValue): seq<Token> {
    StandardSuccessField(v) + StandardErrorMessageField(v) + StandardQueryField(v) + StandardEventsField(v)
  }

  /** The standard `write`: `validate()`, then the set fields, then STOP. */
  function StandardWrite(v: RangeValue, queryValid: EventsQuery -> bool): Result<seq<Token>, ProtocolError> {
    if Validate(v, queryValid) then Success(StandardFieldTokens(v) + [FieldStop])
    else Failure(InvalidQuery)
  }

  /** The standard `read` loop from the current field header on; after STOP it
      runs `validate()`. */
  function StandardReadFields(v: RangeValue, toks: seq<Token>, queryValid: EventsQuery -> bool)
    : Result<RangeValue, ProtocolError>
    decreases |toks|
  {
    if toks == [] then Failure(Truncated)
    else if toks[0] == FieldStop then
      if Validate(v, queryValid) then Success(v) else Failure(InvalidQuery)
    else if !toks[0].FieldBegin? then Failure(UnexpectedToken)
    else StandardReadField(v, toks[0].fieldType, toks[0].id, toks[1..], queryValid)
  }

  /** One pass of the loop after a field header of type `t` and id `id`: a known
      field is decoded, anything else is skipped; then the loop goes on. */
  function StandardReadField(v: RangeValue, t: TType, id: int, rest: seq<Token>, queryValid: EventsQuery -> bool)
    : Result<RangeValue, ProtocolError>
    decreases |rest|
  {
    if id == 1 && t == BOOL then
      if rest == [] then Failure(Truncated)
      else if !rest[0].BoolValue? then Failure(UnexpectedToken)
      else StandardReadFields(v.(success := rest[0].b, successIsSet := true), rest[1..], queryValid)
    else if id == 2 && t == STRING then
      if rest == [] then Failure(Truncated)
      else if !rest[0].StringValue? then Failure(UnexpectedToken)
      else StandardReadFields(v.(errorMessage := Some(rest[0].s)), rest[1..], queryValid)
    else if id == 3 && t == STRUCT then
      if rest == [] then Failure(Truncated)
      else if !rest[0].QueryStruct? then Failure(UnexpectedToken)
      else StandardReadFields(v.(query := Some(rest[0].q)), rest[1..], queryValid)
    else if id == 4 && t == LIST then
      if rest == [] then Failure(Truncated)
      else if !rest[0].ListBegin? then Failure(UnexpectedToken)
      else if rest[0].size < 0 then Failure(NegativeSize)
      else
        var n: nat := rest[0].size;
        match ReadEvents(rest[1..], n)
        case Failure(e) => Failure(e)
        case Success(es) => StandardReadFields(v.(events := Some(es)), rest[1..][n..], queryValid)
    else
      match Skip(t, rest)
      case Failure(e) => Failure(e)
      case Success(after) => StandardReadFields(v, after, queryValid)
  }

  /** The standard `read` into a struct that holds `base`. */
  function StandardRead(base: RangeValue, toks: seq<Token>, queryValid: EventsQuery -> bool)
    : Result<RangeValue, ProtocolError>
  {
    StandardReadFields(base, toks, queryValid)
  }

  // ---------------------------------------------------------------------------
  // The tuple scheme

  /** The presence set: bit i is set iff the field with id i + 1 is. */
  function PresenceBits(v: RangeValue): (m: bv4)
    ensures (m & 1 != 0) == v.successIsSet
    ensures (m & 2 != 0) == v.errorMessage.Some?
    ensures (m & 4 != 0) == v.query.Some?
    ensures (m & 8 != 0) == v.events.Some?
  {
    (if v.successIsSet then 1 else 0)
    | (if v.errorMessage.Some? then 2 else 0)
    | (if v.query.Some? then 4 else 0)
    | (if v.events.Some? then 8 else 0)
  }

  /** Each present field's value alone; an absent field is not written. */
  function TupleSuccessField(v: RangeValue): seq<Token> {
    if v.successIsSet then [BoolValue(v.success)] else []
  }

  function TupleErrorMessageField(v: RangeValue): seq<Token> {
    if v.errorMessage.Some? then [StringValue(v.errorMessage.value)] else []
  }

  function TupleQueryField(v: RangeValue): seq<Token> {
    if v.query.Some? then [QueryStruct(v.query.value)] else []
  }

  function TupleEventsField(v: RangeValue): seq<Token> {
    if v.events.Some? then [I32Value(|v.events.value|)] + EventTokens(v.events.value) else []
  }

  /** The tuple `write`: the presence set, then the present fields in id order. */
  function TupleWrite(v: RangeValue): seq<Token> {
    [BitSet(PresenceBits(v))] + TupleSuccessField(v) + TupleErrorMessageField(v) + TupleQueryField(v)
    + TupleEventsField(v)
  }

  /** The tuple `read` into a struct that holds `base`. It does not run `validate()`. */
  function TupleRead(base: RangeValue, toks: seq<Token>): Result<RangeValue, ProtocolError> {
    if toks == [] then Failure(Truncated)
    else if !toks[0].BitSet? then Failure(UnexpectedToken)
    else TupleReadSuccess(base, toks[0].bits, toks[1..])
  }

  function TupleReadSuccess(v: RangeValue, bits: bv4, toks: seq<Token>): Result<RangeValue, ProtocolError> {
    if bits & 1 == 0 then TupleReadErrorMessage(v, bits, toks)
    else if toks == [] then Failure(Truncated)
    else if !toks[0].BoolValue? then Failure(UnexpectedToken)
    else TupleReadErrorMessage(v.(success := toks[0].b, successIsSet := true), bits, toks[1..])
  }

  function TupleReadErrorMessage(v: RangeValue, bits: bv4, toks: seq<Token>): Result<RangeValue, ProtocolError> {
    if bits & 2 == 0 then TupleReadQuery(v, bits, toks)
    else if toks == [] then Failure(Truncated)
    else if !toks[0].StringValue? then Failure(UnexpectedToken)
    else TupleReadQuery(v.(errorMessage := Some(toks[0].s)), bits, toks[1..])
  }

  function TupleReadQuery(v: RangeValue, bits: bv4, toks: seq<Token>): Result<RangeValue, ProtocolError> {
    if bits & 4 == 0 then TupleReadEvents(v, bits, toks)
    else if toks == [] then Failure(Truncated)
    else if !toks[0].QueryStruct? then Failure(UnexpectedToken)
    else TupleReadEvents(v.(query := Some(toks[0].q)), bits, toks[1..])
  }

  function TupleReadEvents(v: RangeValue, bits: bv4, toks: seq<Token>): Result<RangeValue, ProtocolError> {
    if bits & 8 == 0 then Success(v)
    else if toks == [] then Failure(Truncated)
    else if !toks[0].I32Value? then Failure(UnexpectedToken)
    else if toks[0].n < 0 then Failure(NegativeSize)
    else
      match ReadEvents(toks[1..], toks[0].n)
      case Failure(e) => Failure(e)
      case Success(es) => Success(v.(events := Some(es)))
  }

  // ---------------------------------------------------------------------------
  // Round trips

  /** The elements a writer emits read back as the same list. */
  lemma ReadEventsOfWritten(es: seq<SequencedEvent>, rest: seq<Token>)
    ensures ReadEvents(EventTokens(es) + rest, |es|) == Success(es)
  {
    var toks := EventTokens(es) + rest;
    assert forall i :: 0 <= i < |es| ==> toks[i] == EventStruct(es[i]);
    var r := ReadEvents(toks, |es|);
    assert r.value == es;
  }

  // One step of the tuple reader per field: a present field is decoded into
  // the struct, an absent one leaves it alone.

  lemma TupleSuccessStep(w: RangeValue, v: RangeValue, bits: bv4, tail: seq<Token>)
    requires (bits & 1 != 0) == v.successIsSet
    ensures TupleReadSuccess(w, bits, TupleSuccessField(v) + tail)
         == TupleReadErrorMessage(if v.successIsSet then w.(success := v.success, successIsSet := true) else w, bits, tail)
  {
    if !v.successIsSet { assert TupleSuccessField(v) + tail == tail; }
  }

  lemma TupleErrorMessageStep(w: RangeValue, v: RangeValue, bits: bv4, tail: seq<Token>)
    requires (bits & 2 != 0) == v.errorMessage.Some?
    ensures TupleReadErrorMessage(w, bits, TupleErrorMessageField(v) + tail)
         == TupleReadQuery(if v.errorMessage.Some? then w.(errorMessage := v.errorMessage) else w, bits, tail)
  {
    if v.errorMessage.None? { assert TupleErrorMessageField(v) + tail == tail; }
  }

  lemma TupleQueryStep(w: RangeValue, v: RangeValue, bits: bv4, tail: seq<Token>)
    requires (bits & 4 != 0) == v.query.Some?
    ensures TupleReadQuery(w, bits, TupleQueryField(v) + tail)
         == TupleReadEvents(if v.query.Some? then w.(query := v.query) else w, bits, tail)
  {
    if v.query.None? { assert TupleQueryField(v) + tail == tail; }
  }

  lemma TupleEventsStep(w: RangeValue, v: RangeValue, bits: bv4, tail: seq<Token>)
    requires (bits & 8 != 0) == v.events.Some?
    ensures TupleReadEvents(w, bits, TupleEventsField(v) + tail)
         == Success(if v.events.Some? then w.(events := v.events) else w)
  {
    if v.events.Some? {
      var es := v.events.value;
      assert (TupleEventsField(v) + tail)[0] == I32Value(|es|);
      assert (TupleEventsField(v) + tail)[1..] == EventTokens(es) + tail;
      ReadEventsOfWritten(es, tail);
    }
  }

  /** The tuple encoding followed by anything, regrouped field by field. */
  lemma TupleWriteSplit(v: RangeValue, rest: seq<Token>)
    ensures TupleWrite(v) + rest
         == [BitSet(PresenceBits(v))] + (TupleSuccessField(v) + (TupleErrorMessageField(v)
            + (TupleQueryField(v) + (TupleEventsField(v) + rest))))
  {
    ConcatRegroup([BitSet(PresenceBits(v))], TupleSuccessField(v), TupleErrorMessageField(v),
      TupleQueryField(v), TupleEventsField(v), rest);
  }

  /** Five segments and a tail, regrouped to the right. */
  lemma ConcatRegroup<T>(a: seq<T>, b: seq<T>, c: seq<T>, d: seq<T>, e: seq<T>, rest: seq<T>)
    ensures (a + b + c + d + e) + rest == a + (b + (c + (d + (e + rest))))
  {
    calc {
      (a + b + c + d + e) + rest;
      (a + b + c + d) + (e + rest);
      (a + b + c) + (d + (e + rest));
      (a + b) + (c + (d + (e + rest)));
      a + (b + (c + (d + (e + rest))));
    }
  }

  /** Tuple round trip: reading what `write` emitted restores every present
      field with its value and leaves the absent ones as they were; whatever
      follows in the stream is not touched. */
  lemma TupleRoundTrip(base: RangeValue, v: RangeValue, rest: seq<Token>)
    ensures TupleRead(base, TupleWrite(v) + rest) == Success(Overlay(base, v))
  {
    var bits := PresenceBits(v);
    var t4 := TupleEventsField(v) + rest;
    var t3 := TupleQueryField(v) + t4;
    var t2 := TupleErrorMessageField(v) + t3;
    var t1 := TupleSuccessField(v) + t2;
    var toks := TupleWrite(v) + rest;
    TupleWriteSplit(v, rest);
    assert toks[0] == BitSet(bits) && toks[1..] == t1;
    var v1 := if v.successIsSet then base.(success := v.success, successIsSet := true) else base;
    var v2 := if v.errorMessage.Some? then v1.(errorMessage := v.errorMessage) else v1;
    var v3 := if v.query.Some? then v2.(query := v.query) else v2;
    var v4 := if v.events.Some? then v3.(events := v.events) else v3;
    TupleSuccessStep(base, v, bits, t2);
    TupleErrorMessageStep(v1, v, bits, t3);
    TupleQueryStep(v2, v, bits, t4);
    TupleEventsStep(v3, v, bits, rest);
    assert TupleRead(base, toks) == Success(v4);
    assert v4 == Overlay(base, v);
  }

  /** Reading the tuple encoding into a fresh struct gives back a struct that
      `equals` the one written. */
  lemma TupleRoundTripFresh(v: RangeValue)
    ensures TupleRead(Cleared, TupleWrite(v)) == Success(Normalize(v))
    ensures Equals(TupleRead(Cleared, TupleWrite(v)).value, v)
  {
    TupleRoundTrip(Cleared, v, []);
    assert TupleWrite(v) + [] == TupleWrite(v);
    OverlayOnCleared(v);
  }

  // One step of the standard reader per field.

  lemma StandardSuccessStep(w: RangeValue, v: RangeValue, tail: seq<Token>, queryValid: EventsQuery -> bool)
    ensures StandardReadFields(w, StandardSuccessField(v) + tail, queryValid)
         == StandardReadFields(if v.successIsSet then w.(success := v.success, successIsSet := true) else w,
                               tail, queryValid)
  {
    var all := StandardSuccessField(v) + tail;
    if v.successIsSet {
      assert all[0] == FieldBegin(BOOL, 1) && all[1..][0] == BoolValue(v.success) && all[1..][1..] == tail;
    } else {
      assert all == tail;
    }
  }

  lemma StandardErrorMessageStep(w: RangeValue, v: RangeValue, tail: seq<Token>, queryValid: EventsQuery -> bool)
    ensures StandardReadFields(w, StandardErrorMessageField(v) + tail, queryValid)
         == StandardReadFields(if v.errorMessage.Some? then w.(errorMessage := v.errorMessage) else w,
                               tail, queryValid)
  {
    var all := StandardErrorMessageField(v) + tail;
    if v.errorMessage.Some? {
      assert all[0] == FieldBegin(STRING, 2) && all[1..][0] == StringValue(v.errorMessage.value);
      assert all[1..][1..] == tail;
    } else {
      assert all == tail;
    }
  }

  lemma StandardQueryStep(w: RangeValue, v: RangeValue, tail: seq<Token>, queryValid: EventsQuery -> bool)
    ensures StandardReadFields(w, StandardQueryField(v) + tail, queryValid)
         == StandardReadFields(if v.query.Some? then w.(query := v.query) else w, tail, queryValid)
  {
    var all := StandardQueryField(v) + tail;
    if v.query.Some? {
      assert all[0] == FieldBegin(STRUCT, 3) && all[1..][0] == QueryStruct(v.query.value);
      assert all[1..][1..] == tail;
    } else {
      assert all == tail;
    }
  }

  lemma StandardEventsStep(w: RangeValue, v: RangeValue, tail: seq<Token>, queryValid: EventsQuery -> bool)
    ensures StandardReadFields(w, StandardEventsField(v) + tail, queryValid)
         == StandardReadFields(if v.events.Some? then w.(events := v.events) else w, tail, queryValid)
  {
    var all := StandardEventsField(v) + tail;
    if v.events.Some? {
      var es := v.events.value;
      var n := |es|;
      assert all[0] == FieldBegin(LIST, 4) && all[1..][0] == ListBegin(STRUCT, n);
      assert all[1..][1..] == EventTokens(es) + tail;
      ReadEventsOfWritten(es, tail);
      assert all[1..][1..][n..] == tail;
    } else {
      assert all == tail;
    }
  }

  /** The standard encoding followed by anything, regrouped field by field. */
  lemma StandardWriteSplit(v: RangeValue, queryValid: EventsQuery -> bool, rest: seq<Token>)
    requires Validate(v, queryValid)
    ensures StandardWrite(v, queryValid).Success?
    ensures StandardWrite(v, queryValid).value + rest
         == StandardSuccessField(v) + (StandardErrorMessageField(v) + (StandardQueryField(v)
            + (StandardEventsField(v) + ([FieldStop] + rest))))
  {
    ConcatRegroup(StandardSuccessField(v), StandardErrorMessageField(v), StandardQueryField(v),
      StandardEventsField(v), [FieldStop], rest);
  }

  /** Standard round trip: the same, for the tagged encoding, provided the
      struct that results passes `validate()`. */
  lemma StandardRoundTrip(base: RangeValue, v: RangeValue, queryValid: EventsQuery -> bool, rest: seq<Token>)
    requires Validate(v, queryValid) && Validate(Overlay(base, v), queryValid)
    ensures StandardWrite(v, queryValid).Success?
    ensures StandardRead(base, StandardWrite(v, queryValid).value + rest, queryValid) == Success(Overlay(base, v))
  {
    var stop := [FieldStop] + rest;
    var t4 := StandardEventsField(v) + stop;
    var t3 := StandardQueryField(v) + t4;
    var t2 := StandardErrorMessageField(v) + t3;
    StandardWriteSplit(v, queryValid, rest);
    var v1 := if v.successIsSet then base.(success := v.success, successIsSet := true) else base;
    var v2 := if v.errorMessage.Some? then v1.(errorMessage := v.errorMessage) else v1;
    var v3 := if v.query.Some? then v2.(query := v.query) else v2;
    var v4 := if v.events.Some? then v3.(events := v.events) else v3;
    assert v4 == Overlay(base, v);
    StandardSuccessStep(base, v, t2, queryValid);
    StandardErrorMessageStep(v1, v, t3, queryValid);
    StandardQueryStep(v2, v, t4, queryValid);
    StandardEventsStep(v3, v, stop, queryValid);
    assert stop[0] == FieldStop;
  }

  /** Reading the standard encoding into a fresh struct gives back a struct
      that `equals` the one written. */
  lemma StandardRoundTripFresh(v: RangeValue, queryValid: EventsQuery -> bool)
    requires Validate(v, queryValid)
    ensures StandardWrite(v, queryValid).Success?
    ensures StandardRead(Cleared, StandardWrite(v, queryValid).value, queryValid) == Success(Normalize(v))
    ensures Equals(StandardRead(Cleared, StandardWrite(v, queryValid).value, queryValid).value, v)
  {
    StandardRoundTrip(Cleared, v, queryValid, []);
    assert StandardWrite(v, queryValid).value + [] == StandardWrite(v, queryValid).value;
    OverlayOnCleared(v);
  }

  /** The standard `write` throws exactly when a present query fails `validate()`. */
  lemma StandardWriteFailsOnlyOnInvalidQuery(v: RangeValue, queryValid: EventsQuery -> bool)
    ensures StandardWrite(v, queryValid).Failure? <==> v.query.Some? && !queryValid(v.query.value)
  {
  }

  // ---------------------------------------------------------------------------
  // Skipping and the shape of the standard encoding

  /** Skipping a value does not look past it: whatever follows is left as is. */
  lemma {:induction false} SkipAppend(t: TType, toks: seq<Token>, tail: seq<Token>)
    requires Skip(t, toks).Success?
    ensures Skip(t, toks + tail) == Success(Skip(t, toks).value + tail)
    decreases |toks|, 0
  {
    var all := toks + tail;
    assert all[0] == toks[0] && all[1..] == toks[1..] + tail;
    if t == LIST {
      var n: nat := toks[0].size;
      SkipElementsAppend(toks[0].elemType, n, toks[1..], tail);
    }
  }

  lemma {:induction false} SkipElementsAppend(t: TType, n: nat, toks: seq<Token>, tail: seq<Token>)
    requires SkipElements(t, n, toks).Success?
    ensures SkipElements(t, n, toks + tail) == Success(SkipElements(t, n, toks).value + tail)
    decreases |toks|, 1, n
  {
    if n > 0 {
      SkipAppend(t, toks, tail);
      SkipElementsAppend(t, n - 1, Skip(t, toks).value, tail);
    }
  }

  /** Fields a reader must skip: each a header with an unknown id, or a known id
      with the wrong type, followed by one whole value of the header's type as
      `TProtocolUtil.skip` passes over it, lists included. */
  predicate UnknownFields(extra: seq<Token>)
    decreases |extra|
  {
    extra == []
    || (&& extra[0].FieldBegin?
        && !IsKnownHeader(extra[0].fieldType, extra[0].id)
        && Skip(extra[0].fieldType, extra[1..]).Success?
        && UnknownFields(Skip(extra[0].fieldType, extra[1..]).value))
  }

  /** After a header the reader does not know, it skips the value and goes on. */
  lemma UnknownFieldSkipped(v: RangeValue, toks: seq<Token>, after: seq<Token>, queryValid: EventsQuery -> bool)
    requires toks != [] && toks[0].FieldBegin? && !IsKnownHeader(toks[0].fieldType, toks[0].id)
    requires Skip(toks[0].fieldType, toks[1..]) == Success(after)
    ensures StandardReadFields(v, toks, queryValid) == StandardReadFields(v, after, queryValid)
  {
    var t, id := toks[0].fieldType, toks[0].id;
    assert !(id == 1 && t == BOOL) && !(id == 2 && t == STRING);
    assert !(id == 3 && t == STRUCT) && !(id == 4 && t == LIST);
    assert StandardReadFields(v, toks, queryValid) == StandardReadField(v, t, id, toks[1..], queryValid);
  }

  /** The standard reader skips unknown and type-mismatched fields: placing
      them before any field header changes nothing. */
  lemma {:induction false} UnknownFieldsSkipped(
    v: RangeValue, extra: seq<Token>, toks: seq<Token>, queryValid: EventsQuery -> bool)
    requires UnknownFields(extra)
    ensures StandardReadFields(v, extra + toks, queryValid) == StandardReadFields(v, toks, queryValid)
    decreases |extra|
  {
    if extra == [] {
      assert extra + toks == toks;
    } else {
      var t := extra[0].fieldType;
      var after := Skip(t, extra[1..]).value;
      var all := extra + toks;
      HeadOfAppend(extra, toks);
      SkipAppend(t, extra[1..], toks);
      UnknownFieldSkipped(v, all, after + toks, queryValid);
      UnknownFieldsSkipped(v, after, toks, queryValid);
    }
  }

  /** The head and the tail of a concatenation with a non-empty front. */
  lemma HeadOfAppend<T>(a: seq<T>, b: seq<T>)
    requires a != []
    ensures (a + b)[0] == a[0] && (a + b)[1..] == a[1..] + b
  {
  }

  /** A list under an unknown id is one skipped field. */
  lemma UnknownListFieldSkipped(a: int, b: int)
    ensures UnknownFields([FieldBegin(LIST, 9), ListBegin(I32, 2), I32Value(a), I32Value(b)])
  {
    var ab: seq<Token> := [I32Value(a), I32Value(b)];
    var tb: seq<Token> := [I32Value(b)];
    assert ab[1..] == tb && tb[1..] == [];
    assert Skip(I32, tb) == Success([]);
    assert SkipElements(I32, 1, tb) == Success([]);
    assert Skip(I32, ab) == Success(tb);
    assert SkipElements(I32, 2, ab) == Success([]);
    var first := [FieldBegin(LIST, 9), ListBegin(I32, 2)] + ab;
    assert first[1..][0] == ListBegin(I32, 2) && first[1..][1..] == ab;
    assert Skip(LIST, first[1..]) == Success([]);
    assert UnknownFields([]);
    assert first == [FieldBegin(LIST, 9), ListBegin(I32, 2), I32Value(a), I32Value(b)];
  }

  /** The success id sent as a list is one skipped field too. */
  lemma MistypedListFieldSkipped()
    ensures UnknownFields([FieldBegin(LIST, 1), ListBegin(BOOL, 1), BoolValue(true)])
  {
    var tt: seq<Token> := [BoolValue(true)];
    assert tt[1..] == [];
    assert SkipElements(BOOL, 1, tt) == Success([]);
    var second := [FieldBegin(LIST, 1), ListBegin(BOOL, 1)] + tt;
    assert second[1..][0] == ListBegin(BOOL, 1) && second[1..][1..] == tt;
    assert Skip(LIST, second[1..]) == Success([]);
    assert UnknownFields([]);
    assert second == [FieldBegin(LIST, 1), ListBegin(BOOL, 1), BoolValue(true)];
  }

  /** The ids of the field headers in a token stream, in order. */
  function HeaderIds(toks: seq<Token>): seq<int> {
    if toks == [] then []
    else (if toks[0].FieldBegin? then [toks[0].id] else []) + HeaderIds(toks[1..])
  }

  lemma {:induction false} HeaderIdsAppend(a: seq<Token>, b: seq<Token>)
    ensures HeaderIds(a + b) == HeaderIds(a) + HeaderIds(b)
    decreases |a|
  {
    if a == [] {
      assert a + b == b;
    } else {
      assert (a + b)[0] == a[0] && (a + b)[1..] == a[1..] + b;
      HeaderIdsAppend(a[1..], b);
    }
  }

  lemma {:induction false} NoHeadersInEvents(es: seq<SequencedEvent>)
    ensures HeaderIds(EventTokens(es)) == []
    decreases |es|
  {
    if es != [] {
      assert EventTokens(es)[1..] == EventTokens(es[1..]);
      NoHeadersInEvents(es[1..]);
    }
  }

  /** The ids of a struct's set fields, in ascending order. */
  function SetFieldIds(v: RangeValue): (ids: seq<int>)
    ensures forall i, j :: 0 <= i < j < |ids| ==> ids[i] < ids[j]
    ensures forall f :: IsSet(v, f) <==> ThriftId(f) in ids
  {
    (if v.successIsSet then [1] else []) + (if v.errorMessage.Some? then [2] else [])
    + (if v.query.Some? then [3] else []) + (if v.events.Some? then [4] else [])
  }

  lemma HeaderIdsOfPair(h: Token, x: Token)
    requires !x.FieldBegin?
    ensures HeaderIds([h, x]) == if h.FieldBegin? then [h.id] else []
  {
    assert [h, x][1..] == [x];
    assert [x][1..] == [];
    assert HeaderIds([x]) == [] + HeaderIds([]);
  }

  lemma FieldSegmentHeaders(v: RangeValue)
    ensures HeaderIds(StandardSuccessField(v)) == if v.successIsSet then [1] else []
    ensures HeaderIds(StandardErrorMessageField(v)) == if v.errorMessage.Some? then [2] else []
    ensures HeaderIds(StandardQueryField(v)) == if v.query.Some? then [3] else []
    ensures HeaderIds(StandardEventsField(v)) == if v.events.Some? then [4] else []
  {
    HeaderIdsOfPair(FieldBegin(BOOL, 1), BoolValue(v.success));
    if v.errorMessage.Some? {
      HeaderIdsOfPair(FieldBegin(STRING, 2), StringValue(v.errorMessage.value));
    }
    if v.query.Some? {
      HeaderIdsOfPair(FieldBegin(STRUCT, 3), QueryStruct(v.query.value));
    }
    if v.events.Some? {
      var lT := [FieldBegin(LIST, 4), ListBegin(STRUCT, |v.events.value|)];
      HeaderIdsAppend(lT, EventTokens(v.events.value));
      NoHeadersInEvents(v.events.value);
      HeaderIdsOfPair(lT[0], lT[1]);
      assert lT == [lT[0], lT[1]];
    }
  }

  lemma FieldTokensHeaders(v: RangeValue)
    ensures HeaderIds(StandardFieldTokens(v)) == SetFieldIds(v)
  {
    var sT, eT, qT := StandardSuccessField(v), StandardErrorMessageField(v), StandardQueryField(v);
    var evT := StandardEventsField(v);
    FieldSegmentHeaders(v);
    HeaderIdsAppend(sT + eT + qT, evT);
    HeaderIdsAppend(sT + eT, qT);
    HeaderIdsAppend(sT, eT);
  }

  /** The standard `write` emits exactly the set fields, in ascending id order,
      and ends with STOP. */
  lemma StandardWriteShape(v: RangeValue, queryValid: EventsQuery -> bool)
    requires Validate(v, queryValid)
    ensures StandardWrite(v, queryValid).Success?
    ensures var w := StandardWrite(v, queryValid).value;
      w[|w| - 1] == FieldStop && HeaderIds(w) == SetFieldIds(v)
  {
    var body := StandardFieldTokens(v);
    FieldTokensHeaders(v);
    HeaderIdsAppend(body, [FieldStop]);
    assert HeaderIds([FieldStop]) == [] + HeaderIds([]);
  }
}
