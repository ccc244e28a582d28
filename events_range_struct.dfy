/** The mutable `BuildSlaveEventsRange` struct: public fields, the byte
    `__isset_bitfield` whose bit 0 records whether `success` is set, the
    presence-aware setters, and the `read`/`write` of both schemes, proved
    against the functions of `RangeProtocol`. */
module RangeStruct {
  import opened Optional
  import opened RangeValues
  import opened RangeProtocol

  class BuildSlaveEventsRange {
    var success: bool
    var issetBitfield: bv8
    var errorMessage: Option<string>
    var query: Option<EventsQuery>
    var events: Option<seq<SequencedEvent>>

    /** The bit of `issetBitfield` that records `success` (`__SUCCESS_ISSET_ID` is 0). */
    static const SUCCESS_ISSET_BIT: bv8 := 1

    /** The struct's value, as `equals`, `compareTo` and the schemes see it. */
    function Value(): (v: RangeValue)
      reads this
      ensures v.successIsSet == IsSetSuccess()
    {
      RangeValue(success, IsSetSuccess(), errorMessage, query, events)
    }

    constructor ()
      ensures Value() == Cleared && issetBitfield == 0
    {
      success := false;
      issetBitfield := 0;
      errorMessage := None;
      query := None;
      events := None;
    }

    /** The deep-copy constructor. Query and events are values here, so a
        copy of each is the value itself. */
    constructor Copy(other: BuildSlaveEventsRange)
      ensures Value() == other.Value() && issetBitfield == other.issetBitfield
      ensures Equals(Value(), other.Value())
    {
      issetBitfield := other.issetBitfield;
      success := other.success;
      errorMessage := if other.errorMessage.Some? then other.errorMessage else None;
      query := if other.query.Some? then other.query else None;
      events := if other.events.Some? then Some(other.events.value) else None;
      new;
      EqualsIsEquivalence(Value(), Value(), Value());
    }

    method DeepCopy() returns (c: BuildSlaveEventsRange)
      ensures fresh(c) && c.Value() == Value() && Equals(c.Value(), Value())
    {
      c := new BuildSlaveEventsRange.Copy(this);
    }

    /** `clear()`: nothing is set and `success` is false; the other bits of the
        bitfield are kept. */
    method Clear()
      modifies this
      ensures Value() == Cleared
      ensures forall f :: !IsSet(Value(), f)
      ensures issetBitfield & !SUCCESS_ISSET_BIT == old(issetBitfield) & !SUCCESS_ISSET_BIT
    {
      SetSuccessIsSet(false);
      success := false;
      errorMessage := None;
      query := None;
      events := None;
    }

    // -------------------------------------------------------------------------
    // success

    function IsSetSuccess(): bool
      reads this
    {
      issetBitfield & SUCCESS_ISSET_BIT != 0
    }

    method SetSuccess(b: bool)
      modifies this
      ensures success == b && IsSetSuccess()
      ensures issetBitfield & !SUCCESS_ISSET_BIT == old(issetBitfield) & !SUCCESS_ISSET_BIT
      ensures errorMessage == old(errorMessage) && query == old(query) && events == old(events)
    {
      success := b;
      SetSuccessIsSet(true);
    }

    /** `unsetSuccess()` clears the bit only: the stored value stays. */
    method UnsetSuccess()
      modifies this
      ensures !IsSetSuccess() && success == old(success)
      ensures issetBitfield & !SUCCESS_ISSET_BIT == old(issetBitfield) & !SUCCESS_ISSET_BIT
      ensures errorMessage == old(errorMessage) && query == old(query) && events == old(events)
      ensures Equals(Value(), old(Value()).(successIsSet := false))
    {
      issetBitfield := issetBitfield & !SUCCESS_ISSET_BIT;
    }

    /** `setSuccessIsSet(value)`: `EncodingUtils.setBit` on bit 0. */
    method SetSuccessIsSet(value: bool)
      modifies this
      ensures IsSetSuccess() == value && success == old(success)
      ensures issetBitfield & !SUCCESS_ISSET_BIT == old(issetBitfield) & !SUCCESS_ISSET_BIT
      ensures errorMessage == old(errorMessage) && query == old(query) && events == old(events)
    {
      if value {
        issetBitfield := issetBitfield | SUCCESS_ISSET_BIT;
      } else {
        issetBitfield := issetBitfield & !SUCCESS_ISSET_BIT;
      }
    }

    // -------------------------------------------------------------------------
    // errorMessage, query, events: "set" means non-null

    function IsSetErrorMessage(): bool
      reads this
    {
      errorMessage.Some?
    }

    /** `setErrorMessage(m)`; passing null unsets the field. */
    method SetErrorMessage(m: Option<string>)
      modifies this
      ensures Value() == old(Value()).(errorMessage := m)
      ensures IsSetErrorMessage() <==> m.Some?
      ensures issetBitfield == old(issetBitfield)
    {
      errorMessage := m;
    }

    method UnsetErrorMessage()
      modifies this
      ensures Value() == old(Value()).(errorMessage := None) && !IsSetErrorMessage()
      ensures issetBitfield == old(issetBitfield)
    {
      errorMessage := None;
    }

    /** `setErrorMessageIsSet(false)` nulls the field; `true` changes nothing. */
    method SetErrorMessageIsSet(value: bool)
      modifies this
      ensures value ==> Value() == old(Value())
      ensures !value ==> Value() == old(Value()).(errorMessage := None)
      ensures issetBitfield == old(issetBitfield)
    {
      if !value {
        errorMessage := None;
      }
    }

    function IsSetQuery(): bool
      reads this
    {
      query.Some?
    }

    method SetQuery(q: Option<EventsQuery>)
      modifies this
      ensures Value() == old(Value()).(query := q)
      ensures IsSetQuery() <==> q.Some?
      ensures issetBitfield == old(issetBitfield)
    {
      query := q;
    }

    method UnsetQuery()
      modifies this
      ensures Value() == old(Value()).(query := None) && !IsSetQuery()
      ensures issetBitfield == old(issetBitfield)
    {
      query := None;
    }

    method SetQueryIsSet(value: bool)
      modifies this
      ensures value ==> Value() == old(Value())
      ensures !value ==> Value() == old(Value()).(query := None)
      ensures issetBitfield == old(issetBitfield)
    {
      if !value {
        query := None;
      }
    }

    function IsSetEvents(): bool
      reads this
    {
      events.Some?
    }

    /** `getEventsSize()`: 0 while the list is null. */
    function GetEventsSize(): (n: nat)
      reads this
      ensures events.None? ==> n == 0
      ensures events.Some? ==> n == |events.value|
    {
      if events.None? then 0 else |events.value|
    }

    /** `addToEvents(e)`: appends `e`, first creating an empty list if needed. */
    method AddToEvents(e: SequencedEvent)
      modifies this
      ensures events == Some((if old(events).None? then [] else old(events).value) + [e])
      ensures GetEventsSize() == old(GetEventsSize()) + 1
      ensures success == old(success) && issetBitfield == old(issetBitfield)
      ensures errorMessage == old(errorMessage) && query == old(query)
    {
      if events.None? {
        events := Some([]);
      }
      events := Some(events.value + [e]);
    }

    method SetEvents(es: Option<seq<SequencedEvent>>)
      modifies this
      ensures Value() == old(Value()).(events := es)
      ensures IsSetEvents() <==> es.Some?
      ensures issetBitfield == old(issetBitfield)
    {
      events := es;
    }

    method UnsetEvents()
      modifies this
      ensures Value() == old(Value()).(events := None) && !IsSetEvents()
      ensures issetBitfield == old(issetBitfield)
    {
      events := None;
    }

    method SetEventsIsSet(value: bool)
      modifies this
      ensures value ==> Value() == old(Value())
      ensures !value ==> Value() == old(Value()).(events := None)
      ensures issetBitfield == old(issetBitfield)
    {
      if !value {
        events := None;
      }
    }

    /** `isSet(field)`. */
    function IsSetField(f: Field): (b: bool)
      reads this
      ensures b == IsSet(Value(), f)
    {
      match f
      case SUCCESS => IsSetSuccess()
      case ERROR_MESSAGE => IsSetErrorMessage()
      case QUERY => IsSetQuery()
      case EVENTS => IsSetEvents()
    }

    // -------------------------------------------------------------------------
    // Comparisons

    /** `equals(that)`: false for null, true for the same object, else field
        by field; the result is equality of normal forms. */
    method EqualsStruct(that: BuildSlaveEventsRange?) returns (r: bool)
      ensures r == (that != null && Equals(Value(), that.Value()))
      ensures r == (that != null && Normalize(Value()) == Normalize(that.Value()))
    {
      if that != null {
        EqualsIffSameNormalForm(Value(), that.Value());
      }
      if that == null {
        return false;
      }
      if this == that {
        EqualsIsEquivalence(Value(), Value(), Value());
        return true;
      }
      var thisPresent := IsSetSuccess();
      var thatPresent := that.IsSetSuccess();
      if thisPresent || thatPresent {
        if !(thisPresent && thatPresent) { return false; }
        if success != that.success { return false; }
      }
      thisPresent, thatPresent := IsSetErrorMessage(), that.IsSetErrorMessage();
      if thisPresent || thatPresent {
        if !(thisPresent && thatPresent) { return false; }
        if errorMessage.value != that.errorMessage.value { return false; }
      }
      thisPresent, thatPresent := IsSetQuery(), that.IsSetQuery();
      if thisPresent || thatPresent {
        if !(thisPresent && thatPresent) { return false; }
        if query.value != that.query.value { return false; }
      }
      thisPresent, thatPresent := IsSetEvents(), that.IsSetEvents();
      if thisPresent || thatPresent {
        if !(thisPresent && thatPresent) { return false; }
        if events.value != that.events.value { return false; }
      }
      return true;
    }

    /** `compareTo(other)`: presence, then value, field by field in id order. */
    method CompareToStruct(other: BuildSlaveEventsRange) returns (c: int)
      ensures c == CompareTo(Value(), other.Value())
      ensures c == 0 <==> Equals(Value(), other.Value())
    {
      CompareToZeroIffEquals(Value(), other.Value());
      c := CompareBool(IsSetSuccess(), other.IsSetSuccess());
      if c != 0 { return; }
      if IsSetSuccess() {
        c := CompareBool(success, other.success);
        if c != 0 { return; }
      }
      c := CompareBool(IsSetErrorMessage(), other.IsSetErrorMessage());
      if c != 0 { return; }
      if IsSetErrorMessage() {
        c := CompareStrings(errorMessage.value, other.errorMessage.value);
        if c != 0 { return; }
      }
      c := CompareBool(IsSetQuery(), other.IsSetQuery());
      if c != 0 { return; }
      if IsSetQuery() {
        c := CompareInt(query.value.key, other.query.value.key);
        if c != 0 { return; }
      }
      c := CompareBool(IsSetEvents(), other.IsSetEvents());
      if c != 0 { return; }
      if IsSetEvents() {
        c := CompareEvents(events.value, other.events.value);
        if c != 0 { return; }
      }
      c := 0;
    }

    /** `validate()`. */
    method ValidateStruct(queryValid: EventsQuery -> bool) returns (ok: bool)
      ensures ok == Validate(Value(), queryValid)
    {
      ok := query.None? || queryValid(query.value);
    }

    // -------------------------------------------------------------------------
    // The standard scheme

    /** `StandardScheme.write`: `validate()`, then each set field behind its
        header, then STOP. */
    method WriteStandard(queryValid: EventsQuery -> bool) returns (r: Result<seq<Token>, ProtocolError>)
      ensures r == StandardWrite(Value(), queryValid)
    {
      var ok := ValidateStruct(queryValid);
      if !ok {
        return Failure(InvalidQuery);
      }
      ghost var v := Value();
      var out: seq<Token> := [];
      if IsSetSuccess() {
        out := out + [FieldBegin(BOOL, 1), BoolValue(success)];
      }
      assert out == StandardSuccessField(v);
      if errorMessage.Some? {
        out := out + [FieldBegin(STRING, 2), StringValue(errorMessage.value)];
      }
      assert out == StandardSuccessField(v) + StandardErrorMessageField(v);
      if query.Some? {
        out := out + [FieldBegin(STRUCT, 3), QueryStruct(query.value)];
      }
      assert out == StandardSuccessField(v) + StandardErrorMessageField(v) + StandardQueryField(v);
      if events.Some? {
        var elems := WriteEventList(events.value);
        out := out + ([FieldBegin(LIST, 4), ListBegin(STRUCT, |events.value|)] + elems);
      }
      assert out == StandardFieldTokens(v);
      out := out + [FieldStop];
      return Success(out);
    }

    /** `StandardScheme.read`: field headers up to STOP, decoding the known
        ones and skipping the rest, then `validate()`. Fields absent from the
        stream keep their old values. On failure the struct's state is not
        specified (a partial read leaves whatever it had decoded). */
    method ReadStandard(toks: seq<Token>, queryValid: EventsQuery -> bool) returns (err: Option<ProtocolError>)
      modifies this
      ensures var r := StandardRead(old(Value()), toks, queryValid);
              if r.Success? then err.None? && Value() == r.value else err == Some(r.error)
    {
      var rest := toks;
      while true
        invariant StandardReadFields(Value(), rest, queryValid)
               == StandardReadFields(old(Value()), toks, queryValid)
        decreases |rest|
      {
        if rest == [] {
          return Some(Truncated);
        }
        var field := rest[0];
        if field == FieldStop {
          break;
        }
        if !field.FieldBegin? {
          return Some(UnexpectedToken);
        }
        var after;
        err, after := ReadStandardField(field.fieldType, field.id, rest[1..], queryValid);
        if err.Some? {
          return;
        }
        rest := after;
      }
      var ok := ValidateStruct(queryValid);
      if !ok {
        return Some(InvalidQuery);
      }
      return None;
    }

    /** One pass of the standard read loop after a field header: decodes a
        known field into the struct, or skips the value. Returns the tokens
        that follow it. */
    method ReadStandardField(t: TType, id: int, rest: seq<Token>, queryValid: EventsQuery -> bool)
      returns (err: Option<ProtocolError>, after: seq<Token>)
      modifies this
      ensures var r := StandardReadField(old(Value()), t, id, rest, queryValid);
              if err.Some? then r == Failure(err.value)
              else |after| <= |rest| && StandardReadFields(Value(), after, queryValid) == r
    {
      if id == 1 && t == BOOL {
        if rest == [] { return Some(Truncated), rest; }
        if !rest[0].BoolValue? { return Some(UnexpectedToken), rest; }
        ghost var before := Value();
        success := rest[0].b;
        SetSuccessIsSet(true);
        assert Value() == before.(success := rest[0].b, successIsSet := true);
        return None, rest[1..];
      } else if id == 2 && t == STRING {
        if rest == [] { return Some(Truncated), rest; }
        if !rest[0].StringValue? { return Some(UnexpectedToken), rest; }
        ghost var before := Value();
        errorMessage := Some(rest[0].s);
        assert Value() == before.(errorMessage := Some(rest[0].s));
        return None, rest[1..];
      } else if id == 3 && t == STRUCT {
        if rest == [] { return Some(Truncated), rest; }
        if !rest[0].QueryStruct? { return Some(UnexpectedToken), rest; }
        ghost var before := Value();
        query := Some(rest[0].q);
        assert Value() == before.(query := Some(rest[0].q));
        return None, rest[1..];
      } else if id == 4 && t == LIST {
        if rest == [] { return Some(Truncated), rest; }
        if !rest[0].ListBegin? { return Some(UnexpectedToken), rest; }
        if rest[0].size < 0 { return Some(NegativeSize), rest; }
        var n: nat := rest[0].size;
        var list := ReadEventList(rest, 1, n);
        if list.Failure? {
          return Some(list.error), rest;
        }
        ghost var before := Value();
        events := Some(list.value);
        assert Value() == before.(events := Some(list.value));
        return None, rest[1..][n..];
      } else {
        var skipped := Skip(t, rest);
        if skipped.Failure? {
          return Some(skipped.error), rest;
        }
        return None, skipped.value;
      }
    }

    method WriteTuple() returns (out: seq<Token>)
      ensures out == TupleWrite(Value())
    {
      ghost var v := Value();
      var optionals: bv4 := 0;
      if IsSetSuccess() { optionals := optionals | 1; }
      if IsSetErrorMessage() { optionals := optionals | 2; }
      if IsSetQuery() { optionals := optionals | 4; }
      if IsSetEvents() { optionals := optionals | 8; }
      assert optionals == PresenceBits(v);
      out := [BitSet(optionals)];
      if IsSetSuccess() {
        out := out + [BoolValue(success)];
      }
      assert out == [BitSet(PresenceBits(v))] + TupleSuccessField(v);
      if IsSetErrorMessage() {
        out := out + [StringValue(errorMessage.value)];
      }
      assert out == [BitSet(PresenceBits(v))] + TupleSuccessField(v) + TupleErrorMessageField(v);
      if IsSetQuery() {
        out := out + [QueryStruct(query.value)];
      }
      assert out == [BitSet(PresenceBits(v))] + TupleSuccessField(v) + TupleErrorMessageField(v)
                    + TupleQueryField(v);
      if IsSetEvents() {
        var elems := WriteEventList(events.value);
        out := out + ([I32Value(|events.value|)] + elems);
      }
    }

    /** `TupleScheme.read`: the presence set, then each present field; absent
        fields keep their old values; no `validate()`. On failure the
        struct's state is not specified. */
    method ReadTuple(toks: seq<Token>) returns (err: Option<ProtocolError>)
      modifies this
      ensures var r := TupleRead(old(Value()), toks);
              if r.Success? then err.None? && Value() == r.value else err == Some(r.error)
    {
      if toks == [] { return Some(Truncated); }
      if !toks[0].BitSet? { return Some(UnexpectedToken); }
      var incoming := toks[0].bits;
      var pos := 1;
      assert TupleRead(old(Value()), toks) == TupleReadSuccess(Value(), incoming, toks[pos..]);
      if incoming & 1 != 0 {
        if pos == |toks| { return Some(Truncated); }
        if !toks[pos].BoolValue? { return Some(UnexpectedToken); }
        assert toks[pos..][0] == toks[pos] && toks[pos..][1..] == toks[pos + 1..];
        ghost var before := Value();
        success := toks[pos].b;
        SetSuccessIsSet(true);
        assert Value() == before.(success := toks[pos].b, successIsSet := true);
        pos := pos + 1;
      }
      assert TupleRead(old(Value()), toks) == TupleReadErrorMessage(Value(), incoming, toks[pos..]);
      if incoming & 2 != 0 {
        if pos == |toks| { return Some(Truncated); }
        if !toks[pos].StringValue? { return Some(UnexpectedToken); }
        assert toks[pos..][0] == toks[pos] && toks[pos..][1..] == toks[pos + 1..];
        ghost var before := Value();
        errorMessage := Some(toks[pos].s);
        assert Value() == before.(errorMessage := Some(toks[pos].s));
        pos := pos + 1;
      }
      assert TupleRead(old(Value()), toks) == TupleReadQuery(Value(), incoming, toks[pos..]);
      if incoming & 4 != 0 {
        if pos == |toks| { return Some(Truncated); }
        if !toks[pos].QueryStruct? { return Some(UnexpectedToken); }
        assert toks[pos..][0] == toks[pos] && toks[pos..][1..] == toks[pos + 1..];
        ghost var before := Value();
        query := Some(toks[pos].q);
        assert Value() == before.(query := Some(toks[pos].q));
        pos := pos + 1;
      }
      assert TupleRead(old(Value()), toks) == TupleReadEvents(Value(), incoming, toks[pos..]);
      err := ReadTupleEvents(toks, pos, incoming);
    }

    /** The last step of `TupleScheme.read`: the events list, if its bit is set. */
    method ReadTupleEvents(toks: seq<Token>, pos: nat, incoming: bv4) returns (err: Option<ProtocolError>)
      requires pos <= |toks|
      modifies this
      ensures var r := TupleReadEvents(old(Value()), incoming, toks[pos..]);
              if r.Success? then err.None? && Value() == r.value else err == Some(r.error)
    {
      if incoming & 8 != 0 {
        if pos == |toks| { return Some(Truncated); }
        if !toks[pos].I32Value? { return Some(UnexpectedToken); }
        if toks[pos].n < 0 { return Some(NegativeSize); }
        var n: nat := toks[pos].n;
        assert toks[pos..][0] == toks[pos] && toks[pos..][1..] == toks[pos + 1..];
        var list := ReadEventList(toks, pos + 1, n);
        if list.Failure? {
          return Some(list.error);
        }
        events := Some(list.value);
      }
      return None;
    }
  }

  /** The element loop of both writers. */
  method WriteEventList(es: seq<SequencedEvent>) returns (toks: seq<Token>)
    ensures toks == EventTokens(es)
  {
    toks := [];
    for i := 0 to |es|
      invariant toks == EventTokens(es[..i])
    {
      assert EventTokens(es[..i + 1]) == toks + [EventStruct(es[i])];
      toks := toks + [EventStruct(es[i])];
    }
    assert es[..|es|] == es;
  }

  /** The element loop of both readers: `n` nested events from position `pos`. */
  method ReadEventList(toks: seq<Token>, pos: nat, n: nat) returns (r: Result<seq<SequencedEvent>, ProtocolError>)
    requires pos <= |toks|
    ensures r == ReadEvents(toks[pos..], n)
  {
    var ts := toks[pos..];
    var list: seq<SequencedEvent> := [];
    var i := 0;
    while i < n
      invariant 0 <= i <= n && i <= |ts|
      invariant |list| == i
      invariant forall k :: 0 <= k < i ==> ts[k] == EventStruct(list[k])
    {
      if i == |ts| {
        return Failure(Truncated);
      }
      if !ts[i].EventStruct? {
        return Failure(UnexpectedToken);
      }
      list := list + [ts[i].e];
      i := i + 1;
    }
    r := Success(list);
    ghost var spec := ReadEvents(ts, n);
    assert spec.Success?;
    assert forall k :: 0 <= k < n ==> spec.value[k] == list[k];
    assert spec.value == list;
  }
}
