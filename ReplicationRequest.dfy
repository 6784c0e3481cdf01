/**
 * A replication request addressed to one index: its timeout, its index
 * name, whether its listener is threaded, its replication type and write
 * consistency level; its validation, and its stream form.
 */
module ReplicationRequest {
  import opened Wrappers

  datatype ReplicationType = Sync | Async | DefaultReplication
  datatype ConsistencyLevel = DefaultConsistency | One | Quorum | All

  /** A timeout, carried through the stream as one value. */
  datatype TimeValue = TimeValue(duration: int, unit: string)

  /**
   * The byte ids of the two enumerations and their inverses; an inverse
   * answers None for an id it does not know.
   */
  datatype Codes = Codes(
    replicationId: ReplicationType -> int,
    replicationFromId: int -> Option<ReplicationType>,
    consistencyId: ConsistencyLevel -> int,
    consistencyFromId: int -> Option<ConsistencyLevel>)

  /** Each id is read back as the value it was written for. */
  predicate Consistent(c: Codes)
  {
    (forall t :: c.replicationFromId(c.replicationId(t)) == Some(t))
    && (forall l :: c.consistencyFromId(c.consistencyId(l)) == Some(l))
  }

  /** A stream token: a byte, a timeout, or a UTF string. */
  datatype Tok = TByte(b: int) | TTime(t: TimeValue) | TUTF(s: string)

  datatype StreamError = EndOfStream | UnexpectedToken(pos: nat) | UnknownId(id: int) | NullIndex

  const IndexMissing := "index name missing"

  /** The whole state of a request; a null index is None. */
  datatype RequestState = RequestState(
    timeout: TimeValue,
    index: Option<string>,
    threadedListener: bool,
    replicationType: ReplicationType,
    consistencyLevel: ConsistencyLevel)

  /** `writeTo`: replication id, consistency id, timeout, index; a null index cannot be written. */
  function Encode(s: RequestState, c: Codes): (r: Result<seq<Tok>, StreamError>)
    ensures r.Err? <==> s.index.None?
    ensures r.Ok? ==> |r.value| == 4
  {
    if s.index.None? then Err(NullIndex)
    else Ok([TByte(c.replicationId(s.replicationType)), TByte(c.consistencyId(s.consistencyLevel)),
             TTime(s.timeout), TUTF(s.index.value)])
  }

  /**
   * `readFrom`: the state after reading from position `p`, with the
   * position after the request, or the state reached when a read failed
   * together with the error. Each value read is assigned before the next
   * is read, so a failure keeps the values read before it.
   */
  function Decode(s: RequestState, toks: seq<Tok>, p: nat, c: Codes): (r: (RequestState, Result<nat, StreamError>))
    ensures r.0.threadedListener == s.threadedListener
  {
    if p >= |toks| then (s, Err(EndOfStream))
    else if !toks[p].TByte? then (s, Err(UnexpectedToken(p)))
    else if c.replicationFromId(toks[p].b).None? then (s, Err(UnknownId(toks[p].b)))
    else
      var s1 := s.(replicationType := c.replicationFromId(toks[p].b).value);
      if p + 1 >= |toks| then (s1, Err(EndOfStream))
      else if !toks[p + 1].TByte? then (s1, Err(UnexpectedToken(p + 1)))
      else if c.consistencyFromId(toks[p + 1].b).None? then (s1, Err(UnknownId(toks[p + 1].b)))
      else
        var s2 := s1.(consistencyLevel := c.consistencyFromId(toks[p + 1].b).value);
        if p + 2 >= |toks| then (s2, Err(EndOfStream))
        else if !toks[p + 2].TTime? then (s2, Err(UnexpectedToken(p + 2)))
        else
          var s3 := s2.(timeout := toks[p + 2].t);
          if p + 3 >= |toks| then (s3, Err(EndOfStream))
          else if !toks[p + 3].TUTF? then (s3, Err(UnexpectedToken(p + 3)))
          else (s3.(index := Some(toks[p + 3].s)), Ok(p + 4))
  }

  /**
   * A request written and read back at any position has the same
   * timeout, index, type and level, consumes exactly what was written, and
   * keeps the reader's own listener flag, which is not part of the stream.
   */
  lemma RoundTrip(s: RequestState, reader: RequestState, prefix: seq<Tok>, rest: seq<Tok>, c: Codes)
    requires Consistent(c) && s.index.Some?
    ensures Encode(s, c).Ok?
    ensures Decode(reader, prefix + Encode(s, c).value + rest, |prefix|, c)
      == (s.(threadedListener := reader.threadedListener), Ok(|prefix| + 4))
  {
    var toks := prefix + Encode(s, c).value + rest;
    var p := |prefix|;
    assert toks[p] == TByte(c.replicationId(s.replicationType));
    assert toks[p + 1] == TByte(c.consistencyId(s.consistencyLevel));
    assert toks[p + 2] == TTime(s.timeout);
    assert toks[p + 3] == TUTF(s.index.value);
    assert c.replicationFromId(c.replicationId(s.replicationType)) == Some(s.replicationType);
    assert c.consistencyFromId(c.consistencyId(s.consistencyLevel)) == Some(s.consistencyLevel);
  }

  /** A stream whose first byte is an unknown replication id fails with nothing changed. */
  lemma UnknownTypeChangesNothing(s: RequestState, toks: seq<Tok>, p: nat, c: Codes)
    requires p < |toks| && toks[p].TByte? && c.replicationFromId(toks[p].b).None?
    ensures Decode(s, toks, p, c) == (s, Err(UnknownId(toks[p].b)))
  {
  }

  /** `validate`: one error, "index name missing", exactly when the index is null. */
  function Validate(s: RequestState): (r: Option<seq<string>>)
    ensures r.None? <==> s.index.Some?
    ensures r.Some? ==> r.value == [IndexMissing]
  {
    if s.index.None? then Some([IndexMissing]) else None
  }

  /** A request that validates can be written. */
  lemma ValidRequestsWrite(s: RequestState, c: Codes)
    requires Validate(s).None?
    ensures Encode(s, c).Ok?
  {
  }

  class IndexReplicationOperationRequest {
    var timeout: TimeValue
    var index: Option<string>
    var threadedListener: bool
    var replicationType: ReplicationType
    var consistencyLevel: ConsistencyLevel

    function Value(): RequestState
      reads this
    {
      RequestState(timeout, index, threadedListener, replicationType, consistencyLevel)
    }

    /**
     * A new request: no index, an unthreaded listener, the default type
     * and level, and the default timeout of shard replication requests.
     */
    constructor(defaultTimeout: TimeValue)
      ensures Value() == RequestState(defaultTimeout, None, false, DefaultReplication, DefaultConsistency)
    {
      timeout := defaultTimeout;
      index := None;
      threadedListener := false;
      replicationType := DefaultReplication;
      consistencyLevel := DefaultConsistency;
    }

    /** `index(String)`: sets the index and nothing else. */
    method SetIndex(index: Option<string>)
      modifies this
      ensures Value() == old(Value()).(index := index)
    {
      this.index := index;
    }

    /** `listenerThreaded(boolean)`: sets the flag and nothing else. */
    method SetListenerThreaded(threadedListener: bool)
      modifies this
      ensures Value() == old(Value()).(threadedListener := threadedListener)
    {
      this.threadedListener := threadedListener;
    }

    /** `writeTo`: the tokens appended to the stream. */
    method WriteTo(c: Codes) returns (r: Result<seq<Tok>, StreamError>)
      ensures r == Encode(Value(), c)
    {
      var out := [TByte(c.replicationId(replicationType)), TByte(c.consistencyId(consistencyLevel)), TTime(timeout)];
      if index.None? {
        return Err(NullIndex);
      }
      out := out + [TUTF(index.value)];
      assert out == [out[0], out[1], out[2], out[3]];
      return Ok(out);
    }

    /** `readFrom`: reads the four values in turn from position `p`, stopping at the first failure. */
    method ReadFrom(toks: seq<Tok>, p: nat, c: Codes) returns (r: Result<nat, StreamError>)
      modifies this
      ensures (Value(), r) == Decode(old(Value()), toks, p, c)
    {
      if p >= |toks| {
        return Err(EndOfStream);
      }
      if !toks[p].TByte? {
        return Err(UnexpectedToken(p));
      }
      var rt := c.replicationFromId(toks[p].b);
      if rt.None? {
        return Err(UnknownId(toks[p].b));
      }
      replicationType := rt.value;
      if p + 1 >= |toks| {
        return Err(EndOfStream);
      }
      if !toks[p + 1].TByte? {
        return Err(UnexpectedToken(p + 1));
      }
      var cl := c.consistencyFromId(toks[p + 1].b);
      if cl.None? {
        return Err(UnknownId(toks[p + 1].b));
      }
      consistencyLevel := cl.value;
      if p + 2 >= |toks| {
        return Err(EndOfStream);
      }
      if !toks[p + 2].TTime? {
        return Err(UnexpectedToken(p + 2));
      }
      timeout := toks[p + 2].t;
      if p + 3 >= |toks| {
        return Err(EndOfStream);
      }
      if !toks[p + 3].TUTF? {
        return Err(UnexpectedToken(p + 3));
      }
      index := Some(toks[p + 3].s);
      return Ok(p + 4);
    }
  }
}
