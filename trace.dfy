/** What one request leaves behind, in order: the log calls the middleware
    makes, the call into the downstream handler, and the body chunks handed to
    the caller. */
module Trace {
  import opened Bytes
  import opened Http

  datatype Level = Debug | Info

  /** A structured log record. The request id is the field that
      `bind_contextvars` binds and the `merge_contextvars` processor copies into
      every record emitted while the request is handled. Bodies are kept as the
      bytes whose UTF-8 decoding the record shows. */
  datatype Record =
    | RequestLog(requestId: string, httpMethod: string, url: string, headers: Headers, payload: Json)
    | ChunkLog(requestId: string, chunk: Chunk)
    | ResponseLog(requestId: string, status: int, headers: Headers, body: Chunk)

  /** `log.info` for the request and response records, `log.debug` for chunks. */
  function LevelOf(r: Record): Level
  {
    if r.ChunkLog? then Debug else Info
  }

  datatype Event =
    | Emit(record: Record)
    | CallNext(request: Request)
    | Deliver(chunk: Chunk)

  /** The body chunks the caller received, in order. */
  function Delivered(t: seq<Event>): seq<Chunk>
  {
    if t == [] then []
    else (if t[0].Deliver? then [t[0].chunk] else []) + Delivered(t[1..])
  }

  /** The chunks named by the debug-level chunk records, in order. */
  function ChunksLogged(t: seq<Event>): seq<Chunk>
  {
    if t == [] then []
    else (if t[0].Emit? && t[0].record.ChunkLog? then [t[0].record.chunk] else []) + ChunksLogged(t[1..])
  }

  /** How many records have `type="response"`. */
  function ResponseLogCount(t: seq<Event>): nat
  {
    if t == [] then 0
    else (if t[0].Emit? && t[0].record.ResponseLog? then 1 else 0) + ResponseLogCount(t[1..])
  }

  /** How many times the downstream handler was called. */
  function CallCount(t: seq<Event>): nat
  {
    if t == [] then 0 else (if t[0].CallNext? then 1 else 0) + CallCount(t[1..])
  }

  /** Every record in the trace carries request id `id`. */
  ghost predicate AllTagged(t: seq<Event>, id: string)
  {
    forall i :: 0 <= i < |t| && t[i].Emit? ==> t[i].record.requestId == id
  }

  /** Every record in the trace is logged at level `level`. */
  ghost predicate AllAtLevel(t: seq<Event>, level: Level)
  {
    forall i :: 0 <= i < |t| && t[i].Emit? ==> LevelOf(t[i].record) == level
  }

  /** The projections above read a trace piece by piece. */
  lemma ProjectionsConcat(a: seq<Event>, b: seq<Event>)
    ensures Delivered(a + b) == Delivered(a) + Delivered(b)
    ensures ChunksLogged(a + b) == ChunksLogged(a) + ChunksLogged(b)
    ensures ResponseLogCount(a + b) == ResponseLogCount(a) + ResponseLogCount(b)
    ensures CallCount(a + b) == CallCount(a) + CallCount(b)
  {
    DeliveredConcat(a, b);
    ChunksLoggedConcat(a, b);
    ResponseLogCountConcat(a, b);
    CallCountConcat(a, b);
  }

  lemma {:induction false} DeliveredConcat(a: seq<Event>, b: seq<Event>)
    ensures Delivered(a + b) == Delivered(a) + Delivered(b)
  {
    if a == [] {
      assert a + b == b;
    } else {
      assert (a + b)[0] == a[0] && (a + b)[1..] == a[1..] + b;
      DeliveredConcat(a[1..], b);
    }
  }

  lemma {:induction false} ChunksLoggedConcat(a: seq<Event>, b: seq<Event>)
    ensures ChunksLogged(a + b) == ChunksLogged(a) + ChunksLogged(b)
  {
    if a == [] {
      assert a + b == b;
    } else {
      assert (a + b)[0] == a[0] && (a + b)[1..] == a[1..] + b;
      ChunksLoggedConcat(a[1..], b);
    }
  }

  lemma {:induction false} ResponseLogCountConcat(a: seq<Event>, b: seq<Event>)
    ensures ResponseLogCount(a + b) == ResponseLogCount(a) + ResponseLogCount(b)
  {
    if a == [] {
      assert a + b == b;
    } else {
      assert (a + b)[0] == a[0] && (a + b)[1..] == a[1..] + b;
      ResponseLogCountConcat(a[1..], b);
    }
  }

  lemma {:induction false} CallCountConcat(a: seq<Event>, b: seq<Event>)
    ensures CallCount(a + b) == CallCount(a) + CallCount(b)
  {
    if a == [] {
      assert a + b == b;
    } else {
      assert (a + b)[0] == a[0] && (a + b)[1..] == a[1..] + b;
      CallCountConcat(a[1..], b);
    }
  }

  /** The projections of a one-event trace. */
  lemma ProjectionsOne(e: Event)
    ensures Delivered([e]) == (if e.Deliver? then [e.chunk] else [])
    ensures ChunksLogged([e]) == (if e.Emit? && e.record.ChunkLog? then [e.record.chunk] else [])
    ensures ResponseLogCount([e]) == (if e.Emit? && e.record.ResponseLog? then 1 else 0)
    ensures CallCount([e]) == (if e.CallNext? then 1 else 0)
  {
    assert [e][1..] == [];
  }

  lemma AllTaggedConcat(a: seq<Event>, b: seq<Event>, id: string)
    requires AllTagged(a, id) && AllTagged(b, id)
    ensures AllTagged(a + b, id)
  {
    forall i | 0 <= i < |a + b| && (a + b)[i].Emit? ensures (a + b)[i].record.requestId == id {
      if i >= |a| { assert (a + b)[i] == b[i - |a|]; }
    }
  }

  lemma AllAtLevelConcat(a: seq<Event>, b: seq<Event>, level: Level)
    requires AllAtLevel(a, level) && AllAtLevel(b, level)
    ensures AllAtLevel(a + b, level)
  {
    forall i | 0 <= i < |a + b| && (a + b)[i].Emit? ensures LevelOf((a + b)[i].record) == level {
      if i >= |a| { assert (a + b)[i] == b[i - |a|]; }
    }
  }
}
