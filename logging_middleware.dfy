/** The request/response logging middleware (`LoggingMiddleware.dispatch`).
    Starlette's objects and the async machinery are replaced by values: the
    downstream handler is a function from the request to a response, a
    response body is the list of chunks its single-pass iterator yields, and
    the caller of a streaming response is a consumer that pulls a given number
    of times. What one request does is recorded as a trace of events. */
module LoggingMiddleware {
  import opened Wrappers
  import opened Bytes
  import opened Utf8
  import opened Http
  import opened Trace

  /** The server-sent-events media type. */
  const EventStream: string := "text/event-stream"

  predicate StartsWith(s: string, prefix: string)
  {
    |prefix| <= |s| && s[..|prefix|] == prefix
  }

  /** The classification in `dispatch`: the content-type header, read as the
      empty string when absent, must begin with the event-stream type. */
  function IsStreaming(response: Response): bool
  {
    StartsWith(Get(response.headers, "content-type", ""), EventStream)
  }

  /** A response goes down the streaming path exactly when its first
      content-type header begins with the event-stream type; one without a
      content-type header is buffered. */
  lemma IsStreamingIff(response: Response)
    ensures IsStreaming(response) <==>
      exists i :: 0 <= i < |response.headers| && response.headers[i].0 == "content-type"
        && (forall j :: 0 <= j < i ==> response.headers[j].0 != "content-type")
        && StartsWith(response.headers[i].1, EventStream)
  {
    var h := response.headers;
    var v := Get(h, "content-type", "");
    if exists i :: 0 <= i < |h| && h[i].0 == "content-type"
        && (forall j :: 0 <= j < i ==> h[j].0 != "content-type") && StartsWith(h[i].1, EventStream)
    {
      var i' :| 0 <= i' < |h| && h[i'].0 == "content-type"
        && (forall j :: 0 <= j < i' ==> h[j].0 != "content-type") && StartsWith(h[i'].1, EventStream);
      assert HasName(h, "content-type");
      var i :| 0 <= i < |h| && h[i] == ("content-type", v) && forall j :: 0 <= j < i ==> h[j].0 != "content-type";
      assert i == i';
    }
    assert !StartsWith("", EventStream);
    if IsStreaming(response) {
      var i :| 0 <= i < |h| && h[i] == ("content-type", v) && forall j :: 0 <= j < i ==> h[j].0 != "content-type";
      assert StartsWith(h[i].1, EventStream);
    }
  }

  /** The test is a prefix test: a charset parameter after the type still
      streams, but the test is case-sensitive, so an upper-case spelling of the
      same media type is buffered. */
  lemma ClassificationExamples(status: int, body: seq<Chunk>)
    ensures IsStreaming(Response(status, [("content-type", "text/event-stream; charset=utf-8")], None, body))
    ensures !IsStreaming(Response(status, [("content-type", "Text/Event-Stream")], None, body))
    ensures !IsStreaming(Response(status, [], None, body))
  {
    var s := "text/event-stream; charset=utf-8";
    assert s[..|EventStream|] == EventStream;
    var u := "Text/Event-Stream";
    assert u[0] != EventStream[0];
  }

  /** How the caller consumes a streaming body: to the end, or by pulling a
      fixed number of times and then going away (a client that disconnects). */
  datatype Consumer = DrainsFully | StopsAfter(pulls: nat)

  /** Pulls the consumer makes on a body of `n` chunks. Draining takes one
      more pull than there are chunks: the one that finds the source exhausted. */
  function Pulls(consumer: Consumer, n: nat): nat
  {
    match consumer
    case DrainsFully => n + 1
    case StopsAfter(k) => k
  }

  /** How a streaming body ended for the caller: the source ran out, the
      consumer stopped pulling, or decoding a chunk for the debug record raised
      `UnicodeDecodeError` inside the generator. */
  datatype StreamEnd = Exhausted | Closed | Raised

  datatype Reply =
    | Buffered(response: Response)
    | Streaming(status: int, headers: Headers, mediaType: Option<string>, end: StreamEnd)

  /** Why `dispatch` raises instead of returning a response. */
  datatype Failure = InvalidJson | DownstreamError(reason: string) | UnicodeDecodeError

  function Min(a: nat, b: nat): nat { if a <= b then a else b }

  /** How many leading chunks decode: the index of the first one that does not,
      or the number of chunks. */
  function DecodablePrefix(cs: seq<Chunk>): (k: nat)
    ensures k <= |cs|
    ensures forall i :: 0 <= i < k ==> WellFormed(cs[i])
    ensures k < |cs| ==> !WellFormed(cs[k])
  {
    if cs == [] || !WellFormed(cs[0]) then 0 else 1 + DecodablePrefix(cs[1..])
  }

  /** One turn of the streaming wrapper's loop: the debug record, then the yield. */
  function ChunkStep(id: string, c: Chunk): seq<Event>
  {
    [Emit(ChunkLog(id, c)), Deliver(c)]
  }

  /** The turns for every chunk of `cs`, in order. */
  function RelayEvents(id: string, cs: seq<Chunk>): seq<Event>
  {
    if cs == [] then [] else RelayEvents(id, cs[..|cs| - 1]) + ChunkStep(id, cs[|cs| - 1])
  }

  /** What relaying a streaming response to a consumer that pulls `pulls`
      times produces: the events, and how the stream ended. Relaying stops at
      the first chunk that does not decode or when the consumer stops; the
      summary record follows only a pull that finds the source exhausted. */
  function StreamTrace(id: string, response: Response, pulls: nat): (seq<Event>, StreamEnd)
  {
    var cs := response.body;
    var k := Min(pulls, DecodablePrefix(cs));
    if k < pulls && k < |cs| then (RelayEvents(id, cs[..k]), Raised)
    else if pulls > |cs| then
      (RelayEvents(id, cs) + [Emit(ResponseLog(id, response.status, response.headers, Join(cs)))], Exhausted)
    else (RelayEvents(id, cs[..k]), Closed)
  }

  /** Relaying one more chunk appends its turn. */
  lemma RelayEventsSnoc(id: string, cs: seq<Chunk>, i: nat)
    requires i < |cs|
    ensures RelayEvents(id, cs[..i + 1]) == RelayEvents(id, cs[..i]) + ChunkStep(id, cs[i])
  {
    assert cs[..i + 1][..i] == cs[..i];
  }

  /** Turn `j` of the relay is the debug record of chunk `j` followed by the
      delivery of that same chunk. */
  lemma {:induction false} RelayEventsAt(id: string, cs: seq<Chunk>, j: nat)
    requires j < |cs|
    ensures |RelayEvents(id, cs)| == 2 * |cs|
    ensures RelayEvents(id, cs)[2 * j] == Emit(ChunkLog(id, cs[j]))
    ensures RelayEvents(id, cs)[2 * j + 1] == Deliver(cs[j])
  {
    var last := |cs| - 1;
    if j < last {
      RelayEventsAt(id, cs[..last], j);
    } else if last > 0 {
      RelayEventsAt(id, cs[..last], 0);
    }
  }

  /** One turn hands over its chunk and logs it once, and does nothing else. */
  lemma ChunkStepProjections(id: string, c: Chunk)
    ensures Delivered(ChunkStep(id, c)) == [c]
    ensures ChunksLogged(ChunkStep(id, c)) == [c]
    ensures ResponseLogCount(ChunkStep(id, c)) == 0
    ensures CallCount(ChunkStep(id, c)) == 0
    ensures AllTagged(ChunkStep(id, c), id)
  {
    assert ChunkStep(id, c) == [Emit(ChunkLog(id, c))] + [Deliver(c)];
    ProjectionsConcat([Emit(ChunkLog(id, c))], [Deliver(c)]);
    ProjectionsOne(Emit(ChunkLog(id, c)));
    ProjectionsOne(Deliver(c));
  }

  /** The relay hands over every chunk unchanged and in order, logs each one
      once, emits no response record, never calls the handler, and tags every
      record with the request id. */
  lemma {:induction false} RelayEventsProjections(id: string, cs: seq<Chunk>)
    ensures Delivered(RelayEvents(id, cs)) == cs
    ensures ChunksLogged(RelayEvents(id, cs)) == cs
    ensures ResponseLogCount(RelayEvents(id, cs)) == 0
    ensures CallCount(RelayEvents(id, cs)) == 0
    ensures AllTagged(RelayEvents(id, cs), id)
  {
    if cs != [] {
      var init := cs[..|cs| - 1];
      var c := cs[|cs| - 1];
      RelayEventsProjections(id, init);
      ProjectionsConcat(RelayEvents(id, init), ChunkStep(id, c));
      ChunkStepProjections(id, c);
      AllTaggedConcat(RelayEvents(id, init), ChunkStep(id, c), id);
      assert init + [c] == cs;
    }
  }

  /** Every record the relay emits is a chunk record at debug level. */
  lemma {:induction false} RelayEventsLevel(id: string, cs: seq<Chunk>)
    ensures AllAtLevel(RelayEvents(id, cs), Debug)
  {
    if cs != [] {
      var init := cs[..|cs| - 1];
      var c := cs[|cs| - 1];
      RelayEventsLevel(id, init);
      AllAtLevelConcat(RelayEvents(id, init), ChunkStep(id, c), Debug);
    }
  }

  /** The streaming wrapper relays a prefix of the downstream chunks, in order
      and unaltered: exactly as many as the consumer pulled, up to the first
      chunk that does not decode, and all of them when the stream runs to its
      end. It raises exactly when a pull reaches a chunk that does not decode. */
  lemma StreamRelaysInput(id: string, response: Response, pulls: nat)
    ensures var (t, end) := StreamTrace(id, response, pulls);
      |Delivered(t)| == Min(pulls, DecodablePrefix(response.body))
      && Delivered(t) == response.body[..|Delivered(t)|]
      && (end == Exhausted ==> Delivered(t) == response.body)
      && (end == Raised <==> DecodablePrefix(response.body) < Min(pulls, |response.body|))
  {
    var cs := response.body;
    var k := Min(pulls, DecodablePrefix(cs));
    if (k < pulls && k < |cs|) || pulls <= |cs| {
      RelayEventsProjections(id, cs[..k]);
    } else {
      RelayEventsProjections(id, cs);
      var summary := Emit(ResponseLog(id, response.status, response.headers, Join(cs)));
      ProjectionsConcat(RelayEvents(id, cs), [summary]);
      ProjectionsOne(summary);
      assert Delivered(StreamTrace(id, response, pulls).0) == cs;
      assert cs[..|cs|] == cs;
    }
  }

  /** Each chunk handed over has exactly one debug record naming it, so N
      pulled chunks give N debug records. */
  lemma StreamLogsEachChunk(id: string, response: Response, pulls: nat)
    ensures var t := StreamTrace(id, response, pulls).0;
      ChunksLogged(t) == Delivered(t)
  {
    var cs := response.body;
    var k := Min(pulls, DecodablePrefix(cs));
    RelayEventsProjections(id, cs[..k]);
    RelayEventsProjections(id, cs);
    var summary := Emit(ResponseLog(id, response.status, response.headers, Join(cs)));
    ProjectionsConcat(RelayEvents(id, cs), [summary]);
  }

  /** In the relay, the debug record of every chunk comes immediately before
      the chunk is handed over. */
  lemma StreamLogsBeforeYield(id: string, response: Response, pulls: nat, j: nat)
    requires j < |response.body| && j < |Delivered(StreamTrace(id, response, pulls).0)|
    ensures var t := StreamTrace(id, response, pulls).0;
      2 * j + 1 < |t|
      && t[2 * j] == Emit(ChunkLog(id, response.body[j]))
      && t[2 * j + 1] == Deliver(response.body[j])
  {
    var cs := response.body;
    var k := Min(pulls, DecodablePrefix(cs));
    if (k < pulls && k < |cs|) || pulls <= |cs| {
      RelayEventsProjections(id, cs[..k]);
      assert j < k;
      RelayEventsAt(id, cs[..k], j);
      assert cs[..k][j] == cs[j];
    } else {
      var summary := Emit(ResponseLog(id, response.status, response.headers, Join(cs)));
      RelayEventsAt(id, cs, j);
      var t := RelayEvents(id, cs) + [summary];
      assert StreamTrace(id, response, pulls).0 == t;
      assert t[2 * j] == RelayEvents(id, cs)[2 * j];
      assert t[2 * j + 1] == RelayEvents(id, cs)[2 * j + 1];
    }
  }

  /** The summary record is emitted once, as the last event, exactly when the
      consumer pulled past the last chunk and every chunk decoded; its body is
      the concatenation of the chunks handed over. Otherwise there is none. */
  lemma StreamSummary(id: string, response: Response, pulls: nat)
    ensures var (t, end) := StreamTrace(id, response, pulls);
      (end == Exhausted <==> pulls > |response.body| && DecodablePrefix(response.body) == |response.body|)
      && ResponseLogCount(t) == (if end == Exhausted then 1 else 0)
      && (end == Exhausted ==>
            t[|t| - 1] == Emit(ResponseLog(id, response.status, response.headers, Join(Delivered(t)))))
  {
    var cs := response.body;
    var k := Min(pulls, DecodablePrefix(cs));
    if k < pulls && k < |cs| {
      RelayEventsProjections(id, cs[..k]);
    } else if pulls > |cs| {
      RelayEventsProjections(id, cs);
      var summary := Emit(ResponseLog(id, response.status, response.headers, Join(cs)));
      ProjectionsConcat(RelayEvents(id, cs), [summary]);
      ProjectionsOne(summary);
      var t := RelayEvents(id, cs) + [summary];
      assert StreamTrace(id, response, pulls) == (t, Exhausted);
      assert Delivered(t) == cs;
      assert t[|t| - 1] == summary;
    } else {
      RelayEventsProjections(id, cs[..k]);
    }
  }

  /** The streaming trace never calls the handler, holds at most one response
      record, and tags every record with the request id. */
  lemma StreamTraceBookkeeping(id: string, response: Response, pulls: nat)
    ensures var t := StreamTrace(id, response, pulls).0;
      CallCount(t) == 0 && ResponseLogCount(t) <= 1 && AllTagged(t, id)
  {
    var cs := response.body;
    var k := Min(pulls, DecodablePrefix(cs));
    StreamSummary(id, response, pulls);
    if (k < pulls && k < |cs|) || pulls <= |cs| {
      RelayEventsProjections(id, cs[..k]);
    } else {
      RelayEventsProjections(id, cs);
      var summary := Emit(ResponseLog(id, response.status, response.headers, Join(cs)));
      ProjectionsConcat(RelayEvents(id, cs), [summary]);
      ProjectionsOne(summary);
      AllTaggedConcat(RelayEvents(id, cs), [summary], id);
    }
  }

  /** A consumer that stops after at most as many pulls as there are chunks
      never sees a summary record, even when it received every chunk. */
  lemma EarlyStopHasNoSummary(id: string, response: Response, k: nat)
    requires k <= |response.body|
    ensures var (t, end) := StreamTrace(id, response, Pulls(StopsAfter(k), |response.body|));
      end != Exhausted && ResponseLogCount(t) == 0
  {
    StreamSummary(id, response, Pulls(StopsAfter(k), |response.body|));
  }

  /** When the stream runs to its end, decoding the joined body for the summary
      cannot raise: every chunk decoded, so their concatenation does. */
  lemma StreamSummaryDecodes(id: string, response: Response, pulls: nat)
    requires StreamTrace(id, response, pulls).1 == Exhausted
    ensures WellFormed(Join(response.body))
  {
    WellFormedJoin(response.body);
  }

  /** Every chunk decodes exactly when the decodable prefix is the whole body. */
  lemma AllDecodable(cs: seq<Chunk>)
    requires forall i :: 0 <= i < |cs| ==> WellFormed(cs[i])
    ensures DecodablePrefix(cs) == |cs|
  {
  }

  /** Splitting one character across two chunks makes the streaming path raise
      on the very first pull, with nothing handed over and nothing logged,
      although the joined body decodes and the buffered path would relay it. */
  lemma SplitCharacterAbortsStream(id: string, status: int, headers: Headers)
    ensures var response := Response(status, headers, None, [[0xC3], [0xA9]]);
      StreamTrace(id, response, Pulls(DrainsFully, 2)) == ([], Raised)
      && WellFormed(Join(response.body))
  {
    SplitCharacter();
    var cs: seq<Chunk> := [[0xC3], [0xA9]];
    assert DecodablePrefix(cs) == 0;
    assert Join(cs) == [0xC3] + ([0xA9] + []) by {
      assert cs[1..][1..] == [];
    }
  }

  /** The chat service's event stream: ten chunks "data: message i" followed
      by a blank line, for i from 0 to 9. */
  function SseChunk(i: nat): Chunk
    requires i < 10
  {
    var text := "data: message " + [(('0' as int) + i) as char] + "\n\n";
    assert forall j :: 0 <= j < |text| ==> text[j] < 128 as char;
    Ascii(text)
  }

  function ChatStream(): seq<Chunk>
  {
    seq(10, i requires 0 <= i < 10 => SseChunk(i))
  }

  /** Relaying the chat stream to a client that reads it to the end hands over
      the ten chunks in order, logs ten debug records and one summary whose
      body is the ten chunks joined. */
  lemma ChatStreamScenario(id: string, status: int, headers: Headers)
    ensures var response := Response(status, headers, Some(EventStream), ChatStream());
      var (t, end) := StreamTrace(id, response, Pulls(DrainsFully, 10));
      end == Exhausted
      && Delivered(t) == ChatStream()
      && |ChunksLogged(t)| == 10
      && ResponseLogCount(t) == 1
      && t[|t| - 1] == Emit(ResponseLog(id, status, headers, Join(ChatStream())))
  {
    var cs := ChatStream();
    var response := Response(status, headers, Some(EventStream), cs);
    forall i | 0 <= i < |cs| ensures WellFormed(cs[i]) {
      AsciiWellFormed(cs[i]);
    }
    AllDecodable(cs);
    StreamSummary(id, response, 11);
    StreamRelaysInput(id, response, 11);
    StreamLogsEachChunk(id, response, 11);
  }

  /** `__wrap_streaming_response` together with the caller that consumes the
      `StreamingResponse` it returns: the loop is the `logging_wrapper`
      generator, run for as many pulls as the consumer makes. */
  method WrapStreamingResponse(id: string, response: Response, consumer: Consumer)
    returns (reply: Reply, trace: seq<Event>)
    ensures var (t, end) := StreamTrace(id, response, Pulls(consumer, |response.body|));
      reply == Streaming(response.status, DictOf(response.headers), response.mediaType, end)
      && trace == t
  {
    var pulls := Pulls(consumer, |response.body|);
    var source := response.body;
    var end := Closed;
    trace := [];
    // The first pull starts the generator; without one, nothing runs.
    if pulls > 0 {
      var fullBody: seq<Chunk> := [];
      var i := 0;
      end := Exhausted;
      while i < |source|
        invariant 0 <= i <= |source| && i < pulls
        invariant i <= DecodablePrefix(source)
        invariant fullBody == source[..i]
        invariant trace == RelayEvents(id, source[..i])
        invariant end == Exhausted
      {
        var chunk := source[i];
        if !WellFormed(chunk) {
          // decoding the chunk for the debug record raises
          end := Raised;
          break;
        }
        trace := trace + [Emit(ChunkLog(id, chunk)), Deliver(chunk)];
        RelayEventsSnoc(id, source, i);
        if pulls == i + 1 {
          // the consumer does not resume the generator after this yield
          end := Closed;
          break;
        }
        fullBody := fullBody + [chunk];
        i := i + 1;
      }
      if end == Exhausted {
        assert source[..|source|] == source;
        trace := trace + [Emit(ResponseLog(id, response.status, response.headers, Join(fullBody)))];
      }
    }
    reply := Streaming(response.status, DictOf(response.headers), response.mediaType, end);
  }

  /** `__wrap_standard_response`: drain the body, log it once, and rebuild a
      response with the same status, `dict(headers)` and the joined bytes.
      Decoding the joined body for the record raises when it is not UTF-8,
      and then nothing is logged or returned. */
  method WrapStandardResponse(id: string, response: Response)
    returns (result: Result<Response, Failure>, trace: seq<Event>)
    ensures result.Success? <==> WellFormed(Join(response.body))
    ensures result.Success? ==>
      result.value == Response(response.status, DictOf(response.headers), None, [Join(response.body)])
      && trace == [Emit(ResponseLog(id, response.status, response.headers, Join(response.body)))]
    ensures result.Failure? ==> result.error == UnicodeDecodeError && trace == []
  {
    var responseBody: seq<Chunk> := [];
    for i := 0 to |response.body|
      invariant responseBody == response.body[..i]
    {
      responseBody := responseBody + [response.body[i]];
    }
    assert response.body[..|response.body|] == response.body;
    var bytes := Join(responseBody);
    if !WellFormed(bytes) {
      return Failure(UnicodeDecodeError), [];
    }
    trace := [Emit(ResponseLog(id, response.status, response.headers, bytes))];
    result := Success(Response(response.status, DictOf(response.headers), None, [bytes]));
  }

  /** `dispatch` for one request carrying request id `id`: parse the body as
      JSON, log the request, call the downstream handler, and relay its
      response down the streaming or the buffered path. */
  method Dispatch(id: string, request: Request, parseJson: Chunk -> Option<Json>,
                  callNext: Request -> Result<Response, string>, consumer: Consumer)
    returns (result: Result<Reply, Failure>, trace: seq<Event>)
    // a body that is not JSON stops the request before anything is logged or forwarded
    ensures parseJson(request.body).None? ==> result == Failure(InvalidJson) && trace == []
    // otherwise the request record comes first, then the one call to the handler,
    // with the request unchanged
    ensures parseJson(request.body).Some? ==>
      |trace| >= 2
      && trace[0] == Emit(RequestLog(id, request.httpMethod, request.url, DictOf(request.headers),
                                     parseJson(request.body).value))
      && trace[1] == CallNext(request)
      && CallCount(trace) == 1
    ensures AllTagged(trace, id)
    ensures ResponseLogCount(trace) <= 1
    // a failing handler is propagated and nothing more is logged
    ensures parseJson(request.body).Some? && callNext(request).Failure? ==>
      result == Failure(DownstreamError(callNext(request).error)) && |trace| == 2
    // the streaming path
    ensures parseJson(request.body).Some? && callNext(request).Success? && IsStreaming(callNext(request).value) ==>
      var response := callNext(request).value;
      var (t, end) := StreamTrace(id, response, Pulls(consumer, |response.body|));
      result == Success(Streaming(response.status, DictOf(response.headers), response.mediaType, end))
      && trace[2..] == t
    // the buffered path
    ensures parseJson(request.body).Some? && callNext(request).Success? && !IsStreaming(callNext(request).value) ==>
      var response := callNext(request).value;
      var bytes := Join(response.body);
      if WellFormed(bytes) then
        result == Success(Buffered(Response(response.status, DictOf(response.headers), None, [bytes])))
        && trace[2..] == [Emit(ResponseLog(id, response.status, response.headers, bytes))]
      else
        result == Failure(UnicodeDecodeError) && |trace| == 2
  {
    var body := parseJson(request.body);
    if body.None? {
      return Failure(InvalidJson), [];
    }
    var requestLog := Emit(RequestLog(id, request.httpMethod, request.url, DictOf(request.headers), body.value));
    trace := [requestLog, CallNext(request)];
    assert CallCount(trace) == 1 && ResponseLogCount(trace) == 0 && AllTagged(trace, id) by {
      ProjectionsConcat([requestLog], [CallNext(request)]);
      ProjectionsOne(requestLog);
      ProjectionsOne(CallNext(request));
    }
    var response := callNext(request);
    if response.Failure? {
      return Failure(DownstreamError(response.error)), trace;
    }
    var prefix := trace;
    var r := response.value;
    var rest: seq<Event>;
    if IsStreaming(r) {
      var reply;
      reply, rest := WrapStreamingResponse(id, r, consumer);
      result := Success(reply);
      StreamTraceBookkeeping(id, r, Pulls(consumer, |r.body|));
    } else {
      var res;
      res, rest := WrapStandardResponse(id, r);
      result := if res.Success? then Success(Buffered(res.value)) else Failure(res.error);
      assert ResponseLogCount(rest) <= 1;
    }
    trace := prefix + rest;
    ProjectionsConcat(prefix, rest);
    AllTaggedConcat(prefix, rest, id);
    assert trace[2..] == rest;
  }
}
