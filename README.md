# Logging middleware and logger setup of a FastAPI chat service

This project models, in Dafny, the two pieces of the service that carry
behaviour worth stating:

- `LoggingMiddleware.dispatch`. It binds a request id and parses the request
  body as JSON. Then it logs the request (`type="request"`) and calls the
  downstream handler. It classifies the response as server-sent events
  (`content-type` starting with `text/event-stream`) or as buffered.
  - A streaming body is wrapped in a generator. For every chunk, the generator
    logs a debug record, yields the chunk unchanged and keeps a copy. Once the
    source is exhausted, it logs one `type="response"` summary whose body is
    the chunks joined.
  - A buffered body is drained, joined and logged once. The response is then
    rebuilt with the same status, `dict(headers)` and the joined bytes.
- The logger setup in `utils/logger.py`:
  - the fixed processor chain and its JSON-only tail;
  - the structlog configuration with `wrap_for_formatter` at the end;
  - the root logger's handler and level;
  - the reset of uvicorn's three loggers;
  - the two event-dict processors (rename "event" to "message", drop
    "color_message");
  - the uncaught-exception hook that lets `KeyboardInterrupt` through.

The middleware is modelled on values. The downstream handler is a function
from the request to a response (or an error). A response body is the finite
list of chunks its single-pass iterator would yield. The caller of a streaming
response is a consumer: it either reads to the end or stops after a given
number of pulls. One request's effects are a trace of events, in order: the
log records emitted, the call to the handler, and the chunks handed to the
caller. The streaming wrapper and the buffered drain are methods with loops,
proved against reference functions (`StreamTrace`, `RelayEvents`). The
properties are then proved about those functions.

Modules: `Wrappers` (Option, Result, Outcome), `Bytes` (bytes and `b"".join`),
`Utf8` (strict UTF-8 well-formedness: when `.decode()` succeeds), `Http`
(header lists, `headers.get`, `dict(headers)`), `Trace` (log records and
events), `LoggingMiddleware`, and `LoggerConfig`.

Where the code does something other than what a logging middleware is
expected to do, the model follows the code:

- Bodies are decoded strictly for logging. A chunk that is not UTF-8 makes the
  streaming generator raise before the chunk is yielded. This includes one
  half of a character split across two chunks (`SplitCharacterAbortsStream`).
  A buffered body that is not UTF-8 makes `dispatch` raise, so no response is
  returned, although logging is expected never to abort a request.
- The rebuilt responses carry `dict(response.headers)`. This keeps only the
  first value of a repeated header name (`Http.DictOfDropsRepeats`). Headers
  are carried unchanged only when no name repeats (`Http.DictOfDistinct`).
- The summary record follows only the pull that finds the source exhausted. A
  client that reads exactly all N chunks and then leaves gets no summary
  (`EarlyStopHasNoSummary`).
- The streaming test is a case-sensitive prefix test
  (`ClassificationExamples`). `Text/Event-Stream` is therefore buffered, which
  drains the whole stream before anything is sent.

## Model

| member | source | states |
|---|---|---|
| `Utf8.WellFormedConcat` | middlewares/logging_middleware.py:41-50 | two byte strings that each decode still decode after concatenation |
| `Utf8.WellFormedJoin` | middlewares/logging_middleware.py:41-50 | if every chunk decodes, then their join decodes |
| `Utf8.SplitCharacter` | middlewares/logging_middleware.py:41-50 | a two-byte character decodes whole, but neither half decodes alone, so per-chunk decoding is stricter than decoding the join |
| `Http.Get` | middlewares/logging_middleware.py:26 | `headers.get(name, default)` is the default when the name is absent, and otherwise the value of the first pair with that name |
| `Http.DictOfDistinct` | middlewares/logging_middleware.py:54-59 | `dict(headers)` returns the header list unchanged when no name repeats |
| `Http.DictOfGet` | middlewares/logging_middleware.py:77-81 | a lookup in `dict(headers)` agrees with a lookup in the original headers, for every name |
| `Http.DictOfDropsRepeats` | middlewares/logging_middleware.py:77-81 | two `set-cookie` headers come out of `dict(headers)` as one, so a repeated header name loses its later values |
| `LoggingMiddleware.IsStreamingIff` | middlewares/logging_middleware.py:26-30 | a response is streamed exactly when its first content-type header begins with `text/event-stream`; without that header it is buffered |
| `LoggingMiddleware.ClassificationExamples` | middlewares/logging_middleware.py:26-27 | a charset parameter still streams, a capitalised spelling of the type is buffered, and a missing header is buffered |
| `LoggingMiddleware.DecodablePrefix` | middlewares/logging_middleware.py:40-41 | the result is the index of the first chunk that does not decode, or the chunk count when all decode |
| `LoggingMiddleware.RelayEventsAt` | middlewares/logging_middleware.py:40-45 | relaying N chunks gives 2N events; turn j is chunk j's debug record, then chunk j handed over |
| `LoggingMiddleware.RelayEventsProjections` | middlewares/logging_middleware.py:40-45 | the relay hands over exactly the chunks, in order; it logs each chunk once, at debug level; it emits no response record, never calls the handler, and tags every record with the request id |
| `LoggingMiddleware.RelayEventsLevel` | middlewares/logging_middleware.py:40-43 | every record the relay emits is logged at debug level |
| `LoggingMiddleware.StreamTraceBookkeeping` | middlewares/logging_middleware.py:36-61 | the streaming wrapper never calls the handler, writes at most one response record, and tags every record with the request id |
| `LoggingMiddleware.StreamRelaysInput` | middlewares/logging_middleware.py:40-45 | the caller receives exactly the first min(pulls, k) downstream chunks, unaltered and in order, where k is the index of the first chunk that does not decode; all of them when the stream runs to its end; the stream raises exactly when a pull reaches a chunk that does not decode |
| `LoggingMiddleware.StreamLogsEachChunk` | middlewares/logging_middleware.py:40-43 | the debug records name exactly the chunks handed over, in order, so N pulled chunks give N debug records |
| `LoggingMiddleware.StreamLogsBeforeYield` | middlewares/logging_middleware.py:40-43 | each handed-over chunk's debug record is the event just before its delivery |
| `LoggingMiddleware.StreamSummary` | middlewares/logging_middleware.py:40-52 | there is one summary exactly when the consumer pulls past the last chunk and every chunk decoded; it is then the last event and its body is the join of the delivered chunks; otherwise there is no summary |
| `LoggingMiddleware.EarlyStopHasNoSummary` | middlewares/logging_middleware.py:40-52 | a consumer that stops after at most N pulls on N chunks gets no summary record |
| `LoggingMiddleware.StreamSummaryDecodes` | middlewares/logging_middleware.py:47-52 | when the stream is exhausted, decoding the joined body for the summary cannot raise |
| `LoggingMiddleware.SplitCharacterAbortsStream` | middlewares/logging_middleware.py:40-43 | a character split across two chunks makes the stream raise on the first pull with nothing delivered, although the joined body decodes |
| `LoggingMiddleware.ChatStreamScenario` | services/chat_service.py:4-7 | the chat service's ten SSE chunks, read to the end, are delivered in order with ten debug records and one summary of their join |
| `LoggingMiddleware.WrapStreamingResponse` | middlewares/logging_middleware.py:36-61 | the pull loop of `logging_wrapper` produces exactly the reference stream trace; the replacement keeps the status, `dict(headers)` and media type |
| `LoggingMiddleware.WrapStandardResponse` | middlewares/logging_middleware.py:63-83 | draining succeeds exactly when the joined body decodes; it then logs one response record with that body and returns the same status, `dict(headers)` and the joined bytes; otherwise it logs nothing |
| `LoggingMiddleware.Dispatch` | middlewares/logging_middleware.py:11-34 | a body that is not JSON stops the request with an empty trace; otherwise the request record comes first, then one handler call with the unchanged request; a handler failure propagates with no response record; at most one response record; every record carries the request id; each branch yields its wrapper's result |
| `LoggerConfig.GetProcessors` | utils/logger.py:33-55 | nine base processors in fixed order, followed for JSON (and only JSON) by the event rename and `format_exc_info` |
| `LoggerConfig.ProcessorOrder` | utils/logger.py:34-55 | the context merge is first; the rename and exception formatting appear exactly for JSON; the colour key is dropped before the rename; no processor repeats; `wrap_for_formatter` is not among them |
| `LoggerConfig.ConfigureStructlog` | utils/logger.py:66-74 | structlog gets the shared processors followed by exactly one `wrap_for_formatter`, and caches loggers on first use |
| `LoggerConfig.Upper` | utils/logger.py:97 | the upper-cased name maps every ASCII lower-case letter to upper case and keeps the length |
| `LoggerConfig.LevelNamesIgnoreCase` | utils/logger.py:97 | "debug", "Debug" and "DEBUG" set DEBUG and "Info" sets INFO; a name that is no level is refused |
| `LoggerConfig.ClearUvicornEffect` | utils/logger.py:57-64 | the three uvicorn loggers end with no handlers and propagate set; only `uvicorn.access` changes level, to WARNING; every other logger is untouched |
| `LoggerConfig.LoggingSystem.GetLogger` | utils/logger.py:60 | `getLogger` returns the existing logger or creates a fresh one, changing nothing else |
| `LoggerConfig.LoggingSystem.ClearUvicornLoggers` | utils/logger.py:57-64 | the loop over the three names leaves the logger table as the reference `ClearAll` describes, and leaves everything else alone |
| `LoggerConfig.LoggingSystem.ConfigureLogging` | utils/logger.py:76-99 | one stream handler with the processor formatter is added to the root logger; the root level becomes the upper-cased level; an unknown name raises after the handler was added and leaves the level |
| `LoggerConfig.Logger.SetupLogging` | utils/logger.py:101-118 | structlog and the root handler are configured with one shared processor list; the root logger keeps its propagate flag; if the level is valid, uvicorn's loggers are cleared and the exception hook is installed, routing every uncaught exception as `HandleException` does; if not, setup stops before both |
| `LoggerConfig.IsSubclassTransitive` | utils/logger.py:108 | a subclass of a subclass is a subclass |
| `LoggerConfig.HandleExceptionRouting` | utils/logger.py:107-113 | any class derived from KeyboardInterrupt goes to the default hook with no error record; any other exception is logged once at error level |
| `LoggerConfig.ExceptionIsLogged` | utils/logger.py:107-113 | every subclass of `Exception` is logged as an uncaught exception |
| `LoggerConfig.WithoutColorMessage` | utils/logger.py:27-31 | "color_message" is absent afterwards and every other key keeps its value |
| `LoggerConfig.EventRenamed` | utils/logger.py:21-25 | "message" holds the old "event" value, "event" is gone, and every other key keeps its value |
| `LoggerConfig.DropIdempotent` | utils/logger.py:27-31 | dropping the colour key twice is the same as dropping it once |
| `LoggerConfig.JsonChainKeys` | utils/logger.py:21-31 | dropping the colour key and then renaming the event key, in the order the JSON chain applies them, leaves the keys of the event dict minus "event" and "color_message" plus "message"; these two steps change no other value |
| `LoggerConfig.EventDict.DropColorMessageKey` | utils/logger.py:27-31 | the in-place pop never raises and leaves the dict as `WithoutColorMessage` of the old one |
| `LoggerConfig.EventDict.RenameEventKey` | utils/logger.py:21-25 | with "event" present, the dict becomes `EventRenamed` of the old one; without it, `KeyError` is raised and nothing changes |

## Left out

- Request id: `uuid.uuid4()` and `bind_contextvars` are randomness and per-task context. The id is a parameter of `Dispatch`, and every record carries it. Uniqueness across concurrent requests is not modelled.
- Starlette, ASGI and async scheduling: the downstream handler is a function of the request, and a body iterator is the finite list of chunks it yields. An iterator that raises mid-stream, or never ends, is not modelled.
- JSON parsing: `request.json()` is a parameter returning a parsed value or nothing.
- Log output: structlog's processors, renderers, timestamps, call-site fields, message texts ("Request: ...", "Response status: ...") and filtering by level are not modelled. A record stands for one log call.
- `LoggerConfig.JsonChainKeys`: covers only this file's two event-dict processors composed. The third-party processors between and after them (`TimeStamper`, `UnicodeDecoder`, `StackInfoRenderer`, `CallsiteParameterAdder`, `format_exc_info`) add, rewrite or remove other keys; they are not modelled.
- Decoding: records keep the body bytes whose UTF-8 decoding they display. The model captures only whether strict decoding succeeds or raises.
- Starlette's header handling: header names are taken as already lower-case, so lookups are exact. The `content-length` and `content-type` that Starlette's `Response` adds when absent are not modelled.
- `LoggerConfig.Upper`: covers ASCII letters only; Python's `str.upper` also maps some non-ASCII letters.
- Exception classes: single inheritance only, and a class is identified by its name and its base.
- `structlog.configure`, `logging.StreamHandler`, `sys.__excepthook__` and the installed `sys.excepthook` are foreign calls. They appear as tags and recorded state.
- The module-level `log = structlog.get_logger()`, the `LogFormat` string enum (and how a format string from the settings would compare with it), the app wiring in main.py, the settings in config/environment.py, the chat router and schema, and the chat service's timing are outside this model.
