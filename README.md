# Tracing facade: global tracer registry and span builders

A Dafny model of two parts of the `tracing` Go package, a thin facade over
opentracing and Jaeger.

- **The global tracer registry and the no-op backend** (`internal/globaltracer.go`),
  in `globaltracer.dfy`, module `GlobalTracer`.
  - The registry is a class with one slot, `globalTracer`, and the `Testing` flag.
  - A ghost event log records every `Stop` call the registry makes and every installation, in order.
  - `SetGlobalTracer` is proved against a function `Set` on abstract states.
  - Lemmas over `Set` and over runs of Sets (`SetAll`) say which tracers get stopped.
  - The values of the `Tracer`, `Span` and `SpanContext` interfaces are sum types.
    Each is either the no-op implementation or another implementation known only by an identity.
  - Each no-op method is a function that returns its fixed value.
- **Span construction and tracer configuration** (`trace.go`), in `trace.dfy`, module `Trace`.
  - `InitTracing` folds the functional options over the defaults in a loop.
    It is proved against the fold function `Folded`, and then picks the sampler and the error path.
  - A span is a class. Its `SetTag` and `Finish` calls form one append-only event log, so the log shows whether a tag was written before or after `Finish`.
  - The builders `HTTPSpan`, `ConsumerSpan`, `ChildSpan` and `SQLSpan` are methods.
    Each `ensures` states the exact event log: the tag writes in order, and no `Finish`.
  - Lemmas over `LastWrite` (the latest write to a key) state what the write order means.
    For example, a caller tag can follow a builder tag with the same key.
    In `ChildSpan` and `SQLSpan` the goroutine count is always written last.
    In `ConsumerSpan` the caller's tags come after it.
- `wrappers.dfy` holds `Option` and `Result`.

Inputs stand in for what the code gets from outside:
- the goroutine count (`runtime.NumGoroutine`);
- the string form of the request URL;
- the result of extracting a parent span context from a carrier;
- the identity the tracing library gives a new span;
- the outcome of opening the UDP transport.

Points of the Go code worth knowing:
- `InitTracing` folds `WithEnableInfoLog` into the options but never reads `enableInfoLog` afterwards.
  So the option has no effect on the tracer or the reporters (trace.go:69-104).
- `HTTPSpan` and `ConsumerSpan` only log an extraction error. They still pass the extracted context
  to the start option. So no parent is linked only when the library returns a nil context with the
  error (trace.go:109-119, trace.go:145-155).
- The no-op span context reports 0 for both ids (internal/globaltracer.go:92-95).
- `Extract` on the no-op tracer never reports "not found" (internal/globaltracer.go:50-52).

## Model

| member | source | states |
|---|---|---|
| `GlobalTracer.Registry.constructor` | internal/globaltracer.go:9-12 | the registry starts with the no-op tracer active, Testing off, nothing stopped |
| `GlobalTracer.Registry.SetGlobalTracer` | internal/globaltracer.go:15-23 | the new state is `Set` of the old one: Stop on the previously active tracer unless Testing, then t installed |
| `GlobalTracer.Registry.GetGlobalTracer` | internal/globaltracer.go:26-30 | returns the tracer in the slot and changes nothing (no frame) |
| `GlobalTracer.Registry.SetTesting` | internal/globaltracer.go:34 | assigning Testing changes nothing else |
| `GlobalTracer.Set` | internal/globaltracer.go:15-23 | the argument becomes active; the log only grows and ends with its installation; the tracers stopped grow by exactly the previously active one outside testing, by none in testing mode |
| `GlobalTracer.SetAll` | internal/globaltracer.go:22 | after a run of Sets the last argument is active (read-after-write); the Testing flag is untouched |
| `GlobalTracer.SetStopsPreviousOnly` | internal/globaltracer.go:18-22 | one Set changes the Stop count of the previously active tracer by one outside testing and of no other tracer (the argument included); the Stop event comes before the installation |
| `GlobalTracer.SetAllStopsReplaced` | internal/globaltracer.go:18-22 | over any run of Sets the tracers stopped, in order, are exactly the ones replaced; none in testing mode |
| `GlobalTracer.SetTwiceStopsFirstOnce` | internal/globaltracer.go:18-22 | Set(A) then Set(B) stops A once more than before (twice if A was already active); in testing mode no count changes |
| `GlobalTracer.StopsAppend` | internal/globaltracer.go:20 | the Stop calls of two consecutive stretches of the log are those of the first then those of the second |
| `GlobalTracer.NoopStartSpan` | internal/globaltracer.go:42-44 | a no-op span for any name and options |
| `GlobalTracer.NoopExtract` | internal/globaltracer.go:50-52 | an empty context and a nil error for any carrier |
| `GlobalTracer.NoopInject` | internal/globaltracer.go:55 | a nil error for any context and carrier |
| `GlobalTracer.NoopSpanAfter` | internal/globaltracer.go:66-78 | SetTag, SetOperationName, SetBaggageItem and Finish leave the stateless no-op span |
| `GlobalTracer.NoopBaggageItem` | internal/globaltracer.go:72 | the empty string for every key |
| `GlobalTracer.NoopSpanTracer` | internal/globaltracer.go:81 | a no-op tracer |
| `GlobalTracer.NoopSpanContextOf` | internal/globaltracer.go:84 | a no-op span context |
| `GlobalTracer.NoopSpanID` | internal/globaltracer.go:92 | span id 0 |
| `GlobalTracer.NoopTraceID` | internal/globaltracer.go:95 | trace id 0 |
| `GlobalTracer.NoopForeachBaggageItem` | internal/globaltracer.go:98 | the handler is never called |
| `Trace.Apply` | trace.go:49-61 | each option sets its own field and leaves the other |
| `Trace.LastProbabilityWins` | trace.go:44-72 | the last WithSampleProbability applied decides the probability |
| `Trace.DefaultProbabilityKept` | trace.go:44-72 | without WithSampleProbability the probability is the default 0.0 |
| `Trace.LastInfoLogWins` | trace.go:44-72 | the last WithEnableInfoLog applied decides the flag |
| `Trace.DefaultInfoLogKept` | trace.go:44-72 | without WithEnableInfoLog info logging is off |
| `Trace.ChooseSampler` | trace.go:88-104 | probabilistic at the given rate exactly when the probability is > 0; always-sample otherwise (0, negative) |
| `Trace.InitTracing` | trace.go:64-105 | options folded left to right over the defaults; on transport failure that error with tracer, reporter and closer nil; otherwise nil error, composite logging+remote reporter on the transport, the service name, the sampler chosen from the folded probability |
| `Trace.HTTPOpName` | trace.go:133-135 | the method, one space, then the path |
| `Trace.ComponentOpName` | trace.go:214-216 | the component, one space, then the target |
| `Trace.OpNameSplits` | trace.go:133-135 | for a method (or component) without a space, splitting the operation name gives back both parts |
| `Trace.ApplyChildOfKind` | trace.go:206-211 | adds one ChildOf reference exactly when a parent context exists, after the earlier ones, which it keeps; always sets the given kind |
| `Trace.ApplyConsumerOption` | trace.go:206-211 | adds one ChildOf reference exactly when a parent context exists and keeps the earlier ones; always sets the consumer kind |
| `Trace.ApplyServerOption` | trace.go:118 | the server-kind option HTTPSpan uses: the same linking rule with the server kind |
| `Trace.ContextWithSpan` | trace.go:124-129 | the returned context carries the span |
| `Trace.HTTPSpan` | trace.go:108-130 | logs only errors other than "not found"; a fresh server span named HTTPOpName(method, path), child of the extracted context if any; tags method, url, component "http", goroutines in that order, and no Finish; the request's context carries the span |
| `Trace.Uint16` | trace.go:139 | the status code modulo 65536, in 0..65535 |
| `Trace.FinishHTTPSpan` | trace.go:138-141 | the span's log gains exactly the http.status_code = uint16(code) tag write followed by Finish |
| `Trace.ConsumerSpan` | trace.go:144-162 | logs only errors other than "not found"; a fresh consumer-kind span, child of the extracted context only if there is one; tags component, goroutines, then the caller tags in order, and no Finish |
| `Trace.SpanSuccess` | trace.go:165-168 | the span's log gains exactly the error=false tag write followed by Finish |
| `Trace.SpanError` | trace.go:171-174 | the span's log gains exactly the error=true tag write followed by Finish |
| `Trace.StartSpanFromContext` | trace.go:178 | a fresh span, child of the span the context carries or a root, with an empty log; the context returned carries it |
| `Trace.ChildSpan` | trace.go:177-185 | tags component, then the caller tags in order, then goroutines, and no Finish |
| `Trace.SQLSpan` | trace.go:188-200 | tags component, db.type, db.instance, db.user, db.statement, then the caller tags, then goroutines, and no Finish |
| `Trace.LastWriteConcat` | trace.go:158-160 | in a log built of two stretches, a key's latest write is in the second stretch if it has one |
| `Trace.ConsumerCallerTagsLast` | trace.go:156-160 | a caller tag is written after the builder's component and goroutines tags; without a caller "component", the latest component write is the one given |
| `Trace.ChildGoroutinesLast` | trace.go:179-183 | goroutines is written last whatever the caller tags; a caller "component" comes after the builder's |
| `Trace.SQLCallerTagsAfterDatabaseTags` | trace.go:190-198 | a caller tag with a db.* or component key comes after the builder's; goroutines is written last |
| `Trace.Uint16KeepsSmallCodes` | trace.go:139 | a code in 0..65535, every HTTP status among them, is written unchanged |

## Left out

- GlobalTracer.Tracer: one value, `NoopTracer`, stands for both the pointer `&NoopTracer{}` the registry starts with (internal/globaltracer.go:11) and the value `NoopTracer{}` that `NoopSpan.Tracer()` returns (internal/globaltracer.go:81). Go's interface comparison and type assertions tell these two apart; the model does not.
- GlobalTracer.Registry.SetGlobalTracer: Go's nil interface value is not a `Tracer` of the model, so every tracer installed is a real one. In the source `SetGlobalTracer(nil)` is accepted and installs nil (internal/globaltracer.go:22), and `GetGlobalTracer` then returns it (internal/globaltracer.go:29). The next Set outside Testing calls `Stop` on that nil value (internal/globaltracer.go:20) and panics before line 22, so nil stays installed. `GlobalTracer.Set`, `GlobalTracer.SetAll` and `GlobalTracer.SetAllStopsReplaced` therefore speak only of runs in which no nil tracer is installed.
- Trace.InitTracing: a nil `Option` is not an `OptionSetter` of the model. In the source calling it panics at trace.go:71.
- Trace.FinishHTTPSpan: the span is an object of the model, never nil. In the source a nil span panics at trace.go:139.
- Trace.SpanSuccess: likewise never given a nil span, which panics at trace.go:166 in the source.
- Trace.SpanError: likewise never given a nil span, which panics at trace.go:172 in the source.
- GlobalTracer.Registry.SetGlobalTracer: `Stop` is modelled as a logged call that returns and does nothing else. In the source it runs while `mu` is held (internal/globaltracer.go:16-20), so three cases differ from the model. A `Stop` that calls `SetGlobalTracer` or `GetGlobalTracer` deadlocks, because the RWMutex cannot be re-entered (lines 16, 27); the Testing guard (line 18) exists to avoid this. A `Stop` that panics never reaches line 22, so the old tracer stays installed. A `Stop` that assigns `Testing` (line 34) changes what later Sets do. `GlobalTracer.Set`, `GlobalTracer.SetAll` and `GlobalTracer.SetAllStopsReplaced` therefore speak only of Stops that return without touching the registry or `Testing`.
- Locking: the RWMutex (internal/globaltracer.go:10, 16-17, 27-28) is not modelled. Calls are taken one at a time, in sequence, so a Get sees the last Set; the blocking and deadlock cases above are outside the model.
- NoopTracer.SetServiceInfo and NoopTracer.Stop (internal/globaltracer.go:47, 58) do nothing and return nothing. Stop appears only as the registry's logged call.
- Jaeger construction: the Prometheus metrics factory, the UDP transport, the logging and remote reporters and `jaeger.NewTracer` (trace.go:73-103) are library calls. The model keeps their structure as values, the sampler choice and the error path. Opening the transport is an input.
- The probabilistic sampler's own behaviour, and the error discarded at trace.go:89, belong to the library.
- Trace.ChooseSampler: the probability is a `real`. Floating-point detail beyond the `> 0` test is not modelled.
- Carrier parsing and injection by the opentracing global tracer (trace.go:109-112, 145-148) belong to the library. The extraction result is an input, so no inject/extract round trip is stated.
- `LogrusAdapter` and the logrus calls (trace.go:16-34, 114, 150) are a logging sink. The builders return a `logged` flag instead.
- `runtime.NumGoroutine`, `URL.String`, `http.Request.WithContext` and `context.Context` are opaque inputs and outputs.
- How the library's `SetTag` resolves duplicate keys is not visible. The ordering properties are stated over the tag-write log only.
- Trace.ApplyServerOption: `ext.RPCServerOption` is library code. It is modelled on the same rule as `consumerOption.Apply`, because the library's own definition is not part of this model.
- Trace.Uint16: Go's `int` is 64 bits wide. The model takes any integer; for every value that fits in 64 bits, its low 16 bits equal the value modulo 65536.
