/** The span-construction rules and the tracer configuration of package
    `tracing` (trace.go).

    A span is an object whose tag writes are kept as an append-only log: the
    order of the writes is what the builders fix, while how the tracing
    library resolves two writes to the same key is its own business.  The
    goroutine count, the request URL, the result of extracting a parent
    context, the identity the library gives a new span and the outcome of
    opening the UDP transport are inputs. */
module Trace {
  import opened Wrappers

  // ---------------------------------------------------------------------
  // Options and InitTracing (trace.go:36-105)
  // ---------------------------------------------------------------------

  datatype Options = Options(sampleProbability: real, enableInfoLog: bool)

  /** Constant sampling, no info logging. */
  const DefaultOptions := Options(0.0, false)

  /** The functional options WithSampleProbability and WithEnableInfoLog. */
  datatype OptionSetter =
    | WithSampleProbability(probability: real)
    | WithEnableInfoLog(enable: bool)

  /** What one option does to the options struct: set its own field only. */
  function Apply(o: Options, setter: OptionSetter): (r: Options)
    ensures setter.WithSampleProbability? ==>
      r.sampleProbability == setter.probability && r.enableInfoLog == o.enableInfoLog
    ensures setter.WithEnableInfoLog? ==>
      r.enableInfoLog == setter.enable && r.sampleProbability == o.sampleProbability
  {
    match setter
    case WithSampleProbability(p) => o.(sampleProbability := p)
    case WithEnableInfoLog(e) => o.(enableInfoLog := e)
  }

  /** The defaults with the setters applied left to right. */
  function Folded(setters: seq<OptionSetter>): Options
  {
    if setters == [] then DefaultOptions
    else Apply(Folded(setters[..|setters| - 1]), setters[|setters| - 1])
  }

  /** The last WithSampleProbability wins; later WithEnableInfoLog setters
      do not disturb it. */
  lemma {:induction false} LastProbabilityWins(setters: seq<OptionSetter>, i: nat)
    requires i < |setters| && setters[i].WithSampleProbability?
    requires forall j :: i < j < |setters| ==> !setters[j].WithSampleProbability?
    ensures Folded(setters).sampleProbability == setters[i].probability
    decreases |setters|
  {
    if i < |setters| - 1 {
      LastProbabilityWins(setters[..|setters| - 1], i);
    }
  }

  /** With no WithSampleProbability, the probability is the default 0. */
  lemma {:induction false} DefaultProbabilityKept(setters: seq<OptionSetter>)
    requires forall j :: 0 <= j < |setters| ==> !setters[j].WithSampleProbability?
    ensures Folded(setters).sampleProbability == 0.0
    decreases |setters|
  {
    if setters != [] {
      DefaultProbabilityKept(setters[..|setters| - 1]);
    }
  }

  /** The last WithEnableInfoLog wins. */
  lemma {:induction false} LastInfoLogWins(setters: seq<OptionSetter>, i: nat)
    requires i < |setters| && setters[i].WithEnableInfoLog?
    requires forall j :: i < j < |setters| ==> !setters[j].WithEnableInfoLog?
    ensures Folded(setters).enableInfoLog == setters[i].enable
    decreases |setters|
  {
    if i < |setters| - 1 {
      LastInfoLogWins(setters[..|setters| - 1], i);
    }
  }

  /** With no WithEnableInfoLog, info logging stays off. */
  lemma {:induction false} DefaultInfoLogKept(setters: seq<OptionSetter>)
    requires forall j :: 0 <= j < |setters| ==> !setters[j].WithEnableInfoLog?
    ensures !Folded(setters).enableInfoLog
    decreases |setters|
  {
    if setters != [] {
      DefaultInfoLogKept(setters[..|setters| - 1]);
    }
  }

  datatype Sampler = ProbabilisticSampler(rate: real) | ConstSampler(decision: bool)

  /** A positive probability selects probabilistic sampling at that rate;
      zero, the default, and negative values select always-sample. */
  function ChooseSampler(probability: real): (s: Sampler)
    ensures s.ProbabilisticSampler? <==> probability > 0.0
    ensures s.ProbabilisticSampler? ==> s.rate == probability
    ensures s.ConstSampler? ==> s.decision
  {
    if probability > 0.0 then ProbabilisticSampler(probability) else ConstSampler(true)
  }

  /** The UDP transport to the tracing agent. */
  datatype Transport = Transport(id: nat)

  datatype Reporter =
    | LoggingReporter
    | RemoteReporter(transport: Transport)
    | CompositeReporter(first: Reporter, second: Reporter)

  datatype JaegerTracer = JaegerTracer(serviceName: string, sampler: Sampler, reporter: Reporter)

  /** The handle that closes a tracer. */
  datatype Closer = TracerCloser(tracer: JaegerTracer)

  /** InitTracing's four named results; None stands for Go's nil. */
  datatype Initialised = Initialised(
    tracer: Option<JaegerTracer>,
    reporter: Option<Reporter>,
    closer: Option<Closer>,
    err: Option<Error>)

  /** InitTracing.  `udp` is what opening the UDP transport to the agent's
      host:port gave.  The options are folded over the defaults first; on a
      transport failure every other result stays nil; otherwise the tracer
      reports to both a logging and a remote reporter and samples as the
      folded probability says. */
  method InitTracing(serviceName: string, setters: seq<OptionSetter>, udp: Result<Transport, Error>)
    returns (r: Initialised)
    ensures udp.Failure? ==> r == Initialised(None, None, None, Some(udp.error))
    ensures udp.Success? ==>
      && r.err == None
      && r.reporter == Some(CompositeReporter(LoggingReporter, RemoteReporter(udp.value)))
      && r.tracer.Some?
      && r.tracer.value.serviceName == serviceName
      && r.tracer.value.sampler == ChooseSampler(Folded(setters).sampleProbability)
      && r.tracer.value.reporter == r.reporter.value
      && r.closer == Some(TracerCloser(r.tracer.value))
  {
    var opts := DefaultOptions;
    var i := 0;
    while i < |setters|
      invariant 0 <= i <= |setters|
      invariant opts == Folded(setters[..i])
    {
      assert setters[..i + 1][..i] == setters[..i];
      opts := Apply(opts, setters[i]);
      i := i + 1;
    }
    assert setters[..|setters|] == setters;
    if udp.Failure? {
      return Initialised(None, None, None, Some(udp.error));
    }
    var reporter := CompositeReporter(LoggingReporter, RemoteReporter(udp.value));
    var tracer: JaegerTracer;
    if opts.sampleProbability > 0.0 {
      tracer := JaegerTracer(serviceName, ProbabilisticSampler(opts.sampleProbability), reporter);
    } else {
      tracer := JaegerTracer(serviceName, ConstSampler(true), reporter);
    }
    r := Initialised(Some(tracer), Some(reporter), Some(TracerCloser(tracer)), None);
  }

  // ---------------------------------------------------------------------
  // Operation names (trace.go:132-135, 213-216)
  // ---------------------------------------------------------------------

  /** HTTPOpName: the method, one space, the path. */
  function HTTPOpName(httpMethod: string, path: string): (name: string)
    ensures |name| == |httpMethod| + 1 + |path|
    ensures name[..|httpMethod|] == httpMethod && name[|httpMethod|] == ' ' && name[|httpMethod| + 1..] == path
  {
    httpMethod + " " + path
  }

  /** ComponentOpName: the component, one space, the target. */
  function ComponentOpName(component: string, target: string): (name: string)
    ensures |name| == |component| + 1 + |target|
    ensures name[..|component|] == component && name[|component|] == ' '
    ensures name[|component| + 1..] == target
  {
    component + " " + target
  }

  /** The name up to its first space, and the rest after that space. */
  function SplitAtFirstSpace(name: string): (parts: (string, string))
    ensures ' ' !in name ==> parts == (name, "")
    ensures ' ' in name ==> parts.0 + " " + parts.1 == name && ' ' !in parts.0
  {
    if name == [] then ("", "")
    else if name[0] == ' ' then ("", name[1..])
    else
      var rest := SplitAtFirstSpace(name[1..]);
      assert [name[0]] + name[1..] == name;
      ([name[0]] + rest.0, rest.1)
  }

  /** Operation names can be taken apart again: an HTTP method never holds a
      space, so the method and the path come back from HTTPOpName, and the
      same holds for a component name without a space. */
  lemma {:induction false} OpNameSplits(prefix: string, suffix: string)
    requires ' ' !in prefix
    ensures SplitAtFirstSpace(HTTPOpName(prefix, suffix)) == (prefix, suffix)
    ensures SplitAtFirstSpace(ComponentOpName(prefix, suffix)) == (prefix, suffix)
    decreases |prefix|
  {
    var name := prefix + " " + suffix;
    if prefix == [] {
      assert name == " " + suffix;
      assert name[1..] == suffix;
    } else {
      OpNameSplits(prefix[1..], suffix);
      assert name[1..] == prefix[1..] + " " + suffix;
      assert [prefix[0]] + prefix[1..] == prefix;
    }
  }

  // ---------------------------------------------------------------------
  // Tags and the span object
  // ---------------------------------------------------------------------

  newtype uint16 = x: int | 0 <= x < 0x1_0000

  /** A tag value, as the builders write them; Opaque is any caller value. */
  datatype Value =
    | StringValue(s: string)
    | IntValue(i: int)
    | Uint16Value(u: uint16)
    | BoolValue(b: bool)
    | Opaque(id: nat)

  datatype Tag = Tag(key: string, value: Value)

  // The tag keys of the opentracing `ext` package and the builders.
  const HTTPMethodKey := "http.method"
  const HTTPUrlKey := "http.url"
  const HTTPStatusCodeKey := "http.status_code"
  const ComponentKey := "component"
  const ErrorKey := "error"
  const DBTypeKey := "db.type"
  const DBInstanceKey := "db.instance"
  const DBUserKey := "db.user"
  const DBStatementKey := "db.statement"
  const GoroutinesKey := "goroutines"

  datatype SpanKind = Server | Consumer

  /** The identity of a span, by which other spans refer to it. */
  datatype SpanContext = SpanContext(id: nat)

  datatype Reference = ChildOf(context: SpanContext)

  /** opentracing.StartSpanOptions: the references and the span.kind tag. */
  datatype StartSpanOptions = StartSpanOptions(references: seq<Reference>, kind: Option<SpanKind>)

  const NoStartOptions := StartSpanOptions([], None)

  /** The rule both start options follow: add a ChildOf reference only when
      a parent context was extracted, and mark the span with the given kind
      in any case. */
  function ApplyChildOfKind(kind: SpanKind, parent: Option<SpanContext>, o: StartSpanOptions): (r: StartSpanOptions)
    ensures r.kind == Some(kind)
    ensures |r.references| == |o.references| + (if parent.Some? then 1 else 0)
    ensures r.references[..|o.references|] == o.references
    ensures parent.Some? ==> r.references[|o.references|] == ChildOf(parent.value)
  {
    var refs := if parent.Some? then o.references + [ChildOf(parent.value)] else o.references;
    StartSpanOptions(refs, Some(kind))
  }

  /** consumerOption.Apply: the ChildOf rule with the consumer kind. */
  function ApplyConsumerOption(parent: Option<SpanContext>, o: StartSpanOptions): (r: StartSpanOptions)
    ensures r.kind == Some(Consumer)
    ensures |r.references| == |o.references| + (if parent.Some? then 1 else 0)
    ensures r.references[..|o.references|] == o.references
    ensures parent.Some? ==> r.references[|o.references|] == ChildOf(parent.value)
  {
    ApplyChildOfKind(Consumer, parent, o)
  }

  /** ext.RPCServerOption, which HTTPSpan uses: the ChildOf rule with the
      server kind. */
  function ApplyServerOption(parent: Option<SpanContext>, o: StartSpanOptions): (r: StartSpanOptions)
    ensures r.kind == Some(Server)
    ensures |r.references| == |o.references| + (if parent.Some? then 1 else 0)
    ensures r.references[..|o.references|] == o.references
    ensures parent.Some? ==> r.references[|o.references|] == ChildOf(parent.value)
  {
    ApplyChildOfKind(Server, parent, o)
  }

  /** What happens to a span after it is started: a SetTag call or Finish. */
  datatype SpanEvent = Tagged(tag: Tag) | Finished

  /** The events of writing the given tags one after another. */
  function Writes(tags: seq<Tag>): (log: seq<SpanEvent>)
    ensures |log| == |tags|
    ensures forall i :: 0 <= i < |tags| ==> log[i] == Tagged(tags[i])
  {
    if tags == [] then [] else Writes(tags[..|tags| - 1]) + [Tagged(tags[|tags| - 1])]
  }

  /** Writing one more tag adds one Tagged event at the end. */
  lemma WritesSnoc(tags: seq<Tag>, t: Tag)
    ensures Writes(tags + [t]) == Writes(tags) + [Tagged(t)]
  {
    assert (tags + [t])[..|tags|] == tags;
  }

  /** A span as the tracing library keeps it. */
  class Span {
    const operationName: string
    const references: seq<Reference>
    const kind: Option<SpanKind>
    const context: SpanContext
    /** Every SetTag and Finish call, in call order. */
    var log: seq<SpanEvent>

    /** opentracing.StartSpan: a new span with nothing written to it. */
    constructor (operationName: string, opts: StartSpanOptions, context: SpanContext)
      ensures this.operationName == operationName && this.context == context
      ensures references == opts.references && kind == opts.kind
      ensures log == []
    {
      this.operationName := operationName;
      this.references := opts.references;
      this.kind := opts.kind;
      this.context := context;
      log := [];
    }

    method SetTag(key: string, value: Value)
      modifies this
      ensures log == old(log) + [Tagged(Tag(key, value))]
    {
      log := log + [Tagged(Tag(key, value))];
    }

    method Finish()
      modifies this
      ensures log == old(log) + [Finished]
    {
      log := log + [Finished];
    }
  }

  /** A context.Context as far as the builders use it: an opaque base and
      the span it carries, if any. */
  datatype Context = Context(base: nat, span: Option<Span>)

  /** opentracing.ContextWithSpan. */
  function ContextWithSpan(ctx: Context, sp: Span): (r: Context)
    ensures r.span == Some(sp) && r.base == ctx.base
  {
    ctx.(span := Some(sp))
  }

  /** An inbound HTTP request: its method, the string form of its URL and
      its context. */
  datatype Request = Request(httpMethod: string, url: string, ctx: Context)

  datatype ExtractError = SpanContextNotFound | ExtractFailed(message: string)

  /** What the tracing library's Extract gave: a context, which may be nil,
      and an error, which may be nil. */
  datatype Extraction = Extraction(context: Option<SpanContext>, err: Option<ExtractError>)

  /** An extraction error is logged unless it is "span context not found". */
  predicate MustLog(e: Extraction)
  {
    e.err.Some? && e.err.value != SpanContextNotFound
  }

  // ---------------------------------------------------------------------
  // The tag logs the builders write, and what they imply
  // ---------------------------------------------------------------------

  /** HTTPSpan: method, URL, component "http", goroutine count. */
  function HTTPTags(httpMethod: string, url: string, goroutines: int): seq<Tag>
  {
    [ Tag(HTTPMethodKey, StringValue(httpMethod)), Tag(HTTPUrlKey, StringValue(url)),
      Tag(ComponentKey, StringValue("http")), Tag(GoroutinesKey, IntValue(goroutines)) ]
  }

  /** ConsumerSpan: component, goroutine count, then the caller's tags. */
  function ConsumerTags(component: string, goroutines: int, tags: seq<Tag>): seq<Tag>
  {
    [Tag(ComponentKey, StringValue(component)), Tag(GoroutinesKey, IntValue(goroutines))] + tags
  }

  /** ChildSpan: component, the caller's tags, then the goroutine count. */
  function ChildTags(component: string, tags: seq<Tag>, goroutines: int): seq<Tag>
  {
    [Tag(ComponentKey, StringValue(component))] + tags + [Tag(GoroutinesKey, IntValue(goroutines))]
  }

  /** SQLSpan: component, the four database tags, the caller's tags, then
      the goroutine count. */
  function SQLTags(component: string, sqlType: string, instance: string, user: string,
                   statement: string, tags: seq<Tag>, goroutines: int): seq<Tag>
  {
    [ Tag(ComponentKey, StringValue(component)), Tag(DBTypeKey, StringValue(sqlType)),
      Tag(DBInstanceKey, StringValue(instance)), Tag(DBUserKey, StringValue(user)),
      Tag(DBStatementKey, StringValue(statement)) ]
    + tags + [Tag(GoroutinesKey, IntValue(goroutines))]
  }

  /** The value of the latest write to a key in a tag log. */
  function LastWrite(log: seq<Tag>, key: string): Option<Value>
  {
    if log == [] then None
    else if log[|log| - 1].key == key then Some(log[|log| - 1].value)
    else LastWrite(log[..|log| - 1], key)
  }

  /** A write in the second part of a log comes after every write in the first. */
  lemma {:induction false} LastWriteConcat(a: seq<Tag>, b: seq<Tag>, key: string)
    ensures LastWrite(a + b, key) == if LastWrite(b, key).Some? then LastWrite(b, key) else LastWrite(a, key)
    decreases |b|
  {
    if b == [] {
      assert a + b == a;
    } else {
      assert (a + b)[..|a + b| - 1] == a + b[..|b| - 1];
      LastWriteConcat(a, b[..|b| - 1], key);
    }
  }

  /** In a consumer span the caller's tags come last: a caller tag whose key
      is "component" or "goroutines" is written after the builder's own. */
  lemma ConsumerCallerTagsLast(component: string, goroutines: int, tags: seq<Tag>, key: string)
    ensures LastWrite(tags, key).Some? ==>
      LastWrite(ConsumerTags(component, goroutines, tags), key) == LastWrite(tags, key)
    ensures LastWrite(tags, ComponentKey).None? ==>
      LastWrite(ConsumerTags(component, goroutines, tags), ComponentKey) == Some(StringValue(component))
  {
    var head := [Tag(ComponentKey, StringValue(component)), Tag(GoroutinesKey, IntValue(goroutines))];
    LastWriteConcat(head, tags, key);
    LastWriteConcat(head, tags, ComponentKey);
    assert head[..1] == [head[0]];
  }

  /** In a child span the goroutine count is written last, whatever the
      caller's tags; a caller tag keyed "component" is written after the
      builder's. */
  lemma ChildGoroutinesLast(component: string, tags: seq<Tag>, goroutines: int)
    ensures LastWrite(ChildTags(component, tags, goroutines), GoroutinesKey) == Some(IntValue(goroutines))
    ensures LastWrite(tags, ComponentKey).Some? ==>
      LastWrite(ChildTags(component, tags, goroutines), ComponentKey) == LastWrite(tags, ComponentKey)
  {
    var head := [Tag(ComponentKey, StringValue(component))];
    var log := ChildTags(component, tags, goroutines);
    assert log[..|log| - 1] == head + tags;
    LastWriteConcat(head, tags, ComponentKey);
  }

  /** In an SQL span the caller's tags are written after the database tags,
      so a caller tag with a db.* key or "component" comes later; the
      goroutine count is written last. */
  lemma SQLCallerTagsAfterDatabaseTags(component: string, sqlType: string, instance: string,
                                       user: string, statement: string, tags: seq<Tag>,
                                       goroutines: int, key: string)
    requires key != GoroutinesKey
    ensures LastWrite(SQLTags(component, sqlType, instance, user, statement, tags, goroutines), GoroutinesKey)
      == Some(IntValue(goroutines))
    ensures LastWrite(tags, key).Some? ==>
      LastWrite(SQLTags(component, sqlType, instance, user, statement, tags, goroutines), key)
        == LastWrite(tags, key)
  {
    var head := [ Tag(ComponentKey, StringValue(component)), Tag(DBTypeKey, StringValue(sqlType)),
                  Tag(DBInstanceKey, StringValue(instance)), Tag(DBUserKey, StringValue(user)),
                  Tag(DBStatementKey, StringValue(statement)) ];
    var log := SQLTags(component, sqlType, instance, user, statement, tags, goroutines);
    assert log[..|log| - 1] == head + tags;
    LastWriteConcat(head, tags, key);
  }

  // ---------------------------------------------------------------------
  // The builders (trace.go:107-200)
  // ---------------------------------------------------------------------

  /** HTTPSpan.  The extraction error is logged unless it is "not found";
      the span is started as a server span named "<METHOD> <path>", child of
      the extracted context when there is one; four tags follow; the
      returned request carries the span in its context. */
  method HTTPSpan(path: string, r: Request, extracted: Extraction, goroutines: int, id: SpanContext)
    returns (sp: Span, r': Request, logged: bool)
    ensures fresh(sp)
    ensures logged == MustLog(extracted)
    ensures sp.operationName == HTTPOpName(r.httpMethod, path) && sp.context == id
    ensures StartSpanOptions(sp.references, sp.kind) == ApplyServerOption(extracted.context, NoStartOptions)
    ensures sp.log == Writes(HTTPTags(r.httpMethod, r.url, goroutines))
    ensures r' == r.(ctx := ContextWithSpan(r.ctx, sp))
  {
    logged := MustLog(extracted);
    sp := new Span(HTTPOpName(r.httpMethod, path), ApplyServerOption(extracted.context, NoStartOptions), id);
    sp.SetTag(HTTPMethodKey, StringValue(r.httpMethod));
    sp.SetTag(HTTPUrlKey, StringValue(r.url));
    sp.SetTag(ComponentKey, StringValue("http"));
    sp.SetTag(GoroutinesKey, IntValue(goroutines));
    assert sp.log == Writes(HTTPTags(r.httpMethod, r.url, goroutines));
    r' := r.(ctx := ContextWithSpan(r.ctx, sp));
  }

  /** Go's uint16(code): the low 16 bits of the code, two's complement. */
  function Uint16(code: int): (u: uint16)
    ensures (u as int - code) % 0x1_0000 == 0
  {
    (code % 0x1_0000) as uint16
  }

  /** A code that fits in 16 bits, every HTTP status among them, is kept as it is. */
  lemma Uint16KeepsSmallCodes(code: int)
    requires 0 <= code < 0x1_0000
    ensures Uint16(code) as int == code
  {
  }

  /** FinishHTTPSpan: one status-code tag, then Finish. */
  method FinishHTTPSpan(sp: Span, code: int)
    modifies sp
    ensures sp.log == old(sp.log) + [Tagged(Tag(HTTPStatusCodeKey, Uint16Value(Uint16(code)))), Finished]
  {
    sp.SetTag(HTTPStatusCodeKey, Uint16Value(Uint16(code)));
    sp.Finish();
  }

  /** ConsumerSpan.  The parent comes from the message headers; the span is
      consumer-kind in any case and a child of the parent when there is one;
      component, goroutine count, then the caller's tags in order. */
  method ConsumerSpan(ctx: Context, opName: string, component: string, extracted: Extraction,
                      tags: seq<Tag>, goroutines: int, id: SpanContext)
    returns (sp: Span, ctx': Context, logged: bool)
    ensures fresh(sp)
    ensures logged == MustLog(extracted)
    ensures sp.operationName == opName && sp.context == id
    ensures StartSpanOptions(sp.references, sp.kind) == ApplyConsumerOption(extracted.context, NoStartOptions)
    ensures sp.log == Writes(ConsumerTags(component, goroutines, tags))
    ensures ctx' == ContextWithSpan(ctx, sp)
  {
    logged := MustLog(extracted);
    sp := new Span(opName, ApplyConsumerOption(extracted.context, NoStartOptions), id);
    sp.SetTag(ComponentKey, StringValue(component));
    sp.SetTag(GoroutinesKey, IntValue(goroutines));
    ghost var head := [Tag(ComponentKey, StringValue(component)), Tag(GoroutinesKey, IntValue(goroutines))];
    assert sp.log == Writes(head + tags[..0]);
    var i := 0;
    while i < |tags|
      invariant 0 <= i <= |tags|
      invariant sp.log == Writes(head + tags[..i])
    {
      assert head + tags[..i + 1] == (head + tags[..i]) + [tags[i]];
      WritesSnoc(head + tags[..i], tags[i]);
      sp.SetTag(tags[i].key, tags[i].value);
      i := i + 1;
    }
    assert tags[..|tags|] == tags;
    ctx' := ContextWithSpan(ctx, sp);
  }

  /** SpanSuccess: error=false, then Finish. */
  method SpanSuccess(sp: Span)
    modifies sp
    ensures sp.log == old(sp.log) + [Tagged(Tag(ErrorKey, BoolValue(false))), Finished]
  {
    sp.SetTag(ErrorKey, BoolValue(false));
    sp.Finish();
  }

  /** SpanError: error=true, then Finish. */
  method SpanError(sp: Span)
    modifies sp
    ensures sp.log == old(sp.log) + [Tagged(Tag(ErrorKey, BoolValue(true))), Finished]
  {
    sp.SetTag(ErrorKey, BoolValue(true));
    sp.Finish();
  }

  /** opentracing.StartSpanFromContext: a child of the span the context
      carries, or a root span; the returned context carries the new span. */
  method StartSpanFromContext(ctx: Context, opName: string, id: SpanContext)
    returns (sp: Span, ctx': Context)
    ensures fresh(sp)
    ensures sp.operationName == opName && sp.context == id && sp.kind == None
    ensures sp.references == if ctx.span.Some? then [ChildOf(ctx.span.value.context)] else []
    ensures sp.log == []
    ensures ctx' == ContextWithSpan(ctx, sp)
  {
    var refs := if ctx.span.Some? then [ChildOf(ctx.span.value.context)] else [];
    sp := new Span(opName, StartSpanOptions(refs, None), id);
    ctx' := ContextWithSpan(ctx, sp);
  }

  /** ChildSpan: component, the caller's tags in order, then the goroutine count. */
  method ChildSpan(ctx: Context, opName: string, component: string, tags: seq<Tag>,
                   goroutines: int, id: SpanContext)
    returns (sp: Span, ctx': Context)
    ensures fresh(sp)
    ensures sp.operationName == opName && sp.context == id && sp.kind == None
    ensures sp.references == if ctx.span.Some? then [ChildOf(ctx.span.value.context)] else []
    ensures sp.log == Writes(ChildTags(component, tags, goroutines))
    ensures ctx' == ContextWithSpan(ctx, sp)
  {
    sp, ctx' := StartSpanFromContext(ctx, opName, id);
    sp.SetTag(ComponentKey, StringValue(component));
    ghost var head := [Tag(ComponentKey, StringValue(component))];
    assert sp.log == Writes(head + tags[..0]);
    var i := 0;
    while i < |tags|
      invariant 0 <= i <= |tags|
      invariant sp.log == Writes(head + tags[..i])
    {
      assert head + tags[..i + 1] == (head + tags[..i]) + [tags[i]];
      WritesSnoc(head + tags[..i], tags[i]);
      sp.SetTag(tags[i].key, tags[i].value);
      i := i + 1;
    }
    assert tags[..|tags|] == tags;
    WritesSnoc(head + tags, Tag(GoroutinesKey, IntValue(goroutines)));
    sp.SetTag(GoroutinesKey, IntValue(goroutines));
  }

  /** SQLSpan: component, database type, instance, user and statement, the
      caller's tags in order, then the goroutine count. */
  method SQLSpan(ctx: Context, opName: string, component: string, sqlType: string,
                 instance: string, user: string, statement: string, tags: seq<Tag>,
                 goroutines: int, id: SpanContext)
    returns (sp: Span, ctx': Context)
    ensures fresh(sp)
    ensures sp.operationName == opName && sp.context == id && sp.kind == None
    ensures sp.references == if ctx.span.Some? then [ChildOf(ctx.span.value.context)] else []
    ensures sp.log == Writes(SQLTags(component, sqlType, instance, user, statement, tags, goroutines))
    ensures ctx' == ContextWithSpan(ctx, sp)
  {
    sp, ctx' := StartSpanFromContext(ctx, opName, id);
    sp.SetTag(ComponentKey, StringValue(component));
    sp.SetTag(DBTypeKey, StringValue(sqlType));
    sp.SetTag(DBInstanceKey, StringValue(instance));
    sp.SetTag(DBUserKey, StringValue(user));
    sp.SetTag(DBStatementKey, StringValue(statement));
    ghost var head := [ Tag(ComponentKey, StringValue(component)), Tag(DBTypeKey, StringValue(sqlType)),
                        Tag(DBInstanceKey, StringValue(instance)), Tag(DBUserKey, StringValue(user)),
                        Tag(DBStatementKey, StringValue(statement)) ];
    assert sp.log == Writes(head + tags[..0]);
    var i := 0;
    while i < |tags|
      invariant 0 <= i <= |tags|
      invariant sp.log == Writes(head + tags[..i])
    {
      assert head + tags[..i + 1] == (head + tags[..i]) + [tags[i]];
      WritesSnoc(head + tags[..i], tags[i]);
      sp.SetTag(tags[i].key, tags[i].value);
      i := i + 1;
    }
    assert tags[..|tags|] == tags;
    WritesSnoc(head + tags, Tag(GoroutinesKey, IntValue(goroutines)));
    sp.SetTag(GoroutinesKey, IntValue(goroutines));
  }

  /** A server span for GET /users/42 finished with status 404: the
      status-code tag is the last write and Finish comes after it. */
  method HTTPScenario()
  {
    var r := Request("GET", "http://localhost/users/42", Context(0, None));
    var sp, r', logged := HTTPSpan("/users/42", r, Extraction(None, Some(SpanContextNotFound)), 7, SpanContext(1));
    assert !logged && sp.references == [] && sp.kind == Some(Server);
    assert sp.operationName == "GET /users/42";
    FinishHTTPSpan(sp, 404);
    Uint16KeepsSmallCodes(404);
    assert |sp.log| == 6;
    assert sp.log[4] == Tagged(Tag(HTTPStatusCodeKey, Uint16Value(404)));
    assert sp.log[5] == Finished && r'.ctx.span == Some(sp);
  }
}
