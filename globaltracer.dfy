/** The process-wide tracer slot of package `internal` and its no-op backend.

    The values of the tracing.Tracer, tracing.Span and tracing.SpanContext
    interfaces are modelled as sum types: the no-op implementation, or some
    other implementation known only by an identity.  The registry is a class
    whose one slot is updated in place; a ghost event log records every call
    to Stop it makes, in order with the installations. */
module GlobalTracer {
  import opened Wrappers

  /** A value of the tracing.Tracer interface. */
  datatype Tracer = NoopTracer | OpaqueTracer(id: nat)

  /** A value of the tracing.Span interface. */
  datatype Span = NoopSpan | OpaqueSpan(id: nat)

  /** A value of the tracing.SpanContext interface. */
  datatype SpanContext = NoopSpanContext | OpaqueSpanContext(id: nat)

  /** What Extract returns: a span context and an error that may be nil. */
  datatype Extracted = Extracted(context: SpanContext, err: Option<Error>)

  /** Start options, carriers and tag values: opaque arguments the no-op
      backend never looks at. */
  type Untyped = nat

  /** The state-changing calls a tracing.Span accepts. */
  datatype SpanWrite =
    | SetTag(key: string, value: Untyped)
    | SetOperationName(operationName: string)
    | SetBaggageItem(key: string, item: string)
    | Finish

  // ---------------------------------------------------------------------
  // The no-op backend.  Its methods have value receivers and no fields, so
  // every one of them is a constant whatever its arguments.
  // ---------------------------------------------------------------------

  /** NoopTracer.StartSpan: a no-op span for every name and every option. */
  function NoopStartSpan(operationName: string, opts: seq<Untyped>): (sp: Span)
    ensures sp == NoopSpan
  {
    NoopSpan
  }

  /** NoopTracer.Extract: an empty context and a nil error, for any carrier;
      it never reports "span context not found". */
  function NoopExtract(carrier: Untyped): (r: Extracted)
    ensures r.context == NoopSpanContext
    ensures r.err == None
  {
    Extracted(NoopSpanContext, None)
  }

  /** NoopTracer.Inject: a nil error, for any context and carrier. */
  function NoopInject(context: SpanContext, carrier: Untyped): (err: Option<Error>)
    ensures err == None
  {
    None
  }

  /** NoopSpan's setters and Finish have no effect: the span a caller holds
      after any of them is still the stateless no-op span. */
  function NoopSpanAfter(write: SpanWrite): (sp: Span)
    ensures sp == NoopSpan
  {
    NoopSpan
  }

  /** NoopSpan.BaggageItem: the empty string for every key. */
  function NoopBaggageItem(key: string): (item: string)
    ensures item == ""
  {
    ""
  }

  /** NoopSpan.Tracer: a no-op tracer. */
  function NoopSpanTracer(): (t: Tracer)
    ensures t == NoopTracer
  {
    NoopTracer
  }

  /** NoopSpan.Context: a no-op span context. */
  function NoopSpanContextOf(): (c: SpanContext)
    ensures c == NoopSpanContext
  {
    NoopSpanContext
  }

  /** NoopSpanContext.SpanID and TraceID are both 0. */
  function NoopSpanID(): (id: nat)
    ensures id == 0
  {
    0
  }

  function NoopTraceID(): (id: nat)
    ensures id == 0
  {
    0
  }

  /** NoopSpanContext.ForeachBaggageItem: the sequence of (key, value) pairs
      the handler is called with is empty. */
  function NoopForeachBaggageItem(): (visited: seq<(string, string)>)
    ensures visited == []
  {
    []
  }

  // ---------------------------------------------------------------------
  // The registry, specified on values.
  // ---------------------------------------------------------------------

  /** What the registry does to tracers, in order: Stop called on a tracer,
      or a tracer installed in the slot. */
  datatype Event = Stopped(tracer: Tracer) | Installed(tracer: Tracer)

  /** The registry's abstract state: the active tracer, the Testing flag and
      the log of everything it has done. */
  datatype RegistryState = RegistryState(active: Tracer, testing: bool, events: seq<Event>)

  /** The state at process start: the no-op tracer is active. */
  const Initial := RegistryState(NoopTracer, false, [])

  /** The tracers Stop was called on, in call order. */
  function Stops(events: seq<Event>): seq<Tracer>
  {
    if events == [] then []
    else
      var last := events[|events| - 1];
      Stops(events[..|events| - 1]) + (if last.Stopped? then [last.tracer] else [])
  }

  /** How many times Stop was called on t. */
  function StopCount(events: seq<Event>, t: Tracer): nat
  {
    multiset(Stops(events))[t]
  }

  lemma {:induction false} StopsAppend(a: seq<Event>, b: seq<Event>)
    ensures Stops(a + b) == Stops(a) + Stops(b)
    decreases |b|
  {
    if b == [] {
      assert a + b == a;
    } else {
      var b' := b[..|b| - 1];
      assert (a + b)[..|a + b| - 1] == a + b';
      StopsAppend(a, b');
    }
  }

  /** SetGlobalTracer on values: unless Testing is set, Stop the tracer
      that was active, then install t. */
  function Set(s: RegistryState, t: Tracer): (r: RegistryState)
    ensures r.active == t && r.testing == s.testing
    ensures |r.events| > |s.events| && r.events[..|s.events|] == s.events
    ensures r.events[|r.events| - 1] == Installed(t)
    ensures Stops(r.events) == Stops(s.events) + (if s.testing then [] else [s.active])
  {
    var stop := if s.testing then [] else [Stopped(s.active)];
    StopsAppend(s.events, stop + [Installed(t)]);
    StopsAppend(stop, [Installed(t)]);
    RegistryState(t, s.testing, s.events + stop + [Installed(t)])
  }

  /** A run of SetGlobalTracer calls, first to last. */
  function SetAll(s: RegistryState, ts: seq<Tracer>): (r: RegistryState)
    ensures r.testing == s.testing
    ensures |ts| > 0 ==> r.active == ts[|ts| - 1]
    ensures |ts| == 0 ==> r == s
  {
    if ts == [] then s else Set(SetAll(s, ts[..|ts| - 1]), ts[|ts| - 1])
  }

  /** Outside testing, one Set calls Stop exactly once, on the tracer that
      was active; the event log places that call before the installation.
      No other tracer's count moves, the argument's included when it was not
      the active one.  In testing mode, no tracer's count moves. */
  lemma SetStopsPreviousOnly(s: RegistryState, t: Tracer, u: Tracer)
    ensures StopCount(Set(s, t).events, u)
         == StopCount(s.events, u) + (if !s.testing && u == s.active then 1 else 0)
    ensures !s.testing ==> Set(s, t).events == s.events + [Stopped(s.active), Installed(t)]
    ensures s.testing ==> Set(s, t).events == s.events + [Installed(t)]
  {
  }

  /** Over any run of Sets outside testing, the tracers stopped are exactly
      the ones each Set replaced: the one active before the run, then every
      argument but the last.  In testing mode nothing is stopped. */
  lemma {:induction false} SetAllStopsReplaced(s: RegistryState, ts: seq<Tracer>)
    ensures !s.testing ==> Stops(SetAll(s, ts).events) == Stops(s.events) + ([s.active] + ts)[..|ts|]
    ensures s.testing ==> Stops(SetAll(s, ts).events) == Stops(s.events)
    decreases |ts|
  {
    if ts != [] {
      var ts' := ts[..|ts| - 1];
      SetAllStopsReplaced(s, ts');
      var mid := SetAll(s, ts');
      if !s.testing {
        assert mid.active == ([s.active] + ts)[|ts| - 1];
        assert ([s.active] + ts)[..|ts|] == ([s.active] + ts')[..|ts'|] + [mid.active];
      }
    }
  }

  /** Set(A) then Set(B) outside testing stops A once for the second call,
      plus once for the first if A was already active; in testing mode it
      stops nothing. */
  lemma SetTwiceStopsFirstOnce(s: RegistryState, a: Tracer, b: Tracer)
    ensures !s.testing ==>
      StopCount(Set(Set(s, a), b).events, a)
        == StopCount(s.events, a) + 1 + (if s.active == a then 1 else 0)
    ensures s.testing ==>
      forall u :: StopCount(Set(Set(s, a), b).events, u) == StopCount(s.events, u)
  {
  }

  // ---------------------------------------------------------------------
  // The registry as the package holds it: one slot updated in place.
  // ---------------------------------------------------------------------

  class Registry {
    /** The active tracer (the package variable globalTracer). */
    var globalTracer: Tracer
    /** The package variable Testing: set while a mock tracer is active. */
    var testing: bool
    /** Every Stop call and installation the registry has made. */
    ghost var events: seq<Event>

    ghost function State(): RegistryState
      reads this
    {
      RegistryState(globalTracer, testing, events)
    }

    /** Package initialisation: the no-op tracer is active, Testing is off. */
    constructor ()
      ensures State() == Initial
    {
      globalTracer := NoopTracer;
      testing := false;
      events := [];
    }

    /** SetGlobalTracer: Stop the tracer being replaced unless Testing is
        set, then install t.  Stop is a logged call that returns and has no
        other effect; the mutex is not modelled. */
    method SetGlobalTracer(t: Tracer)
      modifies this
      ensures State() == Set(old(State()), t)
    {
      if !testing {
        events := events + [Stopped(globalTracer)];
      }
      globalTracer := t;
      events := events + [Installed(t)];
    }

    /** GetGlobalTracer: the tracer most recently installed; changes nothing. */
    method GetGlobalTracer() returns (t: Tracer)
      ensures t == globalTracer
    {
      t := globalTracer;
    }

    /** An assignment to the Testing variable. */
    method SetTesting(on: bool)
      modifies this
      ensures testing == on
      ensures globalTracer == old(globalTracer) && events == old(events)
    {
      testing := on;
    }
  }

  /** A freshly initialised registry hands out the no-op tracer, and what it
      starts is a span on which Finish has no effect. */
  method DefaultSafetyScenario()
  {
    var registry := new Registry();
    var t := registry.GetGlobalTracer();
    assert t == NoopTracer;
    var sp := NoopStartSpan("op", []);
    assert NoopSpanAfter(Finish) == sp;
    registry.SetGlobalTracer(OpaqueTracer(1));
    registry.SetGlobalTracer(OpaqueTracer(2));
    t := registry.GetGlobalTracer();
    assert t == OpaqueTracer(2);
    SetAllStopsReplaced(Initial, [OpaqueTracer(1), OpaqueTracer(2)]);
    assert registry.State() == SetAll(Initial, [OpaqueTracer(1), OpaqueTracer(2)]);
    assert Stops(registry.events) == [NoopTracer, OpaqueTracer(1)];
  }
}
