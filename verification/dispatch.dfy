/** `HandleEvents`: resolve each queued event definition to its handler and invoke it
    (src/Umbraco.Web/Cache/CacheRefresherComponent.cs, lines 210-219). */
module Dispatch {
  import opened Wrappers
  import opened Names
  import opened Events
  import opened CacheActions
  import opened Routing
  import opened Registry

  /** One reflective call of a handler, given the event's sender and arguments. */
  datatype Invocation = Invocation(handler: MethodInfo, event: EventDefinition)

  /** What dispatching has done so far: the handlers invoked, the calls they made on the cache
      facility, and the exception that stopped it, if any. Calls made before an exception stay
      made: the facility is a sink. */
  datatype Dispatched = Dispatched(invocations: seq<Invocation>, actions: seq<CacheAction>,
                                   failure: Option<Failure>)

  const Nothing: Dispatched := Dispatched([], [], None)

  /** `MethodInfo.Invoke` on a handler: the routine runs when its second parameter accepts the
      arguments, and the call throws otherwise. */
  function Invoke(m: MethodInfo, e: EventDefinition): (res: Result<seq<CacheAction>, Failure>)
    ensures m.body.Routes? && Accepts(ParameterType(m.body.routine), e.args) ==>
      res == Ok(Route(m.body.routine, e.args))
    ensures m.body.Routes? && !Accepts(ParameterType(m.body.routine), e.args) ==>
      res == Err(ArgumentMismatch(m.name))
    ensures m.body.OtherBody? ==> res.Err?
  {
    match m.body
    case OtherBody => Err(NotARoutine(m.name))
    case Routes(r) =>
      if Accepts(ParameterType(r), e.args) then Ok(Route(r, e.args)) else Err(ArgumentMismatch(m.name))
  }

  /** The effect of one event, given the handler found for it, on what dispatching has done:
      nothing once an exception was raised, nothing when no handler was found, otherwise one
      invocation whose calls are appended or whose exception is recorded. */
  function Apply(d: Dispatched, handler: Option<MethodInfo>, e: EventDefinition): Dispatched {
    if d.failure.Some? then d
    else
      match handler
      case None => d
      case Some(m) =>
        var called := d.(invocations := d.invocations + [Invocation(m, e)]);
        match Invoke(m, e)
        case Ok(actions) => called.(actions := d.actions + actions)
        case Err(f) => called.(failure := Some(f))
  }

  /** One event, resolved afresh. */
  function Step(d: Dispatched, cs: seq<MethodInfo>, e: EventDefinition): Dispatched {
    Apply(d, FirstNamed(cs, HandlerKey(e)), e)
  }

  /** The invocations are for events taken from `events` in order, each occurrence at most once:
      the invocations' events form a subsequence of `events`. */
  predicate InvokedInOrder(invs: seq<Invocation>, events: seq<EventDefinition>)
    decreases |events|
  {
    |invs| == 0
    || (|events| > 0
        && ((invs[|invs| - 1].event == events[|events| - 1]
             && InvokedInOrder(invs[..|invs| - 1], events[..|events| - 1]))
            || InvokedInOrder(invs, events[..|events| - 1])))
  }

  /** Being invoked in order means each invocation k is for the event at some index of `events`,
      and these indices strictly increase with k. */
  lemma {:induction false} InOrderIndices(invs: seq<Invocation>, events: seq<EventDefinition>)
    returns (idx: seq<nat>)
    requires InvokedInOrder(invs, events)
    ensures |idx| == |invs|
    ensures forall k :: 0 <= k < |idx| ==> idx[k] < |events| && events[idx[k]] == invs[k].event
    ensures forall k, l :: 0 <= k < l < |idx| ==> idx[k] < idx[l]
    decreases |events|
  {
    if |invs| == 0 {
      idx := [];
    } else if invs[|invs| - 1].event == events[|events| - 1]
              && InvokedInOrder(invs[..|invs| - 1], events[..|events| - 1]) {
      var front := InOrderIndices(invs[..|invs| - 1], events[..|events| - 1]);
      idx := front + [|events| - 1];
    } else {
      idx := InOrderIndices(invs, events[..|events| - 1]);
    }
  }

  /** Reference semantics of `HandleEvents`: the events, in order, each resolved afresh. */
  function Run(cs: seq<MethodInfo>, events: seq<EventDefinition>): (d: Dispatched)
    ensures |d.invocations| <= |events|
    ensures forall k :: 0 <= k < |d.invocations| ==> d.invocations[k].event in events
    decreases |events|
  {
    if |events| == 0 then Nothing
    else Step(Run(cs, events[..|events| - 1]), cs, events[|events| - 1])
  }

  /** Events are invoked in order, each occurrence at most once. */
  lemma {:induction false} RunInvokesInOrder(cs: seq<MethodInfo>, events: seq<EventDefinition>)
    ensures InvokedInOrder(Run(cs, events).invocations, events)
    decreases |events|
  {
    if |events| > 0 {
      RunInvokesInOrder(cs, events[..|events| - 1]);
    }
  }

  /** The foreach loop of `HandleEvents`, looking handlers up through the memo. */
  method HandleEvents(memo: Memo, cs: seq<MethodInfo>, events: seq<EventDefinition>)
    returns (d: Dispatched, memo': Memo)
    requires MemoSound(memo, cs)
    ensures d == Run(cs, events)
    ensures MemoSound(memo', cs)
    ensures memo.Keys <= memo'.Keys
    ensures d.failure.None? ==> Memoised(memo', events)
  {
    d := Nothing;
    memo' := memo;
    var i := 0;
    while i < |events|
      invariant 0 <= i <= |events|
      invariant MemoSound(memo', cs) && memo.Keys <= memo'.Keys
      invariant Memoised(memo', events[..i])
      invariant d == Run(cs, events[..i])
      invariant d.failure.None?
    {
      var e := events[i];
      RunSnoc(cs, events, i);
      var found := FindHandler(memo', cs, e);
      MemoisedSnoc(memo', found.1, events, i);
      memo' := found.1;
      assert found.0 == FirstNamed(cs, HandlerKey(e));
      d := Apply(d, found.0, e);
      assert d == Run(cs, events[..i + 1]);
      if d.failure.Some? {
        StoppedRun(cs, events, i + 1);
        return;
      }
      i := i + 1;
    }
    assert events[..i] == events;
  }

  /** A run stopped by an exception at some prefix of the events stays as it was then. */
  lemma StoppedRun(cs: seq<MethodInfo>, events: seq<EventDefinition>, i: nat)
    requires i <= |events| && Run(cs, events[..i]).failure.Some?
    ensures Run(cs, events) == Run(cs, events[..i])
  {
    var done, rest := events[..i], events[i..];
    assert done + rest == events;
    FailureIsFinal(cs, done, rest);
  }

  /** Every one of the events has an entry in the memo. */
  ghost predicate Memoised(memo: Memo, events: seq<EventDefinition>) {
    forall e :: e in events ==> e in memo
  }

  /** Memoising the next event extends what is memoised to one more event. */
  lemma MemoisedSnoc(memo: Memo, memo': Memo, events: seq<EventDefinition>, i: nat)
    requires i < |events| && Memoised(memo, events[..i])
    requires memo.Keys <= memo'.Keys && events[i] in memo'
    ensures Memoised(memo', events[..i + 1])
  {
    assert events[..i + 1] == events[..i] + [events[i]];
  }

  /** One more event is one more step. */
  lemma RunSnoc(cs: seq<MethodInfo>, events: seq<EventDefinition>, i: nat)
    requires i < |events|
    ensures Run(cs, events[..i + 1]) == Step(Run(cs, events[..i]), cs, events[i])
  {
    assert events[..i + 1][..i] == events[..i];
  }

  // ---------------------------------------------------------------------------------------
  // Properties of dispatch.

  /** Once an exception was raised, later events are neither resolved nor invoked. */
  lemma {:induction false} FailureIsFinal(cs: seq<MethodInfo>, a: seq<EventDefinition>,
                                          b: seq<EventDefinition>)
    requires Run(cs, a).failure.Some?
    ensures Run(cs, a + b) == Run(cs, a)
    decreases |b|
  {
    if |b| > 0 {
      var init := b[..|b| - 1];
      assert (a + b)[..|a + b| - 1] == a + init;
      FailureIsFinal(cs, a, init);
    } else {
      assert a + b == a;
    }
  }

  /** Events are handled in order: what a prefix of the events did is a prefix of what all of
      them do, and an exception raised by the prefix is the one reported. */
  lemma {:induction false} RunExtends(cs: seq<MethodInfo>, a: seq<EventDefinition>,
                                      b: seq<EventDefinition>)
    ensures Run(cs, a).invocations <= Run(cs, a + b).invocations
    ensures Run(cs, a).actions <= Run(cs, a + b).actions
    ensures Run(cs, a).failure.Some? ==> Run(cs, a + b).failure == Run(cs, a).failure
    decreases |b|
  {
    if |b| > 0 {
      var init := b[..|b| - 1];
      assert (a + b)[..|a + b| - 1] == a + init;
      RunExtends(cs, a, init);
    } else {
      assert a + b == a;
    }
  }

  /** The handler a definition resolves to, if any. */
  predicate HasHandler(cs: seq<MethodInfo>, e: EventDefinition) {
    FirstNamed(cs, HandlerKey(e)).Some?
  }

  /** The invocations dispatch makes when nothing throws: each event with a handler, once, in
      order. */
  function Handled(cs: seq<MethodInfo>, events: seq<EventDefinition>): seq<Invocation>
    decreases |events|
  {
    if |events| == 0 then []
    else
      var e := events[|events| - 1];
      Handled(cs, events[..|events| - 1])
      + (if HasHandler(cs, e) then [Invocation(FirstNamed(cs, HandlerKey(e)).value, e)] else [])
  }

  /** Each event with a handler is invoked exactly once, in order, and the others not at all. */
  lemma {:induction false} EachHandledEventInvokedOnce(cs: seq<MethodInfo>, events: seq<EventDefinition>)
    requires Run(cs, events).failure.None?
    ensures Run(cs, events).invocations == Handled(cs, events)
    decreases |events|
  {
    if |events| > 0 {
      EachHandledEventInvokedOnce(cs, events[..|events| - 1]);
    }
  }

  /** Dropping the events that have no handler changes nothing: they make no cache calls and
      raise no exception. */
  lemma {:induction false} UnknownEventsAreIgnored(cs: seq<MethodInfo>, events: seq<EventDefinition>)
    ensures Run(cs, events) == Run(cs, Known(cs, events))
    decreases |events|
  {
    if |events| > 0 {
      var init := events[..|events| - 1];
      var e := events[|events| - 1];
      UnknownEventsAreIgnored(cs, init);
      if HasHandler(cs, e) {
        var k := Known(cs, init);
        assert Known(cs, events) == k + [e];
        assert (k + [e])[..|k|] == k;
        assert Run(cs, k + [e]) == Step(Run(cs, k), cs, e);
      } else {
        assert Known(cs, events) == Known(cs, init);
      }
    }
  }

  /** The events that have a handler, in order. */
  function Known(cs: seq<MethodInfo>, events: seq<EventDefinition>): (known: seq<EventDefinition>)
    ensures forall k :: 0 <= k < |known| ==> HasHandler(cs, known[k])
    decreases |events|
  {
    if |events| == 0 then []
    else
      var e := events[|events| - 1];
      Known(cs, events[..|events| - 1]) + (if HasHandler(cs, e) then [e] else [])
  }

  /** A single event with no handler makes no call and raises nothing. */
  lemma UnknownEventDoesNothing(cs: seq<MethodInfo>, e: EventDefinition)
    requires !HasHandler(cs, e)
    ensures Run(cs, [e]) == Nothing
  {
    assert [e][..0] == [];
  }

  /** A resolved event whose arguments fit its handler makes exactly the handler's routine's
      calls; arguments of another type make the invocation throw. */
  lemma ResolvedEventRunsItsRoutine(cs: seq<MethodInfo>, e: EventDefinition, m: MethodInfo, r: Routine)
    requires FirstNamed(cs, HandlerKey(e)) == Some(m) && m.body == Routes(r)
    ensures Accepts(ParameterType(r), e.args) ==>
      Run(cs, [e]) == Dispatched([Invocation(m, e)], Route(r, e.args), None)
    ensures !Accepts(ParameterType(r), e.args) ==>
      Run(cs, [e]) == Dispatched([Invocation(m, e)], [], Some(ArgumentMismatch(m.name)))
  {
    assert [e][..0] == [];
    if Accepts(ParameterType(r), e.args) {
      assert [] + Route(r, e.args) == Route(r, e.args);
    }
  }

  /** Definitions no routine is named after (the `TreeChanged` events, the media and member
      type services' events) are skipped by dispatch over this component's candidates. */
  lemma UnnamedEventsAreSkipped(e: EventDefinition)
    requires e.eventName == "TreeChanged"
          || e.sender.typeName == "MediaTypeService" || e.sender.typeName == "MemberTypeService"
    ensures Run(Candidates(), [e]) == Nothing
  {
    UnnamedEventsAreUnresolved(e);
    UnknownEventDoesNothing(Candidates(), e);
  }
}
