/** Handler discovery: the candidate filter over the component's static methods, the lookup by
    `senderTypeName + "_" + eventName`, and its memo
    (src/Umbraco.Web/Cache/CacheRefresherComponent.cs, lines 28 and 181-208). */
module Registry {
  import opened Wrappers
  import opened Names
  import opened Events
  import opened Routing

  /** The declared type of a method parameter, as far as the filter looks at it. */
  datatype ParamType =
    /** The sender parameter of a routing routine (a service interface or entity type). */
    | SenderParam
    /** A parameter whose type is an event-args type, hence assignable to `EventArgs`. */
    | ArgsParam(argsType: ArgsType)
    /** Any other parameter type. */
    | OtherParam

  /** What a static method does when invoked: run a routing routine, or something else. */
  datatype Body = Routes(routine: Routine) | OtherBody

  /** A `MethodInfo`: name, parameter types, and body. */
  datatype MethodInfo = MethodInfo(name: string, parameters: seq<ParamType>, body: Body)

  /** The `MethodInfo` of a routing routine. */
  function MethodOf(r: Routine): (m: MethodInfo)
    ensures m.body == Routes(r)
    ensures m.name == Name(r)
  {
    MethodInfo(Name(r), [SenderParam, ArgsParam(ParameterType(r))], Routes(r))
  }

  /** The `MethodInfo`s of all routines, in declaration order. */
  function RoutineMethods(rs: seq<Routine>): (ms: seq<MethodInfo>)
    ensures |ms| == |rs|
    ensures forall i :: 0 <= i < |rs| ==> ms[i] == MethodOf(rs[i])
  {
    if |rs| == 0 then [] else [MethodOf(rs[0])] + RoutineMethods(rs[1..])
  }

  /** `FindHandler(IEventDefinition)` and `HandleEvents(IEnumerable<IEventDefinition>)`, the
      other static methods the reflection scan sees. */
  const FindHandlerMethod: MethodInfo := MethodInfo("FindHandler", [OtherParam], OtherBody)
  const HandleEventsMethod: MethodInfo := MethodInfo("HandleEvents", [OtherParam], OtherBody)

  /** What the reflection scan over the component's static methods returns: the routines in
      declaration order, and the two helpers, listed last here. The helpers' position does not
      matter, because the filter drops them. */
  function StaticMethods(): (ms: seq<MethodInfo>)
    ensures |ms| == RoutineCount + 2
    ensures forall i :: 0 <= i < RoutineCount ==> ms[i] == MethodOf(DeclaredAt(i))
    ensures ms[RoutineCount] == FindHandlerMethod && ms[RoutineCount + 1] == HandleEventsMethod
  {
    RoutineMethods(AllRoutines) + [FindHandlerMethod, HandleEventsMethod]
  }

  /** The filter of the `CandidateHandlers` scan: an underscore in the name, two pieces when
      split on it, and an event-args type as the second of two parameters. The first test adds
      nothing: a name that splits into two pieces has an underscore. */
  predicate IsCandidate(m: MethodInfo)
    ensures IsCandidate(m) <==>
      |Split(m.name, Underscore)| == 2 && |m.parameters| == 2 && m.parameters[1].ArgsParam?
  {
    Underscore in m.name
    && |Split(m.name, Underscore)| == 2
    && |m.parameters| == 2
    && m.parameters[1].ArgsParam?
  }

  /** The methods the scan keeps, in the order it met them. */
  function CandidateHandlers(ms: seq<MethodInfo>): (cs: seq<MethodInfo>)
    ensures forall m :: m in cs <==> m in ms && IsCandidate(m)
    ensures |cs| <= |ms|
  {
    if |ms| == 0 then []
    else (if IsCandidate(ms[0]) then [ms[0]] else []) + CandidateHandlers(ms[1..])
  }

  /** The scan keeps the relative order of the methods it keeps. */
  lemma {:induction false} CandidateHandlersAppend(a: seq<MethodInfo>, b: seq<MethodInfo>)
    ensures CandidateHandlers(a + b) == CandidateHandlers(a) + CandidateHandlers(b)
  {
    if |a| == 0 {
      assert a + b == b;
    } else {
      assert (a + b)[1..] == a[1..] + b;
      CandidateHandlersAppend(a[1..], b);
    }
  }

  /** The first candidate whose name is `name`, if any: LINQ's `FirstOrDefault` on the name. */
  function FirstNamed(cs: seq<MethodInfo>, name: string): (found: Option<MethodInfo>)
    ensures found.None? <==> forall i :: 0 <= i < |cs| ==> cs[i].name != name
    ensures found.Some? ==>
      exists k :: (0 <= k < |cs| && cs[k] == found.value
                   && cs[k].name == name && forall j :: 0 <= j < k ==> cs[j].name != name)
  {
    if |cs| == 0 then None
    else if cs[0].name == name then Some(cs[0])
    else
      var rest := FirstNamed(cs[1..], name);
      assert forall i :: 1 <= i < |cs| ==> cs[i] == cs[1..][i - 1];
      if rest.Some? then
        var k :| 0 <= k < |cs[1..]| && cs[1..][k] == rest.value
          && cs[1..][k].name == name && forall j :: 0 <= j < k ==> cs[1..][j].name != name;
        assert cs[k + 1] == rest.value;
        rest
      else rest
  }

  /** The name a definition is looked up by. */
  function HandlerKey(e: EventDefinition): string {
    e.sender.typeName + "_" + e.eventName
  }

  /** The memo `FoundHandlers`: one answer per event definition seen, a "none" included. */
  type Memo = map<EventDefinition, Option<MethodInfo>>

  /** Every memoised answer is the one a fresh lookup would give. */
  ghost predicate MemoSound(memo: Memo, cs: seq<MethodInfo>) {
    forall e :: e in memo ==> memo[e] == FirstNamed(cs, HandlerKey(e))
  }

  /** `FindHandler`: `GetOrAdd` on the memo with a first-match lookup in the candidates. */
  function FindHandler(memo: Memo, cs: seq<MethodInfo>, e: EventDefinition)
    : (res: (Option<MethodInfo>, Memo))
    ensures e in res.1 && res.1[e] == res.0
    ensures e in memo ==> res == (memo[e], memo)
    ensures e !in memo ==> res.0 == FirstNamed(cs, HandlerKey(e)) && res.1 == memo[e := res.0]
    ensures MemoSound(memo, cs) ==> MemoSound(res.1, cs) && res.0 == FirstNamed(cs, HandlerKey(e))
  {
    if e in memo then (memo[e], memo)
    else
      var found := FirstNamed(cs, HandlerKey(e));
      (found, memo[e := found])
  }

  /** Asking again with the same definition gives the same answer and leaves the memo alone,
      a memoised "none" included. */
  lemma FindHandlerIsStable(memo: Memo, cs: seq<MethodInfo>, e: EventDefinition)
    ensures var (h, memo') := FindHandler(memo, cs, e);
      FindHandler(memo', cs, e) == (h, memo')
  {
  }

  /** Two definitions with the same sender type and event name resolve alike, whatever their
      arguments and whatever was memoised before. */
  lemma SameShapeSameHandler(memo1: Memo, memo2: Memo, cs: seq<MethodInfo>,
                             e1: EventDefinition, e2: EventDefinition)
    requires MemoSound(memo1, cs) && MemoSound(memo2, cs)
    requires e1.sender.typeName == e2.sender.typeName && e1.eventName == e2.eventName
    ensures FindHandler(memo1, cs, e1).0 == FindHandler(memo2, cs, e2).0
  {
    assert HandlerKey(e1) == HandlerKey(e2);
  }

  // ---------------------------------------------------------------------------------------
  // The candidates of this component.

  /** Both halves of every routine name are non-empty and free of underscores. */
  lemma RoutineNamePartsArePieces(r: Routine)
    ensures IsPiece(NameParts(r).0, Underscore) && IsPiece(NameParts(r).1, Underscore)
  {
  }

  /** Every routing routine passes the filter. */
  lemma RoutinesAreCandidates(r: Routine)
    ensures IsCandidate(MethodOf(r))
  {
    RoutineNamePartsArePieces(r);
    SplitTwoPieces(NameParts(r).0, NameParts(r).1);
    TwoPiecesNeedSeparator(Name(r), Underscore);
  }

  /** The scan keeps exactly the routing routines, in declaration order. */
  lemma CandidatesAreTheRoutines()
    ensures CandidateHandlers(StaticMethods()) == RoutineMethods(AllRoutines)
  {
    RoutinesThenHelpers(AllRoutines);
  }

  /** Behind any list of routines, the two helpers are dropped and the routines kept. */
  lemma RoutinesThenHelpers(rs: seq<Routine>)
    ensures CandidateHandlers(RoutineMethods(rs) + [FindHandlerMethod, HandleEventsMethod])
         == RoutineMethods(rs)
  {
    var rms := RoutineMethods(rs);
    forall m | m in rms ensures IsCandidate(m) {
      var i :| 0 <= i < |rms| && rms[i] == m;
      RoutinesAreCandidates(rs[i]);
    }
    AllCandidatesKept(rms);
    HelpersAreNotCandidates();
    CandidateHandlersAppend(rms, [FindHandlerMethod, HandleEventsMethod]);
  }

  /** `FindHandler` and `HandleEvents` take one parameter, so the scan drops them. */
  lemma HelpersAreNotCandidates()
    ensures CandidateHandlers([FindHandlerMethod, HandleEventsMethod]) == []
  {
    var helpers := [FindHandlerMethod, HandleEventsMethod];
    assert !IsCandidate(FindHandlerMethod) by { assert |FindHandlerMethod.parameters| == 1; }
    assert !IsCandidate(HandleEventsMethod) by { assert |HandleEventsMethod.parameters| == 1; }
    assert helpers[1..] == [HandleEventsMethod];
    assert [HandleEventsMethod][1..] == [];
  }

  /** A list whose every element passes the filter comes through unchanged. */
  lemma {:induction false} AllCandidatesKept(ms: seq<MethodInfo>)
    requires forall m :: m in ms ==> IsCandidate(m)
    ensures CandidateHandlers(ms) == ms
  {
    if |ms| > 0 {
      assert ms[0] in ms;
      assert forall m :: m in ms[1..] ==> m in ms;
      AllCandidatesKept(ms[1..]);
      assert ms == [ms[0]] + ms[1..];
    }
  }

  // ---------------------------------------------------------------------------------------
  // Looking up definitions by sender type and event name.

  /** The candidate handlers of this component. */
  function Candidates(): seq<MethodInfo> {
    CandidateHandlers(StaticMethods())
  }

  /** The lookup key is a routine's name exactly when the sender type name and the event
      name are the routine's two name parts. This holds for every sender type name and event
      name, those containing underscores or empty included: a routine name has exactly one
      underscore, between two non-empty halves. */
  lemma KeyMatchesName(e: EventDefinition, r: Routine)
    ensures HandlerKey(e) == Name(r) <==> NameParts(r) == (e.sender.typeName, e.eventName)
  {
    RoutineNamePartsArePieces(r);
    assert "_" == [Underscore];
    FirstSeparatorDecides(e.sender.typeName, e.eventName, NameParts(r).0, NameParts(r).1, Underscore);
  }

  /** A definition resolves exactly when some routine is named after its sender type and
      event name, and then to such a routine. */
  lemma ResolvesByNameParts(e: EventDefinition)
    ensures FirstNamed(Candidates(), HandlerKey(e)).Some? <==>
      exists i :: 0 <= i < |AllRoutines| && NameParts(AllRoutines[i]) == (e.sender.typeName, e.eventName)
    ensures FirstNamed(Candidates(), HandlerKey(e)).Some? ==>
      var m := FirstNamed(Candidates(), HandlerKey(e)).value;
      m.body.Routes? && NameParts(m.body.routine) == (e.sender.typeName, e.eventName)
  {
    CandidatesAreTheRoutines();
    ResolvesAmong(AllRoutines, e);
  }

  /** `ResolvesByNameParts` over the methods of any list of routines. */
  lemma ResolvesAmong(rs: seq<Routine>, e: EventDefinition)
    ensures FirstNamed(RoutineMethods(rs), HandlerKey(e)).Some? <==>
      exists i :: 0 <= i < |rs| && NameParts(rs[i]) == (e.sender.typeName, e.eventName)
    ensures FirstNamed(RoutineMethods(rs), HandlerKey(e)).Some? ==>
      var m := FirstNamed(RoutineMethods(rs), HandlerKey(e)).value;
      m.body.Routes? && NameParts(m.body.routine) == (e.sender.typeName, e.eventName)
  {
    var cs := RoutineMethods(rs);
    var key, parts := HandlerKey(e), (e.sender.typeName, e.eventName);
    forall i | 0 <= i < |cs| ensures cs[i].name == key <==> NameParts(rs[i]) == parts {
      KeyMatchesName(e, rs[i]);
    }
    var found := FirstNamed(cs, key);
    if found.Some? {
      var k :| 0 <= k < |cs| && cs[k] == found.value && cs[k].name == key;
      assert cs[k] == MethodOf(rs[k]);
      assert NameParts(rs[k]) == parts;
    } else {
      forall i | 0 <= i < |rs| ensures NameParts(rs[i]) != parts {
        assert cs[i].name != key;
      }
    }
  }

  /** No routine is named after a `TreeChanged` event, nor after the media and member type
      services: their definitions resolve to no handler, and dispatch skips them. */
  lemma UnnamedEventsAreUnresolved(e: EventDefinition)
    requires e.eventName == "TreeChanged"
          || e.sender.typeName == "MediaTypeService" || e.sender.typeName == "MemberTypeService"
    ensures FirstNamed(Candidates(), HandlerKey(e)) == None
  {
    ResolvesByNameParts(e);
    forall r: Routine ensures NameParts(r) != (e.sender.typeName, e.eventName) {
      NoRoutineHandlesTreeChanged(r);
      NoRoutineHandlesTypeServices(r);
    }
  }

  /** No routine name ends in `TreeChanged`. */
  lemma NoRoutineHandlesTreeChanged(r: Routine)
    ensures NameParts(r).1 != "TreeChanged"
  {
  }

  /** No routine name starts with the media or member type service. */
  lemma NoRoutineHandlesTypeServices(r: Routine)
    ensures NameParts(r).0 != "MediaTypeService" && NameParts(r).0 != "MemberTypeService"
  {
  }
}
