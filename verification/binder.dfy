/** The component's lifecycle: `Initialize` attaches one handler to each service event it
    listens to, and the test-only `Unbind` detaches them again
    (src/Umbraco.Web/Cache/CacheRefresherComponent.cs, lines 29-179).

    The services' events are static, so the handlers attached to them are shared state; here
    that state is an explicit value: the list of subscriptions in the order they were attached,
    as a multicast delegate keeps its invocation list. */
module Binder {
  import opened Wrappers
  import opened Routing
  import opened Sequences

  /** The services (and the one repository) whose static events the component listens to. */
  datatype Service =
    | ApplicationTreeService | SectionService | UserService | LocalizationService
    | DataTypeService | FileService | DomainService | ContentTypeService | MediaTypeService
    | MemberTypeService | PermissionRepository | MacroService | MemberService
    | MemberGroupService | MediaService | ContentService | PublicAccessService | RelationService

  /** The events those services raise, by name. */
  datatype ServiceEvent =
    | Deleted | Updated | New | Saved | Copied | Changed | TreeChanged
    | SavedUserType | DeletedUserType | SavedUser | DeletedUser
    | SavedDictionaryItem | DeletedDictionaryItem | SavedLanguage | DeletedLanguage
    | AssignedPermissions | SavedTemplate | DeletedTemplate
    | SavedStylesheet | DeletedStylesheet
    | SavedRelationType | DeletedRelationType

  /** A subscription: one handler attached to one event of one service. Attaching and detaching
      the same routine to the same event are the two halves of one `Bind` call. */
  datatype Subscription = Subscription(source: Service, event: ServiceEvent, handler: Routine)

  /** The `Bind` call of `Initialize` that attaches routine `r`: which event of which service
      it listens to. The three `ContentTypeService_Changed` overloads listen to the content,
      media and member type services; the two `*Service_Changed` routines of content and media
      listen to `TreeChanged`. */
  function BindingOf(r: Routine): (b: Subscription)
    ensures b.handler == r
  {
    match r
    case ApplicationTreeServiceDeleted => Subscription(ApplicationTreeService, Deleted, r)
    case ApplicationTreeServiceUpdated => Subscription(ApplicationTreeService, Updated, r)
    case ApplicationTreeServiceNew => Subscription(ApplicationTreeService, New, r)
    case SectionServiceDeleted => Subscription(SectionService, Deleted, r)
    case SectionServiceNew => Subscription(SectionService, New, r)
    case UserServiceSavedUserType => Subscription(UserService, SavedUserType, r)
    case UserServiceDeletedUserType => Subscription(UserService, DeletedUserType, r)
    case UserServiceSavedUser => Subscription(UserService, SavedUser, r)
    case UserServiceDeletedUser => Subscription(UserService, DeletedUser, r)
    case LocalizationServiceDeletedDictionaryItem => Subscription(LocalizationService, DeletedDictionaryItem, r)
    case LocalizationServiceSavedDictionaryItem => Subscription(LocalizationService, SavedDictionaryItem, r)
    case DataTypeServiceDeleted => Subscription(DataTypeService, Deleted, r)
    case DataTypeServiceSaved => Subscription(DataTypeService, Saved, r)
    case DomainServiceSaved => Subscription(DomainService, Saved, r)
    case DomainServiceDeleted => Subscription(DomainService, Deleted, r)
    case LocalizationServiceSavedLanguage => Subscription(LocalizationService, SavedLanguage, r)
    case LocalizationServiceDeletedLanguage => Subscription(LocalizationService, DeletedLanguage, r)
    case ContentTypeServiceChangedForContentTypes => Subscription(ContentTypeService, Changed, r)
    case ContentTypeServiceChangedForMediaTypes => Subscription(MediaTypeService, Changed, r)
    case ContentTypeServiceChangedForMemberTypes => Subscription(MemberTypeService, Changed, r)
    case PermissionRepositoryAssignedPermissions => Subscription(PermissionRepository, AssignedPermissions, r)
    case FileServiceSavedTemplate => Subscription(FileService, SavedTemplate, r)
    case FileServiceDeletedTemplate => Subscription(FileService, DeletedTemplate, r)
    case MacroServiceSaved => Subscription(MacroService, Saved, r)
    case MacroServiceDeleted => Subscription(MacroService, Deleted, r)
    case MemberServiceSaved => Subscription(MemberService, Saved, r)
    case MemberServiceDeleted => Subscription(MemberService, Deleted, r)
    case MemberGroupServiceSaved => Subscription(MemberGroupService, Saved, r)
    case MemberGroupServiceDeleted => Subscription(MemberGroupService, Deleted, r)
    case MediaServiceChanged => Subscription(MediaService, TreeChanged, r)
    case ContentServiceSaved => Subscription(ContentService, Saved, r)
    case ContentServiceCopied => Subscription(ContentService, Copied, r)
    case ContentServiceChanged => Subscription(ContentService, TreeChanged, r)
    case PublicAccessServiceSaved => Subscription(PublicAccessService, Saved, r)
    case PublicAccessServiceDeleted => Subscription(PublicAccessService, Deleted, r)
    case RelationServiceSavedRelationType => Subscription(RelationService, SavedRelationType, r)
    case RelationServiceDeletedRelationType => Subscription(RelationService, DeletedRelationType, r)
  }

  /** The routine attached by the `i`-th `Bind` call of `Initialize`. */
  function CallAt(i: nat): Routine
    requires i < 37
  {
    match i
    case 0 => ApplicationTreeServiceDeleted
    case 1 => ApplicationTreeServiceUpdated
    case 2 => ApplicationTreeServiceNew
    case 3 => SectionServiceDeleted
    case 4 => SectionServiceNew
    case 5 => UserServiceSavedUserType
    case 6 => UserServiceDeletedUserType
    case 7 => UserServiceSavedUser
    case 8 => UserServiceDeletedUser
    case 9 => LocalizationServiceDeletedDictionaryItem
    case 10 => LocalizationServiceSavedDictionaryItem
    case 11 => DataTypeServiceDeleted
    case 12 => DataTypeServiceSaved
    case 13 => DomainServiceSaved
    case 14 => DomainServiceDeleted
    case 15 => LocalizationServiceSavedLanguage
    case 16 => LocalizationServiceDeletedLanguage
    case 17 => ContentTypeServiceChangedForContentTypes
    case 18 => ContentTypeServiceChangedForMediaTypes
    case 19 => ContentTypeServiceChangedForMemberTypes
    case 20 => PermissionRepositoryAssignedPermissions
    case 21 => FileServiceSavedTemplate
    case 22 => FileServiceDeletedTemplate
    case 23 => MacroServiceSaved
    case 24 => MacroServiceDeleted
    case 25 => MemberServiceSaved
    case 26 => MemberServiceDeleted
    case 27 => MemberGroupServiceSaved
    case 28 => MemberGroupServiceDeleted
    case 29 => MediaServiceChanged
    case 30 => ContentServiceSaved
    case 31 => ContentServiceCopied
    case 32 => ContentServiceChanged
    case 33 => PublicAccessServiceSaved
    case 34 => PublicAccessServiceDeleted
    case 35 => RelationServiceSavedRelationType
    case _ => RelationServiceDeletedRelationType
  }

  /** The index of the `Bind` call that attaches routine `r`. */
  function Position(r: Routine): (i: nat)
    ensures i < 37
  {
    match r
    case ApplicationTreeServiceDeleted => 0
    case ApplicationTreeServiceUpdated => 1
    case ApplicationTreeServiceNew => 2
    case SectionServiceDeleted => 3
    case SectionServiceNew => 4
    case UserServiceSavedUserType => 5
    case UserServiceDeletedUserType => 6
    case UserServiceSavedUser => 7
    case UserServiceDeletedUser => 8
    case LocalizationServiceDeletedDictionaryItem => 9
    case LocalizationServiceSavedDictionaryItem => 10
    case DataTypeServiceDeleted => 11
    case DataTypeServiceSaved => 12
    case DomainServiceSaved => 13
    case DomainServiceDeleted => 14
    case LocalizationServiceSavedLanguage => 15
    case LocalizationServiceDeletedLanguage => 16
    case ContentTypeServiceChangedForContentTypes => 17
    case ContentTypeServiceChangedForMediaTypes => 18
    case ContentTypeServiceChangedForMemberTypes => 19
    case PermissionRepositoryAssignedPermissions => 20
    case FileServiceSavedTemplate => 21
    case FileServiceDeletedTemplate => 22
    case MacroServiceSaved => 23
    case MacroServiceDeleted => 24
    case MemberServiceSaved => 25
    case MemberServiceDeleted => 26
    case MemberGroupServiceSaved => 27
    case MemberGroupServiceDeleted => 28
    case MediaServiceChanged => 29
    case ContentServiceSaved => 30
    case ContentServiceCopied => 31
    case ContentServiceChanged => 32
    case PublicAccessServiceSaved => 33
    case PublicAccessServiceDeleted => 34
    case RelationServiceSavedRelationType => 35
    case RelationServiceDeletedRelationType => 36
  }

  /** The routines attached by the first `n` `Bind` calls of `Initialize`, in order. */
  function CallOrder(n: nat): (rs: seq<Routine>)
    requires n <= 37
    ensures |rs| == n
    ensures forall i :: 0 <= i < n ==> rs[i] == CallAt(i)
  {
    if n == 0 then []
    else
      var rs := CallOrder(n - 1);
      var r := CallAt(n - 1);
      assert forall i :: 0 <= i < n - 1 ==> (rs + [r])[i] == rs[i];
      rs + [r]
  }

  /** The `Bind` calls that attach the given routines. */
  function Subscriptions(rs: seq<Routine>): (bs: seq<Subscription>)
    ensures |bs| == |rs|
    ensures forall i :: 0 <= i < |rs| ==> bs[i] == BindingOf(rs[i])
  {
    if |rs| == 0 then [] else [BindingOf(rs[0])] + Subscriptions(rs[1..])
  }

  /** The number of `Bind` calls `Initialize` makes. */
  const BindCount: nat := 37

  /** The `Bind` calls of `Initialize`, in the order it makes them. */
  const Bindings: seq<Subscription> := Subscriptions(CallOrder(BindCount))

  /** What a service event calls once `Initialize` has run, looked up by service and event. */
  function BoundTo(source: Service, event: ServiceEvent): Option<Routine> {
    match (source, event)
    case (ApplicationTreeService, Deleted) => Some(ApplicationTreeServiceDeleted)
    case (ApplicationTreeService, Updated) => Some(ApplicationTreeServiceUpdated)
    case (ApplicationTreeService, New) => Some(ApplicationTreeServiceNew)
    case (SectionService, Deleted) => Some(SectionServiceDeleted)
    case (SectionService, New) => Some(SectionServiceNew)
    case (UserService, SavedUserType) => Some(UserServiceSavedUserType)
    case (UserService, DeletedUserType) => Some(UserServiceDeletedUserType)
    case (UserService, SavedUser) => Some(UserServiceSavedUser)
    case (UserService, DeletedUser) => Some(UserServiceDeletedUser)
    case (LocalizationService, DeletedDictionaryItem) => Some(LocalizationServiceDeletedDictionaryItem)
    case (LocalizationService, SavedDictionaryItem) => Some(LocalizationServiceSavedDictionaryItem)
    case (DataTypeService, Deleted) => Some(DataTypeServiceDeleted)
    case (DataTypeService, Saved) => Some(DataTypeServiceSaved)
    case (DomainService, Saved) => Some(DomainServiceSaved)
    case (DomainService, Deleted) => Some(DomainServiceDeleted)
    case (LocalizationService, SavedLanguage) => Some(LocalizationServiceSavedLanguage)
    case (LocalizationService, DeletedLanguage) => Some(LocalizationServiceDeletedLanguage)
    case (ContentTypeService, Changed) => Some(ContentTypeServiceChangedForContentTypes)
    case (MediaTypeService, Changed) => Some(ContentTypeServiceChangedForMediaTypes)
    case (MemberTypeService, Changed) => Some(ContentTypeServiceChangedForMemberTypes)
    case (PermissionRepository, AssignedPermissions) => Some(PermissionRepositoryAssignedPermissions)
    case (FileService, SavedTemplate) => Some(FileServiceSavedTemplate)
    case (FileService, DeletedTemplate) => Some(FileServiceDeletedTemplate)
    case (MacroService, Saved) => Some(MacroServiceSaved)
    case (MacroService, Deleted) => Some(MacroServiceDeleted)
    case (MemberService, Saved) => Some(MemberServiceSaved)
    case (MemberService, Deleted) => Some(MemberServiceDeleted)
    case (MemberGroupService, Saved) => Some(MemberGroupServiceSaved)
    case (MemberGroupService, Deleted) => Some(MemberGroupServiceDeleted)
    case (MediaService, TreeChanged) => Some(MediaServiceChanged)
    case (ContentService, Saved) => Some(ContentServiceSaved)
    case (ContentService, Copied) => Some(ContentServiceCopied)
    case (ContentService, TreeChanged) => Some(ContentServiceChanged)
    case (PublicAccessService, Saved) => Some(PublicAccessServiceSaved)
    case (PublicAccessService, Deleted) => Some(PublicAccessServiceDeleted)
    case (RelationService, SavedRelationType) => Some(RelationServiceSavedRelationType)
    case (RelationService, DeletedRelationType) => Some(RelationServiceDeletedRelationType)
    case _ => None
  }

  /** A component instance and the event subscriptions in force. `unbinders` is the
      `_unbinders` list, absent unless the instance was built to support unbinding; each
      unbinder is identified with the subscription it detaches. */
  datatype BinderState = BinderState(unbinders: Option<seq<Subscription>>, attached: seq<Subscription>)

  /** The two constructors: the parameterless one keeps no unbinders, the test one keeps an
      empty list when asked to support unbinding. */
  function Create(supportUnbinding: bool, attached: seq<Subscription>): (st: BinderState)
    ensures st.attached == attached
    ensures st.unbinders.Some? <==> supportUnbinding
    ensures st.unbinders.Some? ==> st.unbinders.value == []
  {
    BinderState(if supportUnbinding then Some([]) else None, attached)
  }

  /** `Bind`: attach now, and remember how to detach only when unbinding is supported. */
  function Bind(st: BinderState, b: Subscription): (st': BinderState)
    ensures st'.attached == st.attached + [b]
    ensures st'.unbinders.Some? <==> st.unbinders.Some?
    ensures st.unbinders.Some? ==> st'.unbinders.value == st.unbinders.value + [b]
  {
    BinderState(if st.unbinders.Some? then Some(st.unbinders.value + [b]) else None,
                st.attached + [b])
  }

  /** A sequence of `Bind` calls. */
  function BindAll(st: BinderState, bs: seq<Subscription>): (st': BinderState)
    ensures st'.attached == st.attached + bs
    ensures st'.unbinders.Some? <==> st.unbinders.Some?
    ensures st.unbinders.Some? ==> st'.unbinders.value == st.unbinders.value + bs
    decreases |bs|
  {
    if |bs| == 0 then st
    else BindAll(Bind(st, bs[0]), bs[1..])
  }

  /** `Initialize`. Nothing guards against a second call: it attaches every handler again. */
  function Initialize(st: BinderState): (st': BinderState)
    ensures st'.attached == st.attached + Bindings
    ensures st'.unbinders.Some? <==> st.unbinders.Some?
    ensures st.unbinders.Some? ==> st'.unbinders.value == st.unbinders.value + Bindings
  {
    BindAll(st, Bindings)
  }

  /** Unsubscribing a handler from an event: removes the last occurrence of the subscription from the
      invocation list, and does nothing when it is not there. */
  function Detach(attached: seq<Subscription>, b: Subscription): (r: seq<Subscription>)
    ensures b !in attached ==> r == attached
    ensures b in attached ==> multiset(r) == multiset(attached) - multiset{b}
    ensures b in attached ==> |r| == |attached| - 1
    decreases |attached|
  {
    if |attached| == 0 then attached
    else
      var last := attached[|attached| - 1];
      var init := attached[..|attached| - 1];
      assert attached == init + [last];
      if last == b then init else Detach(init, b) + [last]
  }

  /** Running the unbinders in the order they were recorded. */
  function DetachAll(attached: seq<Subscription>, us: seq<Subscription>): (r: seq<Subscription>)
    ensures |r| <= |attached|
    ensures forall x :: multiset(r)[x] <= multiset(attached)[x]
    decreases |us|
  {
    if |us| == 0 then attached
    else DetachAll(Detach(attached, us[0]), us[1..])
  }

  /** `Unbind`: throws `NotSupportedException` without an unbinders list; otherwise runs
      every unbinder and drops the list. */
  function Unbind(st: BinderState): (res: Result<BinderState, Failure>)
    ensures st.unbinders.None? <==> res == Err(NotSupported)
    ensures res.Ok? ==> res.value.unbinders.None?
    ensures res.Ok? ==> multiset(st.unbinders.value) <= multiset(st.attached) ==>
      multiset(res.value.attached) == multiset(st.attached) - multiset(st.unbinders.value)
  {
    match st.unbinders
    case None => Err(NotSupported)
    case Some(us) =>
      DetachAllRemoves(st.attached, us);
      Ok(BinderState(None, DetachAll(st.attached, us)))
  }

  /** The handlers a service event calls, in invocation-list order. */
  function Fire(attached: seq<Subscription>, source: Service, event: ServiceEvent): (hs: seq<Routine>)
    ensures |hs| <= |attached|
    ensures forall h :: h in hs <==> Subscription(source, event, h) in attached
  {
    if |attached| == 0 then []
    else
      (if attached[0].source == source && attached[0].event == event
       then [attached[0].handler] else [])
      + Fire(attached[1..], source, event)
  }

  // ---------------------------------------------------------------------------------------
  // Detaching.

  /** Running unbinders that are all attached removes exactly them. */
  lemma {:induction false} DetachAllRemoves(attached: seq<Subscription>, us: seq<Subscription>)
    ensures multiset(us) <= multiset(attached) ==>
      multiset(DetachAll(attached, us)) == multiset(attached) - multiset(us)
    decreases |us|
  {
    if |us| > 0 && multiset(us) <= multiset(attached) {
      assert us == [us[0]] + us[1..];
      assert us[0] in multiset(attached);
      var rest := Detach(attached, us[0]);
      assert multiset(us[1..]) <= multiset(rest);
      DetachAllRemoves(rest, us[1..]);
    }
  }

  /** Detaches commute: running the same attached unbinders in another order leaves the
      same multiset of subscriptions attached. */
  lemma DetachOrderIsIrrelevant(attached: seq<Subscription>, us: seq<Subscription>,
                                vs: seq<Subscription>)
    requires multiset(us) <= multiset(attached) && multiset(vs) == multiset(us)
    ensures multiset(DetachAll(attached, us)) == multiset(DetachAll(attached, vs))
  {
    DetachAllRemoves(attached, us);
    DetachAllRemoves(attached, vs);
  }

  /** Detaching a subscription that occurs once more after some prefix removes that
      occurrence. */
  lemma {:induction false} DetachPastSuffix(a: seq<Subscription>, b: Subscription,
                                            rest: seq<Subscription>)
    requires b !in rest
    ensures Detach(a + [b] + rest, b) == a + rest
    decreases |rest|
  {
    var s := a + [b] + rest;
    if |rest| == 0 {
      assert s[..|s| - 1] == a;
    } else {
      var init := rest[..|rest| - 1];
      var last := rest[|rest| - 1];
      assert s[..|s| - 1] == a + [b] + init;
      assert s[|s| - 1] == last;
      assert last != b by { assert last in rest; }
      assert b !in init by { assert forall x :: x in init ==> x in rest; }
      DetachPastSuffix(a, b, init);
      assert a + init + [last] == a + rest;
    }
  }

  /** Running the unbinders of distinct subscriptions attached last gives back exactly the
      list as it was before they were attached. */
  lemma {:induction false} DetachAllAppended(a: seq<Subscription>, bs: seq<Subscription>)
    requires NoDuplicates(bs)
    ensures DetachAll(a + bs, bs) == a
    decreases |bs|
  {
    if |bs| == 0 {
      assert a + bs == a;
    } else {
      assert bs[0] !in bs[1..] by {
        forall k | 0 <= k < |bs[1..]| ensures bs[1..][k] != bs[0] {
          assert bs[1..][k] == bs[k + 1];
        }
      }
      assert a + bs == a + [bs[0]] + bs[1..];
      DetachPastSuffix(a, bs[0], bs[1..]);
      assert NoDuplicates(bs[1..]) by {
        forall i, j | 0 <= i < j < |bs[1..]| ensures bs[1..][i] != bs[1..][j] {
          assert bs[1..][i] == bs[i + 1] && bs[1..][j] == bs[j + 1];
        }
      }
      DetachAllAppended(a, bs[1..]);
    }
  }

  // ---------------------------------------------------------------------------------------
  // The bindings.

  /** The call order and the position are inverse: `Initialize` makes exactly one `Bind`
      call per routine. */
  lemma CallOrderIsABijection()
    ensures forall i: nat :: i < 37 ==> Position(CallAt(i)) == i
    ensures forall r :: CallAt(Position(r)) == r
  {
  }

  /** The `i`-th binding attaches the `i`-th routine of the call order. */
  lemma BindingsShape()
    ensures |Bindings| == 37
    ensures forall i :: 0 <= i < 37 ==> Bindings[i] == BindingOf(CallAt(i))
  {
  }

  /** `Initialize` binds 37 distinct subscriptions, one per routine. */
  lemma BindingsAreDistinct()
    ensures |Bindings| == 37
    ensures NoDuplicates(Bindings)
    ensures forall r :: Bindings[Position(r)] == BindingOf(r)
  {
    BindingsShape();
    CallOrderIsABijection();
    forall i, j | 0 <= i < j < |Bindings| ensures Bindings[i] != Bindings[j] {
      assert Bindings[i].handler == CallAt(i) && Bindings[j].handler == CallAt(j);
    }
  }

  /** Every binding is found by the lookup under its own service and event. */
  lemma BoundToFindsEachBinding(r: Routine)
    ensures BoundTo(BindingOf(r).source, BindingOf(r).event) == Some(r)
  {
  }

  /** The lookup finds only bindings: what it finds listens to the event looked up. */
  lemma BoundToFindsOnlyBindings(source: Service, event: ServiceEvent)
    ensures BoundTo(source, event).Some? ==>
      BindingOf(BoundTo(source, event).value) == Subscription(source, event, BoundTo(source, event).value)
  {
  }

  /** Firing an event over two attachment lists calls the first list's handlers, then the
      second's. */
  lemma {:induction false} FireAppend(a: seq<Subscription>, b: seq<Subscription>,
                                      source: Service, event: ServiceEvent)
    ensures Fire(a + b, source, event) == Fire(a, source, event) + Fire(b, source, event)
    decreases |a|
  {
    if |a| == 0 {
      assert a + b == b;
    } else {
      assert (a + b)[1..] == a[1..] + b;
      FireAppend(a[1..], b, source, event);
    }
  }

  // ---------------------------------------------------------------------------------------
  // The lifecycle.

  /** The test constructor followed by `Initialize` records one unbinder per binding. */
  lemma InitializeRecordsEveryBinding(attached: seq<Subscription>)
    ensures Initialize(Create(true, attached)).unbinders == Some(Bindings)
    ensures |Initialize(Create(true, attached)).unbinders.value| == 37
  {
    BindingsAreDistinct();
    assert [] + Bindings == Bindings;
  }

  /** The production constructor records nothing, so `Unbind` throws even after
      `Initialize`. */
  lemma ProductionCannotUnbind(attached: seq<Subscription>)
    ensures Initialize(Create(false, attached)).unbinders.None?
    ensures Unbind(Initialize(Create(false, attached))) == Err(NotSupported)
  {
  }

  /** `Unbind` after `Initialize` on a test instance restores the subscriptions exactly as
      they were before. */
  lemma UnbindUndoesInitialize(attached: seq<Subscription>)
    ensures Unbind(Initialize(Create(true, attached))) == Ok(BinderState(None, attached))
  {
    BindingsAreDistinct();
    DetachAllAppended(attached, Bindings);
  }

  /** `Unbind` drops the unbinders list, so a second `Unbind` throws. */
  lemma SecondUnbindFails(st: BinderState)
    requires Unbind(st).Ok?
    ensures Unbind(Unbind(st).value) == Err(NotSupported)
  {
  }

  /** After `Initialize`, each event calls the handlers it called before, then the ones
      `Initialize` bound to it. */
  lemma InitializeAddsHandlers(st: BinderState, source: Service, event: ServiceEvent)
    ensures Fire(Initialize(st).attached, source, event)
         == Fire(st.attached, source, event) + Fire(Bindings, source, event)
  {
    FireAppend(st.attached, Bindings, source, event);
  }

  /** A second `Initialize` on the same instance makes every bound event call its handler
      twice. */
  lemma InitializeTwiceDoublesHandlers(st: BinderState, source: Service, event: ServiceEvent)
    ensures Fire(Initialize(Initialize(st)).attached, source, event)
         == Fire(st.attached, source, event) + Fire(Bindings, source, event)
            + Fire(Bindings, source, event)
  {
    InitializeAddsHandlers(st, source, event);
    InitializeAddsHandlers(Initialize(st), source, event);
  }

  /** Once `Initialize` has run, each service event calls the one routine bound to it, if
      any, after whatever was attached before. */
  lemma EachEventCallsItsHandler(st: BinderState, source: Service, event: ServiceEvent)
    ensures Fire(Initialize(st).attached, source, event)
         == Fire(st.attached, source, event)
            + (if BoundTo(source, event).Some? then [BoundTo(source, event).value] else [])
  {
    InitializeAddsHandlers(st, source, event);
    match BoundTo(source, event)
    case Some(r) =>
      BoundToFindsOnlyBindings(source, event);
      BindingFires(r);
    case None => UnboundEventFiresNothing(source, event);
  }

  /** No two bindings listen to the same event of the same service. */
  lemma BindingEventsAreDistinct()
    ensures forall i, j :: 0 <= i < j < |Bindings| ==>
      Bindings[i].source != Bindings[j].source || Bindings[i].event != Bindings[j].event
  {
    BindingsShape();
    BindingsAreDistinct();
    EventsDistinctByLookup(Bindings);
  }

  /** Distinct subscriptions, each the binding of its own handler, listen to distinct events:
      the lookup would otherwise find two handlers for one event. */
  lemma EventsDistinctByLookup(bs: seq<Subscription>)
    requires NoDuplicates(bs)
    requires forall k :: 0 <= k < |bs| ==> bs[k] == BindingOf(bs[k].handler)
    ensures forall i, j :: 0 <= i < j < |bs| ==>
      bs[i].source != bs[j].source || bs[i].event != bs[j].event
  {
    forall i, j | 0 <= i < j < |bs| ensures bs[i].source != bs[j].source || bs[i].event != bs[j].event {
      assert bs[i] != bs[j];
      BoundToFindsEachBinding(bs[i].handler);
      BoundToFindsEachBinding(bs[j].handler);
    }
  }

  /** The bindings alone: the event a routine is bound to calls that routine, once. */
  lemma BindingFires(r: Routine)
    ensures Fire(Bindings, BindingOf(r).source, BindingOf(r).event) == [r]
  {
    BindingEventsAreDistinct();
    BindingsAreDistinct();
    FiresTheOne(Bindings, Position(r));
  }

  /** Where no two attached subscriptions listen to the same event, each one's event calls
      exactly its handler. */
  lemma FiresTheOne(attached: seq<Subscription>, k: nat)
    requires k < |attached|
    requires forall i, j :: 0 <= i < j < |attached| ==>
      attached[i].source != attached[j].source || attached[i].event != attached[j].event
    ensures Fire(attached, attached[k].source, attached[k].event) == [attached[k].handler]
  {
    var b := attached[k];
    AtMostOneHandler(attached, b.source, b.event);
    var hs := Fire(attached, b.source, b.event);
    assert b.handler in hs;
    assert hs == [hs[0]];
  }

  /** The bindings alone: an event bound to nothing calls nothing. */
  lemma UnboundEventFiresNothing(source: Service, event: ServiceEvent)
    requires BoundTo(source, event).None?
    ensures Fire(Bindings, source, event) == []
  {
    BindingsShape();
    forall k | 0 <= k < |Bindings|
      ensures Bindings[k].source != source || Bindings[k].event != event
    {
      BoundToFindsEachBinding(CallAt(k));
    }
    FireNothing(Bindings, source, event);
  }

  /** An event none of the attached subscriptions listens to calls nothing. */
  lemma {:induction false} FireNothing(attached: seq<Subscription>, source: Service,
                                       event: ServiceEvent)
    requires forall k :: 0 <= k < |attached| ==>
      attached[k].source != source || attached[k].event != event
    ensures Fire(attached, source, event) == []
    decreases |attached|
  {
    if |attached| > 0 {
      var rest := attached[1..];
      forall k | 0 <= k < |rest| ensures rest[k].source != source || rest[k].event != event {
        assert rest[k] == attached[k + 1];
      }
      FireNothing(rest, source, event);
    }
  }

  /** Where no two attached subscriptions listen to the same event, firing calls at most one
      handler. */
  lemma {:induction false} AtMostOneHandler(attached: seq<Subscription>, source: Service,
                                            event: ServiceEvent)
    requires forall i, j :: 0 <= i < j < |attached| ==>
      attached[i].source != attached[j].source || attached[i].event != attached[j].event
    ensures |Fire(attached, source, event)| <= 1
    decreases |attached|
  {
    if |attached| > 0 {
      var rest := attached[1..];
      if attached[0].source == source && attached[0].event == event {
        forall k | 0 <= k < |rest| ensures rest[k].source != source || rest[k].event != event {
          assert rest[k] == attached[k + 1];
        }
        FireNothing(rest, source, event);
        assert Fire(attached, source, event) == [attached[0].handler] + Fire(rest, source, event);
      } else {
        forall i, j | 0 <= i < j < |rest|
          ensures rest[i].source != rest[j].source || rest[i].event != rest[j].event
        {
          assert rest[i] == attached[i + 1] && rest[j] == attached[j + 1];
        }
        AtMostOneHandler(rest, source, event);
        assert Fire(attached, source, event) == Fire(rest, source, event);
      }
    }
  }

  /** Once `Initialize` has run, the content and media services' `TreeChanged` events call
      the routines named `ContentService_Changed` and `MediaService_Changed`. */
  lemma TreeChangedIsBoundToChanged(st: BinderState)
    ensures Fire(Initialize(st).attached, ContentService, TreeChanged)
         == Fire(st.attached, ContentService, TreeChanged) + [ContentServiceChanged]
    ensures Fire(Initialize(st).attached, MediaService, TreeChanged)
         == Fire(st.attached, MediaService, TreeChanged) + [MediaServiceChanged]
  {
    assert BoundTo(ContentService, TreeChanged) == Some(ContentServiceChanged);
    assert BoundTo(MediaService, TreeChanged) == Some(MediaServiceChanged);
    EachEventCallsItsHandler(st, ContentService, TreeChanged);
    EachEventCallsItsHandler(st, MediaService, TreeChanged);
  }

  /** The file service's stylesheet events are not listened to: `Initialize` adds nothing to
      what they call. */
  lemma StylesheetsAreNotBound(st: BinderState)
    ensures Fire(Initialize(st).attached, FileService, SavedStylesheet)
         == Fire(st.attached, FileService, SavedStylesheet)
    ensures Fire(Initialize(st).attached, FileService, DeletedStylesheet)
         == Fire(st.attached, FileService, DeletedStylesheet)
  {
    assert BoundTo(FileService, SavedStylesheet).None?;
    assert BoundTo(FileService, DeletedStylesheet).None?;
    EachEventCallsItsHandler(st, FileService, SavedStylesheet);
    EachEventCallsItsHandler(st, FileService, DeletedStylesheet);
    assert Fire(st.attached, FileService, SavedStylesheet) + []
        == Fire(st.attached, FileService, SavedStylesheet);
    assert Fire(st.attached, FileService, DeletedStylesheet) + []
        == Fire(st.attached, FileService, DeletedStylesheet);
  }
}
