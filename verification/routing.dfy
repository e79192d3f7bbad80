/** The pieces routine names are made of: the type names of the event sources and the names
    of their events. Each is a constant of its own, so that it is checked once to be a piece. */
module RoutineNames {
  import opened Names

  const PublicAccessService: Piece := "PublicAccessService"
  const ContentService: Piece := "ContentService"
  const ApplicationTreeService: Piece := "ApplicationTreeService"
  const SectionService: Piece := "SectionService"
  const UserService: Piece := "UserService"
  const LocalizationService: Piece := "LocalizationService"
  const DataTypeService: Piece := "DataTypeService"
  const DomainService: Piece := "DomainService"
  const ContentTypeService: Piece := "ContentTypeService"
  const PermissionRepository: Piece := "PermissionRepository"
  const FileService: Piece := "FileService"
  const MacroService: Piece := "MacroService"
  const MediaService: Piece := "MediaService"
  const MemberService: Piece := "MemberService"
  const MemberGroupService: Piece := "MemberGroupService"
  const RelationService: Piece := "RelationService"

  const Saved: Piece := "Saved"
  const Deleted: Piece := "Deleted"
  const Copied: Piece := "Copied"
  const Changed: Piece := "Changed"
  const New: Piece := "New"
  const Updated: Piece := "Updated"
  const DeletedUserType: Piece := "DeletedUserType"
  const SavedUserType: Piece := "SavedUserType"
  const SavedDictionaryItem: Piece := "SavedDictionaryItem"
  const DeletedDictionaryItem: Piece := "DeletedDictionaryItem"
  const DeletedLanguage: Piece := "DeletedLanguage"
  const SavedLanguage: Piece := "SavedLanguage"
  const AssignedPermissions: Piece := "AssignedPermissions"
  const SavedUser: Piece := "SavedUser"
  const DeletedUser: Piece := "DeletedUser"
  const DeletedTemplate: Piece := "DeletedTemplate"
  const SavedTemplate: Piece := "SavedTemplate"
  const SavedRelationType: Piece := "SavedRelationType"
  const DeletedRelationType: Piece := "DeletedRelationType"
}

/** The routing table: one routine per (service, event) pair, each a pure translation of the
    event's arguments into the calls it makes on the distributed cache facility
    (src/Umbraco.Web/Cache/CacheRefresherComponent.cs, lines 223-564). */
module Routing {
  import opened Events
  import opened CacheActions
  import opened Sequences
  import opened Names
  import N = RoutineNames

  /** The static routing routines of the component, in declaration order. The three
      `ContentTypeService_Changed` overloads are distinct routines sharing one name. */
  datatype Routine =
    | PublicAccessServiceSaved | PublicAccessServiceDeleted
    | ContentServiceCopied | ContentServiceSaved | ContentServiceChanged
    | ApplicationTreeServiceNew | ApplicationTreeServiceUpdated | ApplicationTreeServiceDeleted
    | SectionServiceNew | SectionServiceDeleted
    | UserServiceDeletedUserType | UserServiceSavedUserType
    | LocalizationServiceSavedDictionaryItem | LocalizationServiceDeletedDictionaryItem
    | DataTypeServiceSaved | DataTypeServiceDeleted
    | DomainServiceSaved | DomainServiceDeleted
    | LocalizationServiceDeletedLanguage | LocalizationServiceSavedLanguage
    | ContentTypeServiceChangedForContentTypes
    | ContentTypeServiceChangedForMediaTypes
    | ContentTypeServiceChangedForMemberTypes
    | PermissionRepositoryAssignedPermissions
    | UserServiceSavedUser | UserServiceDeletedUser
    | FileServiceDeletedTemplate | FileServiceSavedTemplate
    | MacroServiceDeleted | MacroServiceSaved
    | MediaServiceChanged
    | MemberServiceDeleted | MemberServiceSaved
    | MemberGroupServiceDeleted | MemberGroupServiceSaved
    | RelationServiceSavedRelationType | RelationServiceDeletedRelationType

  /** The number of routines the class declares. */
  const RoutineCount: nat := 37

  /** The `i`-th routine in the order the class declares them. */
  function DeclaredAt(i: nat): Routine {
    match i
    case 0 => PublicAccessServiceSaved
    case 1 => PublicAccessServiceDeleted
    case 2 => ContentServiceCopied
    case 3 => ContentServiceSaved
    case 4 => ContentServiceChanged
    case 5 => ApplicationTreeServiceNew
    case 6 => ApplicationTreeServiceUpdated
    case 7 => ApplicationTreeServiceDeleted
    case 8 => SectionServiceNew
    case 9 => SectionServiceDeleted
    case 10 => UserServiceDeletedUserType
    case 11 => UserServiceSavedUserType
    case 12 => LocalizationServiceSavedDictionaryItem
    case 13 => LocalizationServiceDeletedDictionaryItem
    case 14 => DataTypeServiceSaved
    case 15 => DataTypeServiceDeleted
    case 16 => DomainServiceSaved
    case 17 => DomainServiceDeleted
    case 18 => LocalizationServiceDeletedLanguage
    case 19 => LocalizationServiceSavedLanguage
    case 20 => ContentTypeServiceChangedForContentTypes
    case 21 => ContentTypeServiceChangedForMediaTypes
    case 22 => ContentTypeServiceChangedForMemberTypes
    case 23 => PermissionRepositoryAssignedPermissions
    case 24 => UserServiceSavedUser
    case 25 => UserServiceDeletedUser
    case 26 => FileServiceDeletedTemplate
    case 27 => FileServiceSavedTemplate
    case 28 => MacroServiceDeleted
    case 29 => MacroServiceSaved
    case 30 => MediaServiceChanged
    case 31 => MemberServiceDeleted
    case 32 => MemberServiceSaved
    case 33 => MemberGroupServiceDeleted
    case 34 => MemberGroupServiceSaved
    case 35 => RelationServiceSavedRelationType
    case _ => RelationServiceDeletedRelationType
  }

  /** The first `n` routines in declaration order. */
  function DeclaredUpTo(n: nat): (rs: seq<Routine>)
    ensures |rs| == n
    ensures forall i :: 0 <= i < n ==> rs[i] == DeclaredAt(i)
  {
    if n == 0 then []
    else
      var rs := DeclaredUpTo(n - 1);
      assert forall i :: 0 <= i < n - 1 ==> (rs + [DeclaredAt(n - 1)])[i] == rs[i];
      rs + [DeclaredAt(n - 1)]
  }

  /** Every routine, in the order the class declares them. */
  const AllRoutines: seq<Routine> := DeclaredUpTo(RoutineCount)

  /** The two halves of the routine's method name, which is `prefix + "_" + suffix`. */
  function NameParts(r: Routine): (Piece, Piece) {
    match r
    case PublicAccessServiceSaved => (N.PublicAccessService, N.Saved)
    case PublicAccessServiceDeleted => (N.PublicAccessService, N.Deleted)
    case ContentServiceCopied => (N.ContentService, N.Copied)
    case ContentServiceSaved => (N.ContentService, N.Saved)
    case ContentServiceChanged => (N.ContentService, N.Changed)
    case ApplicationTreeServiceNew => (N.ApplicationTreeService, N.New)
    case ApplicationTreeServiceUpdated => (N.ApplicationTreeService, N.Updated)
    case ApplicationTreeServiceDeleted => (N.ApplicationTreeService, N.Deleted)
    case SectionServiceNew => (N.SectionService, N.New)
    case SectionServiceDeleted => (N.SectionService, N.Deleted)
    case UserServiceDeletedUserType => (N.UserService, N.DeletedUserType)
    case UserServiceSavedUserType => (N.UserService, N.SavedUserType)
    case LocalizationServiceSavedDictionaryItem => (N.LocalizationService, N.SavedDictionaryItem)
    case LocalizationServiceDeletedDictionaryItem => (N.LocalizationService, N.DeletedDictionaryItem)
    case DataTypeServiceSaved => (N.DataTypeService, N.Saved)
    case DataTypeServiceDeleted => (N.DataTypeService, N.Deleted)
    case DomainServiceSaved => (N.DomainService, N.Saved)
    case DomainServiceDeleted => (N.DomainService, N.Deleted)
    case LocalizationServiceDeletedLanguage => (N.LocalizationService, N.DeletedLanguage)
    case LocalizationServiceSavedLanguage => (N.LocalizationService, N.SavedLanguage)
    case ContentTypeServiceChangedForContentTypes => (N.ContentTypeService, N.Changed)
    case ContentTypeServiceChangedForMediaTypes => (N.ContentTypeService, N.Changed)
    case ContentTypeServiceChangedForMemberTypes => (N.ContentTypeService, N.Changed)
    case PermissionRepositoryAssignedPermissions => (N.PermissionRepository, N.AssignedPermissions)
    case UserServiceSavedUser => (N.UserService, N.SavedUser)
    case UserServiceDeletedUser => (N.UserService, N.DeletedUser)
    case FileServiceDeletedTemplate => (N.FileService, N.DeletedTemplate)
    case FileServiceSavedTemplate => (N.FileService, N.SavedTemplate)
    case MacroServiceDeleted => (N.MacroService, N.Deleted)
    case MacroServiceSaved => (N.MacroService, N.Saved)
    case MediaServiceChanged => (N.MediaService, N.Changed)
    case MemberServiceDeleted => (N.MemberService, N.Deleted)
    case MemberServiceSaved => (N.MemberService, N.Saved)
    case MemberGroupServiceDeleted => (N.MemberGroupService, N.Deleted)
    case MemberGroupServiceSaved => (N.MemberGroupService, N.Saved)
    case RelationServiceSavedRelationType => (N.RelationService, N.SavedRelationType)
    case RelationServiceDeletedRelationType => (N.RelationService, N.DeletedRelationType)
  }

  /** The routine's method name. */
  function Name(r: Routine): string {
    NameParts(r).0 + "_" + NameParts(r).1
  }

  /** The declared type of the routine's second (event arguments) parameter. Routines that
      touch single entries or batches take save or delete arguments. For the per-entity
      routines removal goes with deletion: every per-entity routine taking delete arguments
      removes, and every per-entity routine taking save arguments refreshes, except member
      group saves, which remove. Wholesale routines such as public access deletes also take
      delete arguments but refresh their whole region. */
  function ParameterType(r: Routine): (p: ArgsType)
    ensures IsPerEntity(r) ==> p == SaveArgsType || p == DeleteArgsType
    ensures IsPerEntity(r) && p == DeleteArgsType ==> PerEntityVerb(r) == Remove
    ensures IsPerEntity(r) && p == SaveArgsType ==>
      (PerEntityVerb(r) == Remove <==> r == MemberGroupServiceSaved)
    ensures r == MemberServiceDeleted || r == MemberServiceSaved ==>
      (p == DeleteArgsType <==> BatchVerb(r) == Remove)
  {
    match r
    case ApplicationTreeServiceNew | ApplicationTreeServiceUpdated | ApplicationTreeServiceDeleted
      | SectionServiceNew | SectionServiceDeleted => EventArgsType
    case PublicAccessServiceSaved | ContentServiceSaved | UserServiceSavedUserType
      | LocalizationServiceSavedDictionaryItem | DataTypeServiceSaved | DomainServiceSaved
      | LocalizationServiceSavedLanguage | UserServiceSavedUser | FileServiceSavedTemplate
      | MacroServiceSaved | MemberServiceSaved | MemberGroupServiceSaved
      | RelationServiceSavedRelationType => SaveArgsType
    case PublicAccessServiceDeleted | UserServiceDeletedUserType
      | LocalizationServiceDeletedDictionaryItem | DataTypeServiceDeleted | DomainServiceDeleted
      | LocalizationServiceDeletedLanguage | UserServiceDeletedUser | FileServiceDeletedTemplate
      | MacroServiceDeleted | MemberServiceDeleted | MemberGroupServiceDeleted
      | RelationServiceDeletedRelationType => DeleteArgsType
    case ContentServiceCopied => CopyArgsType
    case ContentServiceChanged | MediaServiceChanged => TreeChangeArgsType
    case ContentTypeServiceChangedForContentTypes | ContentTypeServiceChangedForMediaTypes
      | ContentTypeServiceChangedForMemberTypes => ContentTypeChangeArgsType
    case PermissionRepositoryAssignedPermissions => PermissionSaveArgsType
  }

  /** The cache region each routine is responsible for. */
  function Target(r: Routine): Region {
    match r
    case PublicAccessServiceSaved | PublicAccessServiceDeleted => PublicAccessCache
    case ContentServiceCopied | ContentServiceSaved => UserPermissionsCache
    case PermissionRepositoryAssignedPermissions => UserPermissionsCache
    case ContentServiceChanged => ContentCache
    case MediaServiceChanged => MediaCache
    case ApplicationTreeServiceNew | ApplicationTreeServiceUpdated
      | ApplicationTreeServiceDeleted => ApplicationTreeCache
    case SectionServiceNew | SectionServiceDeleted => ApplicationCache
    case UserServiceDeletedUserType | UserServiceSavedUserType => UserTypeCache
    case LocalizationServiceSavedDictionaryItem
      | LocalizationServiceDeletedDictionaryItem => DictionaryCache
    case DataTypeServiceSaved | DataTypeServiceDeleted => DataTypeCache
    case DomainServiceSaved | DomainServiceDeleted => DomainCache
    case LocalizationServiceDeletedLanguage | LocalizationServiceSavedLanguage => LanguageCache
    case ContentTypeServiceChangedForContentTypes | ContentTypeServiceChangedForMediaTypes
      | ContentTypeServiceChangedForMemberTypes => ContentTypeCache
    case UserServiceSavedUser | UserServiceDeletedUser => UserCache
    case FileServiceDeletedTemplate | FileServiceSavedTemplate => TemplateCache
    case MacroServiceDeleted | MacroServiceSaved => MacroCache
    case MemberServiceDeleted | MemberServiceSaved => MemberCache
    case MemberGroupServiceDeleted | MemberGroupServiceSaved => MemberGroupCache
    case RelationServiceSavedRelationType | RelationServiceDeletedRelationType => RelationTypeCache
  }

  // ---------------------------------------------------------------------------------------
  // The routing patterns, as a classification independent of the routines' bodies.

  /** Low-cardinality registries with no fine-grained key: any event refreshes the region. */
  predicate IsWholesale(r: Routine) {
    match r
    case PublicAccessServiceSaved | PublicAccessServiceDeleted | ApplicationTreeServiceNew
      | ApplicationTreeServiceUpdated | ApplicationTreeServiceDeleted | SectionServiceNew
      | SectionServiceDeleted => true
    case _ => false
  }

  /** Routines that forward their whole payload in one batch call. */
  predicate IsPassThrough(r: Routine) {
    match r
    case ContentServiceChanged | MediaServiceChanged
      | ContentTypeServiceChangedForContentTypes | ContentTypeServiceChangedForMediaTypes
      | ContentTypeServiceChangedForMemberTypes | MemberServiceSaved | MemberServiceDeleted => true
    case _ => false
  }

  /** Routines that make one call per saved or deleted entity. */
  predicate IsPerEntity(r: Routine) {
    match r
    case UserServiceDeletedUserType | UserServiceSavedUserType
      | LocalizationServiceSavedDictionaryItem | LocalizationServiceDeletedDictionaryItem
      | DataTypeServiceSaved | DataTypeServiceDeleted | DomainServiceSaved
      | DomainServiceDeleted | LocalizationServiceDeletedLanguage
      | LocalizationServiceSavedLanguage | UserServiceSavedUser | UserServiceDeletedUser
      | FileServiceDeletedTemplate | FileServiceSavedTemplate | MacroServiceDeleted
      | MacroServiceSaved | MemberGroupServiceDeleted | MemberGroupServiceSaved
      | RelationServiceSavedRelationType | RelationServiceDeletedRelationType => true
    case _ => false
  }

  /** The verb a per-entity routine uses. Member group saves remove, like member group deletes. */
  function PerEntityVerb(r: Routine): Verb {
    match r
    case UserServiceDeletedUserType | LocalizationServiceDeletedDictionaryItem
      | DataTypeServiceDeleted | DomainServiceDeleted | LocalizationServiceDeletedLanguage
      | UserServiceDeletedUser | FileServiceDeletedTemplate | MacroServiceDeleted
      | MemberGroupServiceDeleted | MemberGroupServiceSaved
      | RelationServiceDeletedRelationType => Remove
    case _ => Refresh
  }

  /** The verb of a pass-through routine's batch call: member deletes remove, member saves
      refresh. The tree and content type refreshes carry no verb. */
  function BatchVerb(r: Routine): Verb {
    if r == MemberServiceDeleted then Remove else Refresh
  }

  /** Whether a per-entity routine hands the facility the entity itself rather than its id. */
  predicate PassesEntity(r: Routine) {
    match r
    case DataTypeServiceSaved | DataTypeServiceDeleted | DomainServiceSaved
      | DomainServiceDeleted | LocalizationServiceDeletedLanguage
      | LocalizationServiceSavedLanguage | MacroServiceDeleted | MacroServiceSaved => true
    case _ => false
  }

  /** The entities a save or delete event carries. */
  function Entities(a: Args): seq<Entity>
    requires a.SaveArgs? || a.DeleteArgs?
  {
    if a.SaveArgs? then a.saved else a.deleted
  }

  /** The entity a single-entry key designates, by id. */
  function KeyId(k: Key): int {
    match k
    case ById(id) => id
    case ByEntity(e) => e.id
  }

  /** Some saved entity is new and had its permissions changed. */
  ghost predicate SomeNewWithNewPermissions(saved: seq<Entity>) {
    exists i :: 0 <= i < |saved| && saved[i].isNew && saved[i].permissionsChanged
  }

  /** The distinct user ids of some permission rows, as a set. */
  ghost function UsersOf(rows: seq<EntityPermission>): set<int> {
    set i | 0 <= i < |rows| :: rows[i].userId
  }

  /** How many facility calls a routine makes for an event, by pattern. */
  ghost function ExpectedCalls(r: Routine, a: Args): nat
    requires Accepts(ParameterType(r), a)
  {
    if IsWholesale(r) || IsPassThrough(r) then 1
    else if IsPerEntity(r) then |Entities(a)|
    else if r == ContentServiceSaved then (if SomeNewWithNewPermissions(a.saved) then 1 else 0)
    else if r == ContentServiceCopied then (if a.copy.permissionsChanged then 1 else 0)
    else |UsersOf(a.rows)|
  }

  // ---------------------------------------------------------------------------------------
  // The routines.

  /** One call per entity, in order: the loops over the saved or deleted entities. */
  function PerEntity(verb: Verb, region: Region, passEntity: bool, es: seq<Entity>)
    : (actions: seq<CacheAction>)
    ensures |actions| == |es|
    ensures forall i :: 0 <= i < |es| ==>
      && actions[i].Single? && actions[i].verb == verb && actions[i].region == region
      && KeyId(actions[i].key) == es[i].id
      && actions[i].key == (if passEntity then ByEntity(es[i]) else ById(es[i].id))
  {
    if |es| == 0 then []
    else
      [Single(verb, region, if passEntity then ByEntity(es[0]) else ById(es[0].id))]
      + PerEntity(verb, region, passEntity, es[1..])
  }

  /** The flag `ContentService_Saved` computes with its loop: set once some saved entity is
      new and its `PermissionsChanged` property was dirty, never cleared. */
  function PermissionsFlag(saved: seq<Entity>): (clear: bool)
    ensures clear <==> SomeNewWithNewPermissions(saved)
  {
    if |saved| == 0 then false
    else
      var flag := PermissionsFlag(saved[..|saved| - 1]);
      var e := saved[|saved| - 1];
      assert forall i :: 0 <= i < |saved| - 1 ==> saved[..|saved| - 1][i] == saved[i];
      if e.isNew && e.permissionsChanged then true else flag
  }

  /** The user ids of the permission rows, in row order. */
  function UserIds(rows: seq<EntityPermission>): (ids: seq<int>)
    ensures |ids| == |rows|
    ensures forall i :: 0 <= i < |rows| ==> ids[i] == rows[i].userId
  {
    if |rows| == 0 then [] else [rows[0].userId] + UserIds(rows[1..])
  }

  /** The user ids of the rows are exactly the users the rows name. */
  lemma UserIdsCoverRows(rows: seq<EntityPermission>)
    ensures (set x | x in UserIds(rows)) == UsersOf(rows)
    ensures forall i :: 0 <= i < |rows| ==> rows[i].userId in UserIds(rows)
  {
    var ids := UserIds(rows);
    forall x | x in ids ensures x in UsersOf(rows) {
      var i :| 0 <= i < |ids| && ids[i] == x;
    }
    forall i | 0 <= i < |rows| ensures rows[i].userId in ids {
      assert ids[i] == rows[i].userId;
    }
  }

  /** One user-permissions refresh per id, in order. */
  function PerUser(ids: seq<int>): (actions: seq<CacheAction>)
    ensures |actions| == |ids|
    ensures forall i :: 0 <= i < |ids| ==>
      actions[i] == Single(Refresh, UserPermissionsCache, ById(ids[i]))
  {
    if |ids| == 0 then []
    else [Single(Refresh, UserPermissionsCache, ById(ids[0]))] + PerUser(ids[1..])
  }

  /** `PermissionRepository_AssignedPermissions`: one user-permissions refresh per distinct
      user id, in the order the ids first appear. */
  function AssignedPermissions(rows: seq<EntityPermission>): (actions: seq<CacheAction>)
    ensures forall i :: 0 <= i < |actions| ==>
      actions[i].Single? && actions[i].verb == Refresh && actions[i].region == UserPermissionsCache
    ensures forall i :: 0 <= i < |rows| ==>
      Single(Refresh, UserPermissionsCache, ById(rows[i].userId)) in actions
    ensures forall i, j :: 0 <= i < j < |actions| ==> actions[i] != actions[j]
    ensures |actions| == |UsersOf(rows)|
    ensures forall i :: 0 <= i < |actions| ==>
      actions[i].key.ById? && actions[i].key.id in UserIds(rows)
    ensures forall i, j :: 0 <= i < j < |actions| ==>
      FirstIndex(UserIds(rows), actions[i].key.id) < FirstIndex(UserIds(rows), actions[j].key.id)
  {
    var ids := Distinct(UserIds(rows));
    UserIdsCoverRows(rows);
    DistinctCardinality(UserIds(rows));
    PerUserCoversIds(ids);
    PerUser(ids)
  }

  /** Every id gets its refresh. */
  lemma PerUserCoversIds(ids: seq<int>)
    ensures forall x :: x in ids ==> Single(Refresh, UserPermissionsCache, ById(x)) in PerUser(ids)
  {
    var actions := PerUser(ids);
    forall x | x in ids ensures Single(Refresh, UserPermissionsCache, ById(x)) in actions {
      var k :| 0 <= k < |ids| && ids[k] == x;
      assert actions[k] == Single(Refresh, UserPermissionsCache, ById(x));
    }
  }

  /** The single call of a wholesale routine. */
  function WholesaleCall(r: Routine): (c: CacheAction)
    requires IsWholesale(r)
    ensures c == RefreshAll(Target(r))
  {
    match r
    case PublicAccessServiceSaved | PublicAccessServiceDeleted => RefreshAll(PublicAccessCache)
    case ApplicationTreeServiceNew | ApplicationTreeServiceUpdated
      | ApplicationTreeServiceDeleted => RefreshAll(ApplicationTreeCache)
    case SectionServiceNew | SectionServiceDeleted => RefreshAll(ApplicationCache)
  }

  /** The payload a batch call carries is the whole payload of the event, in order. */
  predicate CarriesAll(c: CacheAction, a: Args) {
    match c
    case Batch(_, _, es) => (a.SaveArgs? || a.DeleteArgs?) && es == Entities(a)
    case TreeRefresh(_, changes) => a.TreeChangeArgs? && changes == a.changes
    case ContentTypeRefresh(changes) => a.ContentTypeChangeArgs? && changes == a.typeChanges
    case _ => false
  }

  /** The single batch call of a pass-through routine. */
  function BatchCall(r: Routine, a: Args): (c: CacheAction)
    requires IsPassThrough(r) && Accepts(ParameterType(r), a)
    ensures RegionOf(c) == Target(r)
    ensures CarriesAll(c, a)
    ensures c.Batch? <==> r == MemberServiceDeleted || r == MemberServiceSaved
    ensures c.Batch? ==> c.verb == BatchVerb(r)
  {
    match r
    case ContentServiceChanged => TreeRefresh(ContentCache, a.changes)
    case MediaServiceChanged => TreeRefresh(MediaCache, a.changes)
    case ContentTypeServiceChangedForContentTypes | ContentTypeServiceChangedForMediaTypes
      | ContentTypeServiceChangedForMemberTypes => ContentTypeRefresh(a.typeChanges)
    case MemberServiceDeleted => Batch(Remove, MemberCache, a.deleted)
    case MemberServiceSaved => Batch(Refresh, MemberCache, a.saved)
  }

  /** The calls of a per-entity routine: one per saved or deleted entity, in order. */
  function PerEntityRoute(r: Routine, a: Args): (actions: seq<CacheAction>)
    requires IsPerEntity(r) && Accepts(ParameterType(r), a)
    ensures a.SaveArgs? || a.DeleteArgs?
    ensures |actions| == |Entities(a)|
    ensures forall i :: 0 <= i < |actions| ==>
      && actions[i].Single? && actions[i].verb == PerEntityVerb(r)
      && actions[i].region == Target(r)
      && actions[i].key == (if PassesEntity(r) then ByEntity(Entities(a)[i]) else ById(Entities(a)[i].id))
  {
    match r
    case UserServiceDeletedUserType => PerEntity(Remove, UserTypeCache, false, a.deleted)
    case UserServiceSavedUserType => PerEntity(Refresh, UserTypeCache, false, a.saved)
    case LocalizationServiceSavedDictionaryItem => PerEntity(Refresh, DictionaryCache, false, a.saved)
    case LocalizationServiceDeletedDictionaryItem => PerEntity(Remove, DictionaryCache, false, a.deleted)
    case DataTypeServiceSaved => PerEntity(Refresh, DataTypeCache, true, a.saved)
    case DataTypeServiceDeleted => PerEntity(Remove, DataTypeCache, true, a.deleted)
    case DomainServiceSaved => PerEntity(Refresh, DomainCache, true, a.saved)
    case DomainServiceDeleted => PerEntity(Remove, DomainCache, true, a.deleted)
    case LocalizationServiceDeletedLanguage => PerEntity(Remove, LanguageCache, true, a.deleted)
    case LocalizationServiceSavedLanguage => PerEntity(Refresh, LanguageCache, true, a.saved)
    case UserServiceSavedUser => PerEntity(Refresh, UserCache, false, a.saved)
    case UserServiceDeletedUser => PerEntity(Remove, UserCache, false, a.deleted)
    case FileServiceDeletedTemplate => PerEntity(Remove, TemplateCache, false, a.deleted)
    case FileServiceSavedTemplate => PerEntity(Refresh, TemplateCache, false, a.saved)
    case MacroServiceDeleted => PerEntity(Remove, MacroCache, true, a.deleted)
    case MacroServiceSaved => PerEntity(Refresh, MacroCache, true, a.saved)
    case MemberGroupServiceDeleted => PerEntity(Remove, MemberGroupCache, false, a.deleted)
    case MemberGroupServiceSaved => PerEntity(Remove, MemberGroupCache, false, a.saved)
    case RelationServiceSavedRelationType => PerEntity(Refresh, RelationTypeCache, false, a.saved)
    case RelationServiceDeletedRelationType => PerEntity(Remove, RelationTypeCache, false, a.deleted)
  }

  /** `ContentService_Saved`: one refresh of every user's permissions when some saved entity
      is new and had its permissions changed, none otherwise, whatever the batch size. */
  function ContentSaved(saved: seq<Entity>): (actions: seq<CacheAction>)
    ensures SomeNewWithNewPermissions(saved) ==> actions == [RefreshAll(UserPermissionsCache)]
    ensures !SomeNewWithNewPermissions(saved) ==> actions == []
  {
    if PermissionsFlag(saved) then [RefreshAll(UserPermissionsCache)] else []
  }

  /** `ContentService_Copied`: one refresh of every user's permissions exactly when the copy's
      `PermissionsChanged` property was dirty. */
  function ContentCopied(copy: Entity): (actions: seq<CacheAction>)
    ensures copy.permissionsChanged <==> actions == [RefreshAll(UserPermissionsCache)]
    ensures !copy.permissionsChanged <==> actions == []
  {
    if copy.permissionsChanged then [RefreshAll(UserPermissionsCache)] else []
  }

  /** The calls a routine makes for event arguments its second parameter accepts. */
  function Route(r: Routine, a: Args): (actions: seq<CacheAction>)
    requires Accepts(ParameterType(r), a)
    ensures forall i :: 0 <= i < |actions| ==> RegionOf(actions[i]) == Target(r)
    ensures |actions| == ExpectedCalls(r, a)
    ensures IsWholesale(r) ==> actions == [RefreshAll(Target(r))]
    ensures IsPassThrough(r) ==> CarriesAll(actions[0], a)
    ensures IsPassThrough(r) && actions[0].Batch? ==> actions[0].verb == BatchVerb(r)
  {
    if IsWholesale(r) then [WholesaleCall(r)]
    else if IsPassThrough(r) then [BatchCall(r, a)]
    else if IsPerEntity(r) then PerEntityRoute(r, a)
    else if r == ContentServiceSaved then ContentSaved(a.saved)
    else if r == ContentServiceCopied then ContentCopied(a.copy)
    else AssignedPermissions(a.rows)
  }

  // ---------------------------------------------------------------------------------------
  // Properties of the routines.

  /** Every routine follows exactly one routing pattern: wholesale, pass-through, per entity,
      or one of the three permission routines. */
  lemma PatternsPartitionRoutines(r: Routine)
    ensures IsWholesale(r) ==> !IsPassThrough(r) && !IsPerEntity(r)
    ensures IsPassThrough(r) ==> !IsPerEntity(r)
    ensures !IsWholesale(r) && !IsPassThrough(r) && !IsPerEntity(r) <==>
      r == ContentServiceSaved || r == ContentServiceCopied || r == PermissionRepositoryAssignedPermissions
  {
  }

  /** Permission rows naming only users already named add no call: each user's permissions
      are refreshed once however many rows name them. */
  lemma RepeatedUsersAddNoCall(rows: seq<EntityPermission>, more: seq<EntityPermission>)
    requires forall j :: 0 <= j < |more| ==> more[j].userId in UsersOf(rows)
    ensures AssignedPermissions(rows + more) == AssignedPermissions(rows)
  {
    var ids := UserIds(rows);
    var extra := UserIds(more);
    assert UserIds(rows + more) == ids + extra;
    UserIdsCoverRows(rows);
    forall x | x in extra ensures x in ids {
      var j :| 0 <= j < |extra| && extra[j] == x;
      assert x == more[j].userId;
    }
    DistinctIgnoresRepeats(ids, extra);
  }

  /** `ContentService_Saved` over two batches together refreshes user permissions exactly when
      one of them alone would. */
  lemma ContentSavedJoinsBatches(a: seq<Entity>, b: seq<Entity>)
    ensures ContentSaved(a + b) != [] <==> ContentSaved(a) != [] || ContentSaved(b) != []
  {
    var ab := a + b;
    if SomeNewWithNewPermissions(ab) {
      var i :| 0 <= i < |ab| && ab[i].isNew && ab[i].permissionsChanged;
      if i < |a| {
        assert a[i] == ab[i];
      } else {
        assert b[i - |a|] == ab[i];
      }
    }
    if SomeNewWithNewPermissions(a) {
      var i :| 0 <= i < |a| && a[i].isNew && a[i].permissionsChanged;
      assert ab[i] == a[i];
    }
    if SomeNewWithNewPermissions(b) {
      var i :| 0 <= i < |b| && b[i].isNew && b[i].permissionsChanged;
      assert ab[|a| + i] == b[i];
    }
  }
}
