/** The calls the router makes on the distributed cache facility. The facility itself
    (propagation to other servers) is outside the model: it is a sink that receives these
    values in the order they are issued. */
module CacheActions {
  import opened Events

  /** The cache regions the router refreshes. */
  datatype Region =
    | ContentCache | MediaCache | MemberCache | MemberGroupCache | ContentTypeCache
    | DataTypeCache | TemplateCache | MacroCache | DomainCache | LanguageCache
    | DictionaryCache | UserCache | UserTypeCache | UserPermissionsCache
    | RelationTypeCache | PublicAccessCache | ApplicationTreeCache | ApplicationCache

  datatype Verb = Refresh | Remove

  /** What identifies the entry a single-entry call targets: some facility methods take the
      entity's id, others the entity itself. */
  datatype Key = ById(id: int) | ByEntity(entity: Entity)

  datatype CacheAction =
    /** A whole-region refresh: `RefreshPublicAccess`, `RefreshAllUserPermissionsCache`,
        `RefreshAllApplicationTreeCache`, `RefreshAllApplicationCache`. */
    | RefreshAll(region: Region)
    /** One entry: `RefreshUserTypeCache(id)`, `RemoveDataTypeCache(entity)`, ... */
    | Single(verb: Verb, region: Region, key: Key)
    /** A batch of entities: `RefreshMemberCache(members)`, `RemoveMemberCache(members)`. */
    | Batch(verb: Verb, region: Region, entities: seq<Entity>)
    /** `RefreshContentCache(changes)` and `RefreshMediaCache(changes)`. */
    | TreeRefresh(region: Region, changes: seq<TreeChange>)
    /** `RefreshContentTypeCache(changes)`. */
    | ContentTypeRefresh(typeChanges: seq<ContentTypeChange>)

  /** The region a call invalidates. */
  function RegionOf(a: CacheAction): Region {
    match a
    case RefreshAll(r) => r
    case Single(_, r, _) => r
    case Batch(_, r, _) => r
    case TreeRefresh(r, _) => r
    case ContentTypeRefresh(_) => ContentTypeCache
  }
}
