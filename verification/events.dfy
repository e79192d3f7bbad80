/** What a service event delivers to a handler: the sender and the event arguments. */
module Events {

  /** An entity carried by save/delete/copy arguments. Only what the handlers read is kept:
      its id, whether it is new, and whether its `PermissionsChanged` property was dirty when
      the event was raised. */
  datatype Entity = Entity(id: int, isNew: bool, permissionsChanged: bool)

  /** One record of a content or media tree change (`TreeChange<T>`); the router never looks
      inside it, it only forwards it. */
  datatype TreeChange = TreeChange(itemId: int, changeTypes: nat)

  /** One record of a content, media or member type change (`ContentTypeChange<T>`). */
  datatype ContentTypeChange = ContentTypeChange(itemId: int, changeTypes: nat)

  /** One permission row written by the permission repository (`EntityPermission`). */
  datatype EntityPermission = EntityPermission(userId: int, entityId: int, permissions: seq<string>)

  /** The event arguments a service raises. */
  datatype Args =
    /** Plain `EventArgs` (application tree and section events). */
    | PlainArgs
    /** `SaveEventArgs<T>` with its `SavedEntities`. */
    | SaveArgs(saved: seq<Entity>)
    /** `DeleteEventArgs<T>` with its `DeletedEntities`. */
    | DeleteArgs(deleted: seq<Entity>)
    /** `CopyEventArgs<T>`: the original and its `Copy`. */
    | CopyArgs(original: Entity, copy: Entity)
    /** `TreeChange<T>.EventArgs` with its `Changes`. */
    | TreeChangeArgs(changes: seq<TreeChange>)
    /** `ContentTypeChange<T>.EventArgs` with its `Changes`. */
    | ContentTypeChangeArgs(typeChanges: seq<ContentTypeChange>)
    /** `SaveEventArgs<EntityPermission>` with its `SavedEntities`. */
    | PermissionSaveArgs(rows: seq<EntityPermission>)

  /** The declared type of a handler's second parameter. */
  datatype ArgsType =
    | EventArgsType
    | SaveArgsType
    | DeleteArgsType
    | CopyArgsType
    | TreeChangeArgsType
    | ContentTypeChangeArgsType
    | PermissionSaveArgsType

  /** The runtime type of a value of event arguments. */
  function TypeOf(a: Args): ArgsType {
    match a
    case PlainArgs => EventArgsType
    case SaveArgs(_) => SaveArgsType
    case DeleteArgs(_) => DeleteArgsType
    case CopyArgs(_, _) => CopyArgsType
    case TreeChangeArgs(_) => TreeChangeArgsType
    case ContentTypeChangeArgs(_) => ContentTypeChangeArgsType
    case PermissionSaveArgs(_) => PermissionSaveArgsType
  }

  /** A parameter of type `t` accepts `a`: every event-args type derives from `EventArgs`,
      and the specific ones accept only themselves. */
  predicate Accepts(t: ArgsType, a: Args) {
    t == EventArgsType || t == TypeOf(a)
  }

  /** The object that raised the event; only its runtime type name matters to the lookup. */
  datatype Sender = Sender(typeName: string)

  /** `IEventDefinition`: sender, event name and arguments. As a datatype it is compared by
      value, and the sender keeps only its type name. */
  datatype EventDefinition = EventDefinition(sender: Sender, eventName: string, args: Args)
}
