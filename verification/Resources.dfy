/**
 Custom resources as the Kubernetes API server keeps them: every write makes a new version, a write based on
 another version than the latest is refused, and a resource in deletion goes once no finalizer holds it.
 */
module Resources {
  import opened Wrappers

  datatype Kind = DatabaseKind | RoleKind | SchemaKind

  datatype ResourceName = ResourceName(kind: Kind, namespace: string, name: string)

  /** A version of a resource; `foreign` stands for finalizers of others, `keep` for keepOnDelete. */
  datatype Obj = Obj(
    version: nat, uid: nat, finalizer: bool, foreign: bool, deleting: bool, keep: bool, succeeded: bool)

  /** All versions, None while the resource does not exist. */
  type History = seq<Option<Obj>>

  /** What users and other controllers do to a resource. */
  datatype Edit = NewResource(keep: bool, foreign: bool) | NewSpec(keep: bool) | DeletionRequest | ForeignRelease

  function Latest(h: History): Option<Obj> {
    if h == [] then None else h[|h| - 1]
  }

  predicate IsLatest(h: History, version: nat) {
    Latest(h).Some? && Latest(h).value.version == version
  }

  /** Stores the next version. */
  function Append(h: History, o: Obj): History {
    h + [if o.deleting && !o.finalizer && !o.foreign then None else Some(o.(version := |h|))]
  }

  function Edited(h: History, e: Edit): History {
    match Latest(h)
    case None => if e.NewResource? then Append(h, Obj(0, |h|, false, e.foreign, false, e.keep, false)) else h
    case Some(o) =>
      match e
      case NewResource(_, _) => h
      case NewSpec(keep) => Append(h, o.(keep := keep))
      case DeletionRequest => Append(h, o.(deleting := true))
      case ForeignRelease => Append(h, o.(foreign := false))
  }

  function EditedAll(h: History, es: seq<Edit>): History
    decreases |es|
  {
    if es == [] then h else EditedAll(Edited(h, es[0]), es[1..])
  }

  type Resources = map<ResourceName, History>

  function HistoryOf(rs: Resources, name: ResourceName): History {
    if name in rs then rs[name] else [None]
  }
}
