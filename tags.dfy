/**
 * Cache tags as the API slices declare them, and the rule by which an
 * invalidated tag reaches a cached query.
 *
 * The rule itself belongs to the RTK Query library, which is not part of this
 * model; it is stated here as a definition so that the tables can be read
 * against it. Each `createApi` call keeps its own cache, so a mutation only
 * reaches entries of the same API slice (its `reducerPath`).
 */
module Tags {
  import opened Wrappers

  /** One `createApi` instance, named by its `reducerPath`. */
  datatype Api = Api(reducerPath: string)

  datatype TagId = Num(n: int) | Named(name: string)

  /** `"Movies"` is `Tag("Movies", None)`; `{ type: "Movie", id }` is `Tag("Movie", Some(Num(id)))`. */
  datatype Tag = Tag(kind: string, id: Option<TagId>)

  function TypeTag(kind: string): Tag { Tag(kind, None) }

  function IdTag(kind: string, id: TagId): Tag { Tag(kind, Some(id)) }

  /**
   * An invalidated tag without an id reaches every provided tag of its type;
   * one with an id reaches only the provided tag with that same id (a bare
   * provided tag has no id and is not reached by it).
   */
  predicate Matches(invalidated: Tag, provided: Tag)
  {
    invalidated.kind == provided.kind && (invalidated.id.None? || invalidated.id == provided.id)
  }

  predicate Hits(invalidated: seq<Tag>, provided: seq<Tag>)
  {
    exists a, b :: a in invalidated && b in provided && Matches(a, b)
  }

  /** What a completed mutation invalidates, in its own API slice. */
  datatype Effect = Effect(api: Api, tags: seq<Tag>)

  /** What a cached query result provides, in its own API slice. */
  datatype Entry = Entry(api: Api, tags: seq<Tag>)

  /** The cached entry is dropped and refetched after the mutation completes. */
  predicate Refetches(e: Effect, entry: Entry)
  {
    e.api == entry.api && Hits(e.tags, entry.tags)
  }

  /** Every tag named belongs to the slice's declared `tagTypes`. */
  predicate Declared(tags: seq<Tag>, tagTypes: set<string>)
  {
    forall t :: t in tags ==> t.kind in tagTypes
  }
}
