/**
 * The query-key factories of the four hooks files share one shape:
 * `all` is the resource name, `lists()` and `details()` extend it with a
 * tag, and `list(filters)` and `detail(id)` extend those. React Query
 * finds the queries to invalidate, remove or overwrite by key prefix;
 * that matching rule is the one this module assumes (`Matches`).
 */
module QueryKeys {

  import opened Wrappers

  /**
   * One element of a key: a string, the `{ filters }` object of a list key,
   * or `undefined`, which a key gets when it reads a field that is not there.
   */
  datatype KeyPart = Str(s: string) | Filters(filters: string) | Undefined

  type QueryKey = seq<KeyPart>

  /** What a mutation's `onSuccess` does to the cache, in source order. */
  datatype CacheAction =
    | Invalidate(key: QueryKey)
    | SetData(key: QueryKey)
    | Remove(key: QueryKey)

  /** The key ends in a non-empty string argument: an id, a status, a VIN. */
  predicate EndsInArgument(k: QueryKey) {
    |k| > 0 && k[|k| - 1].Str? && k[|k| - 1].s != ""
  }

  /** A filter key matches every query whose key starts with it. */
  predicate Matches(filter: QueryKey, k: QueryKey) {
    filter <= k
  }

  /** The query under `k` is marked stale and refetched by one of the actions. */
  predicate Refreshed(actions: seq<CacheAction>, k: QueryKey) {
    exists i :: 0 <= i < |actions| && actions[i].Invalidate? && Matches(actions[i].key, k)
  }

  /** The query under `k` is dropped from the cache by one of the actions. */
  predicate Removed(actions: seq<CacheAction>, k: QueryKey) {
    exists i :: 0 <= i < |actions| && actions[i].Remove? && Matches(actions[i].key, k)
  }

  /** The cache entry under exactly `k` is overwritten by one of the actions. */
  predicate Written(actions: seq<CacheAction>, k: QueryKey) {
    exists i :: 0 <= i < |actions| && actions[i].SetData? && actions[i].key == k
  }

  /** `keys.all`. */
  function All(resource: string): QueryKey {
    [Str(resource)]
  }

  /** `[...keys.all, tag, ...rest]`: a key under a tagged sub-tree of the resource. */
  function Tagged(resource: string, tag: string, rest: QueryKey): (k: QueryKey)
    ensures All(resource) <= k && |k| == 2 + |rest|
  {
    All(resource) + [Str(tag)] + rest
  }

  /** `keys.lists()`. */
  function Lists(resource: string): QueryKey {
    Tagged(resource, "list", [])
  }

  /** `keys.list(filters)`. */
  function List(resource: string, filters: string): QueryKey {
    Lists(resource) + [Filters(filters)]
  }

  /** `keys.details()`. */
  function Details(resource: string): QueryKey {
    Tagged(resource, "detail", [])
  }

  /** `keys.detail(id)`. */
  function Detail(resource: string, id: string): QueryKey {
    Details(resource) + [Str(id)]
  }

  /**
   * A tagged sub-tree is matched exactly by the keys with that resource
   * and that tag: keys of another resource or another tag never are.
   */
  lemma TaggedMatches(resource: string, tag: string, resource': string, tag': string, rest: QueryKey)
    ensures Matches(Tagged(resource, tag, []), Tagged(resource', tag', rest)) <==>
      resource == resource' && tag == tag'
    ensures Matches(All(resource), Tagged(resource', tag', rest)) <==> resource == resource'
  {
    var k := Tagged(resource', tag', rest);
    assert k[0] == Str(resource') && k[1] == Str(tag');
    if resource == resource' && tag == tag' {
      assert Tagged(resource, tag, []) == k[..2];
    }
  }

  /**
   * The prefix structure of the shared factory: every list key is under
   * `lists()`, every detail key under `details()`, both under `all`; no
   * list key is under `details()` and no detail key under `lists()`; and
   * `detail(id)` matches `detail(id')` only for the same id.
   */
  lemma FactoryPrefixes(resource: string, filters: string, id: string, id': string)
    ensures Matches(Lists(resource), List(resource, filters))
    ensures Matches(Details(resource), Detail(resource, id))
    ensures Matches(All(resource), Lists(resource)) && Matches(All(resource), Details(resource))
    ensures !Matches(Lists(resource), Detail(resource, id))
    ensures !Matches(Details(resource), List(resource, filters))
    ensures Matches(Detail(resource, id), Detail(resource, id')) <==> id == id'
  {
    TaggedMatches(resource, "list", resource, "detail", [Str(id)]);
    TaggedMatches(resource, "detail", resource, "list", [Filters(filters)]);
    var d := Detail(resource, id');
    assert d[2] == Str(id');
    assert Detail(resource, id)[2] == Str(id);
    assert List(resource, filters) == Tagged(resource, "list", [Filters(filters)]);
    assert Detail(resource, id) == Tagged(resource, "detail", [Str(id)]);
    assert Detail(resource, id') == Tagged(resource, "detail", [Str(id')]);
  }

  /** Keys of two different resources never match each other. */
  lemma ResourcesApart(resource: string, resource': string, tag: string, rest: QueryKey)
    requires resource != resource'
    ensures !Matches(All(resource), Tagged(resource', tag, rest))
  {
    TaggedMatches(resource, "", resource', tag, rest);
  }

  /** `JSON.stringify(params || {})`; the serializer is a parameter. */
  datatype ListParams = ListParams(page: Option<real>, limit: Option<real>)

  const NoParams: ListParams := ListParams(None, None)

  /** The filters string of a list query: missing params serialize as `{}`. */
  function ListFilters(params: Option<ListParams>, stringify: ListParams -> string): (filters: string)
    ensures params.None? ==> filters == stringify(NoParams)
  {
    match params
    case None => stringify(NoParams)
    case Some(p) => stringify(p)
  }

  /**
   * The list key depends on the params only through their serialization:
   * leaving the params out and passing `{}` give the same key, and any
   * params that serialize alike share one cache entry.
   */
  lemma ListKeyBySerialization(resource: string, p: ListParams, p': ListParams, stringify: ListParams -> string)
    requires stringify(p) == stringify(p')
    ensures List(resource, ListFilters(None, stringify)) == List(resource, ListFilters(Some(NoParams), stringify))
    ensures List(resource, ListFilters(Some(p), stringify)) == List(resource, ListFilters(Some(p'), stringify))
    ensures Matches(Lists(resource), List(resource, ListFilters(Some(p), stringify)))
  {
    FactoryPrefixes(resource, ListFilters(Some(p), stringify), "", "");
  }
}
