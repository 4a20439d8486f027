/** The pagination cursor of Sources/MastodonKit/Pagination.swift: which side of a
    result set to page from, serialised as one query parameter whose name is fixed
    per variant and whose value is the wrapped cursor, forwarded as given. */
module Pagination {
  import opened Wrappers

  /** One of three tagged variants, each wrapping an opaque cursor value. */
  datatype Pagination<T> = OlderThan(T) | NewerThan(T) | ImmediatelyNewer(T)

  /** The only query-parameter names a cursor can serialise to. */
  const QueryKeys: set<string> := {"max_id", "since_id", "min_id"}

  /** The computed property `key`: the query-parameter name of the variant.
      Each name belongs to exactly one variant, so distinct variants give
      distinct keys, and the payload plays no part. */
  function Key<T>(p: Pagination<T>): (k: string)
    ensures k in QueryKeys
    ensures k == "max_id" <==> p.OlderThan?
    ensures k == "since_id" <==> p.NewerThan?
    ensures k == "min_id" <==> p.ImmediatelyNewer?
  {
    match p
    case OlderThan(_) => "max_id"
    case NewerThan(_) => "since_id"
    case ImmediatelyNewer(_) => "min_id"
  }

  /** The computed property `value`: the wrapped cursor, whatever the variant. */
  function Value<T>(p: Pagination<T>): (v: T)
    ensures p == OlderThan(v) || p == NewerThan(v) || p == ImmediatelyNewer(v)
  {
    match p
    case OlderThan(v) => v
    case NewerThan(v) => v
    case ImmediatelyNewer(v) => v
  }

  /** Reads a query parameter back into a cursor: the inverse of the pair
      (`key`, `value`), defined on exactly the three names. */
  function FromQuery<T>(key: string, value: T): (r: Option<Pagination<T>>)
    ensures r.Some? <==> key in QueryKeys
    ensures r.Some? ==> Key(r.value) == key && Value(r.value) == value
  {
    if key == "max_id" then Some(OlderThan(value))
    else if key == "since_id" then Some(NewerThan(value))
    else if key == "min_id" then Some(ImmediatelyNewer(value))
    else None
  }

  /** `key` depends only on the variant: re-wrapping another payload in the
      same variant keeps the key. */
  lemma KeyIgnoresPayload<T>(a: T, b: T)
    ensures Key(OlderThan(a)) == Key(OlderThan(b)) == "max_id"
    ensures Key(NewerThan(a)) == Key(NewerThan(b)) == "since_id"
    ensures Key(ImmediatelyNewer(a)) == Key(ImmediatelyNewer(b)) == "min_id"
  {
  }

  /** wrap(v).value == v for every variant, so `value` ignores the variant. */
  lemma ValueRoundTrip<T>(v: T)
    ensures Value(OlderThan(v)) == v
    ensures Value(NewerThan(v)) == v
    ensures Value(ImmediatelyNewer(v)) == v
  {
  }

  /** The pair (`key`, `value`) determines the cursor it came from. */
  lemma KeyValueDetermine<T>(p: Pagination<T>, q: Pagination<T>)
    requires Key(p) == Key(q) && Value(p) == Value(q)
    ensures p == q
  {
  }

  /** Serialising a cursor and reading it back gives the same cursor. */
  lemma FromQueryRoundTrip<T>(p: Pagination<T>)
    ensures FromQuery(Key(p), Value(p)) == Some(p)
  {
  }

  /** Every one of the three names is the key of a cursor wrapping any given
      value: `key` is onto QueryKeys. */
  lemma KeyOnto<T>(k: string, v: T)
    requires k in QueryKeys
    ensures exists p: Pagination<T> :: Key(p) == k && Value(p) == v
  {
    var p := FromQuery(k, v).value;
    assert Key(p) == k && Value(p) == v;
  }
}
