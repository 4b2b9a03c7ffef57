/** The upstream client: the paging options of one request, the upstream
    itself as an abstract function, and the translation of the options into
    the query parameters of the request URL. */
module Fetch {
  import opened Wrappers
  import opened Text
  import opened Mods

  /** `FetchOptions`: one page request. */
  datatype FetchOptions = FetchOptions(limit: int, offset: int, sort: string, tags: seq<string>)

  /** The upstream API as seen by the feed: each request yields the `data`
      records of one page, or an error (transport, status or decoding). */
  type Upstream = FetchOptions -> Result<seq<Mod>, string>

  /** Parsed URL query parameters (`url.Values`): each key carries a list of values. */
  type Values = map<string, seq<string>>

  /** `Values.Get`: the first value of a key, or "" when there is none. */
  function Get(q: Values, key: string): (v: string)
    ensures key !in q ==> v == ""
    ensures key in q && |q[key]| > 0 ==> v == q[key][0]
    ensures key in q && |q[key]| == 0 ==> v == ""
  {
    if key in q && |q[key]| > 0 then q[key][0] else ""
  }

  const LimitParam: string := "_limit"
  const OffsetParam: string := "_offset"
  const SortParam: string := "_sort"
  const TagsParam: string := "tags-in"

  /** Parameter `key` of `q` is `[value]` when `cond` holds, and is otherwise
      exactly as in `base` (present or absent). */
  ghost predicate SetWhen(q: Values, base: Values, key: string, cond: bool, value: string)
  {
    if cond then key in q && q[key] == [value]
    else (key in q <==> key in base) && (key in base ==> q[key] == base[key])
  }

  /** The query-building part of `optsToURL`: starting from the parameters
      already in the API URL, each paging parameter is set only when its
      option is positive or non-empty; every other parameter is kept. */
  method OptsToQuery(base: Values, opts: FetchOptions) returns (q: Values)
    ensures SetWhen(q, base, LimitParam, opts.limit > 0, Itoa(opts.limit))
    ensures SetWhen(q, base, OffsetParam, opts.offset > 0, Itoa(opts.offset))
    ensures SetWhen(q, base, SortParam, opts.sort != "", opts.sort)
    ensures SetWhen(q, base, TagsParam, |opts.tags| > 0, Join(opts.tags))
    ensures forall k :: k != LimitParam && k != OffsetParam && k != SortParam && k != TagsParam ==>
      (k in q <==> k in base) && (k in base ==> q[k] == base[k])
  {
    q := base;
    if opts.limit > 0 {
      q := q[LimitParam := [Itoa(opts.limit)]];
    }
    if opts.offset > 0 {
      q := q[OffsetParam := [Itoa(opts.offset)]];
    }
    if opts.sort != "" {
      q := q[SortParam := [opts.sort]];
    }
    if |opts.tags| > 0 {
      q := q[TagsParam := [Join(opts.tags)]];
    }
  }

  /** On a base URL without paging parameters, the first page of a request
      (offset 0) sends no `_offset`, and `_limit` carries the decimal value of
      the limit. */
  lemma FirstPageQuery(base: Values, opts: FetchOptions, q: Values)
    requires OffsetParam !in base && LimitParam !in base
    requires opts.offset == 0 && opts.limit > 0
    requires SetWhen(q, base, LimitParam, opts.limit > 0, Itoa(opts.limit))
    requires SetWhen(q, base, OffsetParam, opts.offset > 0, Itoa(opts.offset))
    ensures OffsetParam !in q
    ensures LimitParam in q && |q[LimitParam]| == 1 && DigitsValue(q[LimitParam][0]) == opts.limit
  {
  }
}
