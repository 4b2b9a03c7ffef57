/** Feed options: the sparse per-request override record parsed from the
    query string, the merge of overrides into the configured defaults, and
    the resolution of sort aliases to upstream sort fields. */
module Options {
  import opened Wrappers
  import opened Text
  import opened Config
  import opened Fetch

  /** `GeneratorOptions`. A zero or empty field means "unset" in an override. */
  datatype GeneratorOptions = GeneratorOptions(
    maxItems: int,
    sort: string,
    tags: seq<string>,
    platform: Platform,
    fetchInterval: int,
    format: FeedFormat)
  {
    /** `Merge`: each override field replaces this one only when it passes
        its guard; everything else is kept. */
    function Merge(overrides: GeneratorOptions): (r: GeneratorOptions)
      ensures r.maxItems == (if overrides.maxItems > 0 then overrides.maxItems else maxItems)
      ensures r.sort == (if overrides.sort != "" then overrides.sort else sort)
      ensures r.platform == (if overrides.platform != "" then overrides.platform else platform)
      ensures r.tags == (if |overrides.tags| > 0 then overrides.tags else tags)
      ensures r.fetchInterval == (if overrides.fetchInterval > 0 then overrides.fetchInterval else fetchInterval)
      ensures r.format == (if FormatIsValid(overrides.format) then overrides.format else format)
    {
      var g := this;
      var g := if overrides.maxItems > 0 then g.(maxItems := overrides.maxItems) else g;
      var g := if overrides.sort != "" then g.(sort := overrides.sort) else g;
      var g := if overrides.platform != "" then g.(platform := overrides.platform) else g;
      var g := if |overrides.tags| > 0 then g.(tags := overrides.tags) else g;
      var g := if overrides.fetchInterval > 0 then g.(fetchInterval := overrides.fetchInterval) else g;
      var g := if FormatIsValid(overrides.format) then g.(format := overrides.format) else g;
      g
    }

    /** `GetSort`: the upstream sort field these options ask for. The result
        is never empty and never itself an alias. */
    function GetSort(): (r: string)
      ensures r != "" && r !in SortAliases
      ensures sort == "" ==> r == SortAliases["recent"]
      ensures sort in SortAliases ==> r == SortAliases[sort]
      ensures sort != "" && sort !in SortAliases ==> r == sort
    {
      if sort == "" then SortAliases["recent"]
      else if sort in SortAliases then SortAliases[sort]
      else sort
    }
  }

  /** The empty override: every field unset. */
  const Unset: GeneratorOptions := GeneratorOptions(0, "", [], "", 0, "")

  /** `sortAliases`: friendly names for upstream sort fields. */
  const SortAliases: map<string, string> := map[
    "recent" := "-date_live",
    "last_updated" := "-date_updated",
    "trending" := "-downloads_today",
    "highest_rated" := "-ratings_weighted_aggregate",
    "popular" := "-downloads_total",
    "subscribers" := "-subscribers_total",
    "alphabetical" := "name"]

  /** `OptionsFromQuery`. The integer and duration parsers (`strconv.Atoi`,
      `time.ParseDuration`) are given as functions yielding `None` on a parse
      error. Platform and format are only ever set to valid values, the sort
      is the raw `sort` parameter, and the tags re-join to the raw `tags`
      parameter. */
  function OptionsFromQuery(q: Values, atoi: string -> Option<int>, parseDuration: string -> Option<int>)
    : (r: GeneratorOptions)
    ensures r.maxItems == (match atoi(Get(q, "max_items")) case Some(n) => n case None => 0)
    ensures r.sort == Get(q, "sort")
    ensures r.tags == [] <==> Get(q, "tags") == ""
    ensures Join(r.tags) == Get(q, "tags")
    ensures Get(q, "tags") != "" ==> r.tags == Split(Get(q, "tags"))
    ensures r.platform == "" || PlatformIsValid(r.platform)
    ensures r.platform == (if PlatformIsValid(Get(q, "platform")) then Get(q, "platform") else "")
    ensures r.fetchInterval == (match parseDuration(Get(q, "fetch_interval")) case Some(d) => d case None => 0)
    ensures r.format == "" || FormatIsValid(r.format)
    ensures r.format == (if FormatIsValid(Get(q, "format")) then Get(q, "format") else "")
  {
    var opts := Unset;
    var opts := match atoi(Get(q, "max_items")) case Some(n) => opts.(maxItems := n) case None => opts;
    var sort := Get(q, "sort");
    var opts := if sort != "" then opts.(sort := sort) else opts;
    var tags := Get(q, "tags");
    var opts := if tags != "" then opts.(tags := Split(tags)) else opts;
    var platform := Get(q, "platform");
    var opts := if PlatformIsValid(platform) then opts.(platform := platform) else opts;
    var opts := match parseDuration(Get(q, "fetch_interval")) case Some(d) => opts.(fetchInterval := d) case None => opts;
    var format := Get(q, "format");
    var opts := if FormatIsValid(format) then opts.(format := format) else opts;
    JoinSplit(tags);
    opts
  }

  /** Merging the empty override changes nothing. */
  lemma MergeUnsetIdentity(base: GeneratorOptions)
    ensures base.Merge(Unset) == base
  {
  }

  /** Merging the same override twice is the same as merging it once. */
  lemma MergeIdempotent(base: GeneratorOptions, o: GeneratorOptions)
    ensures base.Merge(o).Merge(o) == base.Merge(o)
  {
  }

  /** Merging two overrides one after the other is merging their merge. */
  lemma MergeAssociative(base: GeneratorOptions, o1: GeneratorOptions, o2: GeneratorOptions)
    ensures base.Merge(o1).Merge(o2) == base.Merge(o1.Merge(o2))
  {
  }

  /** A valid base format stays valid after any merge. */
  lemma MergeKeepsValidFormat(base: GeneratorOptions, o: GeneratorOptions)
    requires FormatIsValid(base.format)
    ensures FormatIsValid(base.Merge(o).format)
  {
  }

  /** An unset sort resolves like the "recent" alias. */
  lemma EmptySortIsRecent(o: GeneratorOptions)
    requires o.sort == ""
    ensures o.GetSort() == o.(sort := "recent").GetSort() == "-date_live"
  {
  }

  /** No alias target is itself an alias, so resolving a resolved sort
      returns it unchanged. */
  lemma GetSortStable(o: GeneratorOptions)
    ensures o.(sort := o.GetSort()).GetSort() == o.GetSort()
  {
  }

  /** The default sort is an alias. */
  lemma DefaultSortIsAlias()
    ensures DefaultSort in SortAliases
  {
  }

  /** A platform or format parameter that is not one of the known values is
      treated as absent: the configured default stays in force. */
  lemma InvalidQueryValuesKeepDefaults(defaults: GeneratorOptions, q: Values,
                                       atoi: string -> Option<int>, parseDuration: string -> Option<int>)
    ensures !PlatformIsValid(Get(q, "platform")) ==>
      defaults.Merge(OptionsFromQuery(q, atoi, parseDuration)).platform == defaults.platform
    ensures !FormatIsValid(Get(q, "format")) ==>
      defaults.Merge(OptionsFromQuery(q, atoi, parseDuration)).format == defaults.format
  {
  }

  /** An empty query gives the empty override, provided the parsers reject
      the empty string (as `strconv.Atoi` and `time.ParseDuration` do). */
  lemma EmptyQueryIsUnset(atoi: string -> Option<int>, parseDuration: string -> Option<int>)
    requires atoi("") == None && parseDuration("") == None
    ensures OptionsFromQuery(map[], atoi, parseDuration) == Unset
  {
  }
}
