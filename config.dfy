/** The configuration package: the platform and feed-format enumerations,
    the built-in defaults, and the one check `Load` makes on what it read. */
module Config {
  import opened Wrappers

  type Platform = string
  type FeedFormat = string

  const PlatformWindows: Platform := "windows"
  const PlatformMac: Platform := "mac"
  const PlatformPS5: Platform := "ps5"
  const PlatformXBoxSeriesX: Platform := "xboxseriesx"

  const FormatRSS: FeedFormat := "rss"
  const FormatAtom: FeedFormat := "atom"
  const FormatJSON: FeedFormat := "json"

  /** Durations are Go `time.Duration` values: whole nanoseconds. */
  const Second: int := 1_000_000_000
  const Minute: int := 60 * Second

  const DefaultAPIURL: string := "https://embed.modhub.io/v1/games/6715/mods"
  const DefaultListen: string := ":8080"
  const DefaultSort: string := "recent"
  const DefaultMaxItems: int := 100
  const DefaultFetchInterval: int := 5 * Minute
  const DefaultFormat: FeedFormat := FormatAtom

  /** `Platform.IsValid`: one of the four named platforms. */
  predicate PlatformIsValid(p: Platform)
  {
    p == PlatformWindows || p == PlatformMac || p == PlatformPS5 || p == PlatformXBoxSeriesX
  }

  /** `FeedFormat.IsValid`: one of the three named formats. */
  predicate FormatIsValid(f: FeedFormat)
  {
    f == FormatRSS || f == FormatAtom || f == FormatJSON
  }

  /** Exactly the four platform names are valid; in particular the unset
      (empty) platform is not. */
  lemma PlatformValidity(p: Platform)
    ensures PlatformIsValid(p) <==> p in {"windows", "mac", "ps5", "xboxseriesx"}
    ensures !PlatformIsValid("")
  {
  }

  /** Exactly the three format names are valid; the empty format is not. */
  lemma FormatValidity(f: FeedFormat)
    ensures FormatIsValid(f) <==> f in {"rss", "atom", "json"}
    ensures !FormatIsValid("")
  {
  }

  datatype Configuration = Configuration(
    listen: string,
    apiUrl: string,
    tags: seq<string>,
    platform: Platform,
    maxFeedItems: int,
    sort: string,
    fetchInterval: int,
    format: FeedFormat)

  datatype ConfigError = InvalidFeedFormat(format: FeedFormat)

  /** The configuration that results when no file, environment variable or
      flag supplies a value: the defaults registered with viper, and the zero
      value for tags and platform, which have none. */
  const DefaultConfiguration: Configuration :=
    Configuration(DefaultListen, DefaultAPIURL, [], "", DefaultMaxItems,
                  DefaultSort, DefaultFetchInterval, DefaultFormat)

  /** The validation at the end of `Load`: a configuration is accepted
      unchanged exactly when its format is valid, and otherwise rejected with
      an error naming the format. */
  function CheckFormat(c: Configuration): (r: Result<Configuration, ConfigError>)
    ensures r.Ok? <==> FormatIsValid(c.format)
    ensures r.Ok? ==> r.value == c
    ensures r.Err? ==> r.error == InvalidFeedFormat(c.format)
  {
    if !FormatIsValid(c.format) then Err(InvalidFeedFormat(c.format)) else Ok(c)
  }

  /** The defaults pass the check: the default format is valid. */
  lemma DefaultConfigurationAccepted()
    ensures FormatIsValid(DefaultFormat)
    ensures CheckFormat(DefaultConfiguration) == Ok(DefaultConfiguration)
  {
  }
}
