/** The cache's configuration, the upstream release records it consumes and the
    pure decisions lib/cache.js takes on them: configuration validation, the
    choice of release, the rounding of asset sizes and the staleness test. */
module Releases {
  import opened Wrappers

  /** Name of the auxiliary manifest asset that is fetched instead of listed. */
  const ManifestName: string := "releases.win.json"

  /** Error code of both configuration errors raised by the constructor. */
  const MissingConfigurationCode: string := "missing_configuration_properties"

  const MissingRepositoryMessage: string := "Neither ACCOUNT, nor REPOSITORY are defined"
  const MissingUrlMessage: string :=
    "Neither VERCEL_URL, nor URL are defined, which are mandatory for private repo mode"

  /** Staleness interval, in minutes, when the configuration gives none. */
  const DefaultIntervalMinutes: int := 15
  const MillisPerMinute: int := 60000

  /** JavaScript truthiness of an optional string: absent and "" are falsy. */
  predicate Truthy(s: Option<string>)
  {
    s.Some? && s.value != ""
  }

  /** The configuration object handed to the constructor; `pre` is already
      `Boolean(pre)`. */
  datatype Config = Config(
    account: Option<string>,
    repository: Option<string>,
    token: Option<string>,
    url: Option<string>,
    pre: bool,
    interval: Option<int>)

  /** The two error kinds the cache raises: a rejected configuration at
      construction, and a release-list fetch that failed after its retries. */
  datatype CacheError =
    | ConfigurationError(code: string, message: string)
    | FetchError

  /** The error the constructor throws for `config`, if any. */
  function CheckConfig(config: Config): Option<CacheError>
  {
    if !Truthy(config.account) || !Truthy(config.repository) then
      Some(ConfigurationError(MissingConfigurationCode, MissingRepositoryMessage))
    else if Truthy(config.token) && !Truthy(config.url) then
      Some(ConfigurationError(MissingConfigurationCode, MissingUrlMessage))
    else
      None
  }

  /** One entry of a release's `assets` array. */
  datatype Asset = Asset(
    name: string,
    url: string,
    browserDownloadUrl: string,
    contentType: string,
    size: int)

  /** One entry of the release list; `assets` is None when the field is
      missing or not an array. */
  datatype Release = Release(
    draft: bool,
    prerelease: bool,
    tagName: string,
    body: string,
    publishedAt: string,
    assets: Option<seq<Asset>>)

  /** The parsed body of the release-list response. */
  datatype ReleaseList = NotAList | ReleaseArray(items: seq<Release>)

  /** A release may be served on the configured channel. */
  predicate Eligible(release: Release, pre: bool)
  {
    !release.draft && release.prerelease == pre
  }

  /** Position of the release `data.find` picks: the first eligible one. */
  function FindRelease(releases: seq<Release>, pre: bool): (k: Option<nat>)
    ensures k.Some? ==> k.value < |releases| && Eligible(releases[k.value], pre)
    ensures k.Some? ==> forall j :: 0 <= j < k.value ==> !Eligible(releases[j], pre)
    ensures k.None? ==> forall j :: 0 <= j < |releases| ==> !Eligible(releases[j], pre)
  {
    if releases == [] then None
    else if Eligible(releases[0], pre) then Some(0)
    else match FindRelease(releases[1..], pre)
      case None => None
      case Some(k) => Some(k + 1)
  }

  /** `Math.round(size / 1000000 * 10) / 10` expressed in tenths of a
      megabyte: the nearest tenth, halves rounded up. */
  function TenthsOfMegabyte(size: int): (tenths: int)
    ensures 100000 * tenths - 50000 <= size < 100000 * tenths + 50000
  {
    (size + 50000) / 100000
  }

  lemma TenthsOfMegabyteExample()
    ensures TenthsOfMegabyte(15234567) == 152
    ensures TenthsOfMegabyte(50000) == 1 && TenthsOfMegabyte(49999) == 0
  {
  }

  /** JavaScript truthiness of the last-refresh time: null and 0 are falsy. */
  predicate Updated(lastUpdate: Option<int>)
  {
    lastUpdate.Some? && lastUpdate.value != 0
  }

  /** `ms(`${interval}m`)` with `interval` defaulting to 15. */
  function IntervalMillis(config: Config): int
  {
    (if config.interval.Some? then config.interval.value else DefaultIntervalMinutes) * MillisPerMinute
  }

  /** The staleness test of `isOutdated` at time `now`. */
  predicate Outdated(lastUpdate: Option<int>, now: int, config: Config)
  {
    Updated(lastUpdate) && now - lastUpdate.value > IntervalMillis(config)
  }

  /** A snapshot stays fresh for the whole interval after a refresh at `at`,
      is outdated once more than the interval has passed (unless the refresh
      time is the falsy 0), and once outdated stays outdated as time goes on. */
  lemma OutdatedOnlyAfterInterval(at: int, now: int, later: int, config: Config)
    ensures now - at <= IntervalMillis(config) ==> !Outdated(Some(at), now, config)
    ensures at != 0 && now - at > IntervalMillis(config) ==> Outdated(Some(at), now, config)
    ensures Outdated(Some(at), now, config) && now <= later ==> Outdated(Some(at), later, config)
  {
  }
}
