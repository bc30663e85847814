/** The `Cache` class of lib/cache.js: the latest release snapshot and the time
    of the last refresh, updated in place by `refreshCache` and `loadCache`.
    Network fetches are passed in as their outcomes, the clock as `now`. */
module ReleaseCache {
  import opened Wrappers
  import opened Releases
  import opened Snapshots

  class Cache {
    const config: Config
    var latest: Snapshot
    var lastUpdate: Option<int>

    /** The cache's state as a value, for stating what the methods do. */
    function State(): CacheState
      reads this
    {
      CacheState(latest, lastUpdate)
    }

    constructor (config: Config)
      requires CheckConfig(config).None?
      ensures this.config == config && latest == EmptySnapshot && lastUpdate == None
    {
      this.config := config;
      latest := EmptySnapshot;
      lastUpdate := None;
    }

    /** `new Cache(config)`: validates the configuration, throwing
        `missing_configuration_properties` when the repository coordinates are
        missing or a token comes without a URL; otherwise an empty cache. */
    static method Create(config: Config) returns (r: Result<Cache, CacheError>)
      ensures r.Failure? <==>
              || !Truthy(config.account) || !Truthy(config.repository)
              || (Truthy(config.token) && !Truthy(config.url))
      ensures r.Failure? ==> r.error.ConfigurationError? && r.error.code == MissingConfigurationCode
      ensures r.Success? ==> fresh(r.value) && r.value.config == config
                             && r.value.latest == EmptySnapshot && r.value.lastUpdate == None
    {
      var error := CheckConfig(config);
      if error.Some? {
        return Failure(error.value);
      }
      var cache := new Cache(config);
      return Success(cache);
    }

    /** `refreshCache`, once the retried release-list fetch has produced
        `response` (None: it threw) at time `now`. */
    method RefreshCache(response: Option<ReleaseList>, classify: Classifier,
                        fetched: ManifestFetches, now: int) returns (r: Outcome<CacheError>)
      modifies this
      ensures response.None? ==> r == Fail(FetchError) && State() == old(State())
      ensures response.Some? ==>
                r == Pass &&
                State() == Refresh(old(State()), config.pre, response.value, classify, fetched, now)
    {
      if response.None? {
        return Fail(FetchError);
      }
      r := Pass;
      var data := response.value;
      if data.NotAList? || |data.items| == 0 {
        return;
      }
      var found := FindRelease(data.items, config.pre);
      if found.None? || data.items[found.value].assets.None? {
        return;
      }
      var release := data.items[found.value];
      var tagName := release.tagName;
      if latest.version == Some(tagName) {
        lastUpdate := Some(now);
        return;
      }

      latest := latest.(version := Some(tagName));
      latest := latest.(notes := Some(release.body));
      latest := latest.(pubDate := Some(release.publishedAt));

      latest := latest.(platforms := Some(map[]));
      latest := latest.(assets := Some([]));
      var assets := release.assets.value;
      var i := 0;
      while i < |assets|
        invariant 0 <= i <= |assets|
        invariant latest.version == Some(tagName) && latest.notes == Some(release.body)
        invariant latest.pubDate == Some(release.publishedAt)
        invariant latest.assets == Some(AssetList(assets[..i]))
        invariant latest.platforms == Some(PlatformMap(assets[..i], classify))
        invariant latest.files == FilesAfter(assets[..i], fetched, old(latest.files))
        invariant lastUpdate == old(lastUpdate)
      {
        var asset := assets[i];
        assert assets[..i + 1][..i] == assets[..i];
        if asset.name == ManifestName {
          if latest.files.None? {
            latest := latest.(files := Some(map[]));
          }
          var text := fetched(i);
          if text.Some? {
            latest := latest.(files := Some(latest.files.value[ManifestName := text.value]));
          }
          i := i + 1;
          continue;
        }

        var platform := classify(asset.name);
        latest := latest.(assets := Some(latest.assets.value + [Normalize(asset)]));
        if !Truthy(platform) {
          i := i + 1;
          continue;
        }
        latest := latest.(platforms := Some(latest.platforms.value[platform.value := Normalize(asset)]));
        i := i + 1;
      }
      assert assets[..i] == assets;
      lastUpdate := Some(now);
    }

    /** `isOutdated` at time `now`. */
    predicate IsOutdated(now: int)
      reads this
      ensures IsOutdated(now) <==>
              && lastUpdate.Some? && lastUpdate.value != 0
              && now - lastUpdate.value > (if config.interval.Some? then config.interval.value else 15) * 60000
    {
      Outdated(lastUpdate, now, config)
    }

    /** `loadCache` at time `now`: refreshes when the cache was never refreshed
        or is outdated, propagates a failed release-list fetch, and otherwise
        returns a copy of the snapshot as it stands after any refresh. */
    method LoadCache(now: int, response: Option<ReleaseList>, classify: Classifier,
                     fetched: ManifestFetches) returns (r: Result<Snapshot, CacheError>)
      modifies this
      ensures !(!Updated(old(lastUpdate)) || old(IsOutdated(now))) ==>
                State() == old(State()) && r == Success(latest)
      ensures (!Updated(old(lastUpdate)) || old(IsOutdated(now))) && response.None? ==>
                State() == old(State()) && r == Failure(FetchError)
      ensures (!Updated(old(lastUpdate)) || old(IsOutdated(now))) && response.Some? ==>
                State() == Refresh(old(State()), config.pre, response.value, classify, fetched, now)
                && r == Success(latest)
    {
      if !Updated(lastUpdate) || IsOutdated(now) {
        var outcome := RefreshCache(response, classify, fetched, now);
        if outcome.Fail? {
          return Failure(outcome.error);
        }
      }
      return Success(latest);
    }
  }

  /** Two loads within the staleness interval, after the first one found a
      usable release, fetch the release list only once: the second load is
      served from the cache and returns what the first returned. */
  method LoadTwiceWithinInterval(config: Config, response: ReleaseList, classify: Classifier,
                                 fetched: ManifestFetches, first: int, second: int)
    returns (r1: Result<Snapshot, CacheError>, r2: Result<Snapshot, CacheError>)
    requires CheckConfig(config).None? && Determined(response, config.pre)
    requires first != 0 && first <= second <= first + IntervalMillis(config)
    ensures r1.Success? && r2 == r1
    ensures r1.value.version == Some(Selected(response, config.pre).tagName)
  {
    var cache := new Cache(config);
    r1 := cache.LoadCache(first, Some(response), classify, fetched);
    RefreshNewTag(CacheState(EmptySnapshot, None), config.pre, response, classify, fetched, first);
    r2 := cache.LoadCache(second, None, classify, fetched);
  }

  /** An empty release list is not remembered: the next load fetches again. */
  method LoadEmptyListTwice(config: Config, classify: Classifier, fetched: ManifestFetches,
                            first: int, second: int)
    returns (r1: Result<Snapshot, CacheError>, r2: Result<Snapshot, CacheError>)
    requires CheckConfig(config).None?
    ensures r1 == Success(EmptySnapshot)
    ensures r2 == Failure(FetchError)
  {
    var cache := new Cache(config);
    r1 := cache.LoadCache(first, Some(ReleaseArray([])), classify, fetched);
    r2 := cache.LoadCache(second, None, classify, fetched);
  }
}
