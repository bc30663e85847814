# Release cache of an update server, in Dafny

This project models the `Cache` class of the update server (`lib/cache.js`):
a staleness-gated cache of the latest GitHub release of an application. The
cache keeps the snapshot `latest` (`version`, `notes`, `pub_date`,
`platforms`, `assets`, `files`) and the time of the last refresh
`lastUpdate`. `refreshCache` picks the first non-draft release of the
configured channel from the upstream release list, skips the work when the
tag is unchanged, and otherwise rewrites the snapshot: the asset list in
upstream order, the per-platform download entries (last asset of a platform
wins), and the auxiliary manifest `releases.win.json`, which is downloaded
into `files` instead of being listed. `loadCache` refreshes when the cache
was never refreshed or is older than the interval, then returns a copy of
the snapshot.

Modules:

- `Wrappers` (`wrappers.dfy`): `Option`, `Result`, `Outcome`.
- `Releases` (`releases.dfy`): the configuration, the upstream release
  records, configuration validation, the choice of release (`FindRelease`),
  the rounding of sizes to tenths of a megabyte and the staleness test
  (`Outdated`).
- `Snapshots` (`snapshots.dfy`): the snapshot, and the refresh as a function
  `Refresh` of the previous cache state and the fetched data, built from
  `AssetList`, `PlatformMap` and `FilesAfter`; the lemmas state what a
  refresh promises.
- `ReleaseCache` (`cache.dfy`): the class `Cache` with fields `config`,
  `latest` and `lastUpdate`; `Create` (the throwing constructor),
  `RefreshCache` (the field-by-field update with its asset loop), proved to
  perform exactly `Refresh`; `IsOutdated`, defined as the staleness rule;
  `LoadCache`, proved to refresh exactly when that rule or a missing refresh
  time asks for it; and two client methods that follow sequences of loads.

Inputs the source obtains from outside are parameters: the parsed release
list (`None` when the retried fetch or the JSON parsing threw), the outcome
of each manifest download by asset position (`None` when it threw), the
platform classifier, and the current time `now`.

JavaScript truthiness is kept where the code relies on it: `account`,
`repository`, `token` and `url` are falsy when absent or empty; a platform
tag `""` counts as no platform; `lastUpdate` is falsy when null or `0`, so a
refresh stamped at time 0 counts as no refresh (`Updated`).

Two consequences of the code are worth stating:

- A failed manifest download leaves `files['releases.win.json']` at its
  previous value, not absent, because `files` is never cleared between
  versions; a new version can therefore serve the previous version's manifest
  (`StaleManifestSurvivesNewTag`).
- The snapshot is updated in place field by field rather than swapped in
  whole; with calls modelled as sequential this is not observable.

## Model

| member | source | states |
|---|---|---|
| `ReleaseCache.Cache.Create` | lib/cache.js:11-30 | fails with code `missing_configuration_properties` exactly when account or repository is falsy, or a token is set without a URL; otherwise a fresh cache with an empty snapshot and no refresh time |
| `ReleaseCache.Cache.constructor` | lib/cache.js:29-30 | a valid configuration gives `latest` empty and `lastUpdate` null |
| `ReleaseCache.Cache.RefreshCache` | lib/cache.js:67-166 | a failed list fetch raises and changes nothing; otherwise the new `latest` and `lastUpdate` are exactly `Refresh` of the old state, the fetched list and `now` |
| `ReleaseCache.Cache.IsOutdated` | lib/cache.js:168-177 | true exactly when `lastUpdate` is truthy (set and non-zero) and `now - lastUpdate > interval * 60000`, with `interval` defaulting to 15 |
| `Snapshots.Refresh` | lib/cache.js:94-165 | the state `refreshCache` leaves after a successful list fetch: the refresh time is either kept or set to `now`, and the snapshot changes only when its version changes |
| `ReleaseCache.Cache.LoadCache` | lib/cache.js:182-190 | refreshes exactly when `lastUpdate` is falsy or outdated; a failed fetch propagates with the state unchanged; otherwise returns a copy equal to `latest` after any refresh |
| `ReleaseCache.LoadTwiceWithinInterval` | lib/cache.js:168-190 | after a load that found a usable release, a second load within the interval does not fetch (it succeeds even when no list is available) and returns the same snapshot |
| `ReleaseCache.LoadEmptyListTwice` | lib/cache.js:94-96 | an empty release list leaves the snapshot empty and the time unset, so the next load fetches again (and fails when that fetch fails) |
| `Releases.FindRelease` | lib/cache.js:98-101 | the chosen release is eligible (not a draft, pre-release flag equal to the channel) and no earlier release is; none is chosen only when no release is eligible |
| `Releases.TenthsOfMegabyte` | lib/cache.js:148 | the stored size is the nearest tenth of a megabyte to the byte size, halves rounded up |
| `Releases.TenthsOfMegabyteExample` | lib/cache.js:160 | 15234567 bytes are stored as 15.2 MB; 50000 bytes round up to 0.1 MB |
| `Releases.OutdatedOnlyAfterInterval` | lib/cache.js:168-177 | the cache is not outdated within `interval` minutes (default 15) of a refresh, is outdated after more than that unless the refresh time is 0, and once outdated stays outdated |
| `Snapshots.AssetListAppend` | lib/cache.js:124-149 | the asset list of a concatenation is the concatenation of the asset lists: upstream order is kept |
| `Snapshots.AssetListSingleton` | lib/cache.js:127-149 | a single asset contributes nothing when it is the manifest and its normalised record otherwise |
| `Snapshots.AssetListMembership` | lib/cache.js:141-149 | an entry is in the asset list exactly when it is the normalised record of some non-manifest asset |
| `Snapshots.AssetListExcludesManifest` | lib/cache.js:127-139 | no entry of the asset list is named `releases.win.json` |
| `Snapshots.PlatformHasLastWitness` | lib/cache.js:151-161 | every platform entry is the normalised record of an asset classified to that platform, and no later asset is classified to it |
| `Snapshots.PlatformIsLast` | lib/cache.js:151-161 | the last asset classified to a platform is that platform's entry |
| `Snapshots.PlatformsAreListedAssets` | lib/cache.js:141-161 | every platform entry is also an entry of the asset list |
| `Snapshots.FilesPresence` | lib/cache.js:127-131 | `files` exists after the loop exactly when it existed before or some asset is the manifest, whether or not its download succeeded |
| `Snapshots.FilesOtherKeysUnchanged` | lib/cache.js:127-138 | keys other than `releases.win.json` are never touched |
| `Snapshots.ManifestFromLastSuccess` | lib/cache.js:132-134 | the manifest entry holds the text of the last successful manifest download |
| `Snapshots.ManifestKeptOnFailure` | lib/cache.js:135-138 | when every manifest download fails the manifest entry keeps its previous value, or stays absent |
| `Snapshots.RefreshWithoutReleaseIsNoOp` | lib/cache.js:94-105 | a non-list or empty response, no eligible release, or a chosen release without an asset array leaves snapshot and refresh time unchanged |
| `Snapshots.RefreshUsesFirstEligible` | lib/cache.js:98-101 | the refresh acts on an eligible release no later in the list than any eligible one |
| `Snapshots.RefreshSameTag` | lib/cache.js:107-113 | an unchanged tag leaves the snapshot exactly as it was and sets the refresh time to `now` |
| `Snapshots.RefreshNewTag` | lib/cache.js:115-165 | a new tag gives version, notes and date of the chosen release, an asset list without the manifest, platform entries that are listed assets, and refresh time `now` |
| `Snapshots.RefreshStampsIffDetermined` | lib/cache.js:94-113 | the refresh time moves to `now` exactly when the list held a usable release |
| `Snapshots.RefreshTwiceSameContent` | lib/cache.js:107-119 | refreshing again from the same list leaves the snapshot as the first refresh made it |
| `Snapshots.StaleManifestSurvivesNewTag` | lib/cache.js:122-138 | a new version whose manifest download fails or is missing keeps the previous version's manifest entry |
| `Snapshots.TwoPlatformExample` | lib/cache.js:117-161 | a release with a Windows and a macOS asset yields version `v2.0.0`, both assets in order, and one platform entry for each |

## Left out

- Network access: the URL and header building, `node-fetch`, `async-retry`
  with `{ retries: 3 }` and `stream-to-string` (lib/cache.js:38-92) are
  represented only by their outcomes; the retry count is the library's and is
  not stated.
- JSON parsing: the response is given as a `ReleaseList`; release fields are
  taken as already converted (`draft` and `prerelease` as their truthiness,
  `tag_name`, `body` and `published_at` as strings, `size` as an integer).
- The platform classifier `./platform` is not part of this model; it is a
  parameter.
- Logging (`console.log`, `console.error`) is dropped.
- The clock: `Date.now()` is the parameter `now`; `LoadCache` uses the same
  `now` for the staleness test and for stamping the refresh.
- `ms(...)`: the interval is an integer number of minutes, converted as
  `interval * 60000`; other string forms `ms` accepts are not modelled.
- TenthsOfMegabyte: states integer rounding of the exact quotient; IEEE
  floating-point error in `size / 1000000 * 10` at exact halves is not
  modelled.
- Concurrency: overlapping asynchronous `refreshCache` calls are not
  modelled; calls are sequential.
- Aliasing: `loadCache`'s shallow copy is a value here; in the source the
  copy shares the `files` object, which a later refresh mutates in place, and
  the `platforms` and `assets` objects of the snapshot it was copied from.
- Create: the source's constructor throws; a Dafny constructor cannot, so
  `Create` performs the check and the constructor requires a valid
  configuration.
- lib/index.js: turning a construction error into an HTTP 400 body and the
  route wiring are not part of this model.
