/** The snapshot the cache serves, and the refresh of lib/cache.js stated as a
    function of the previous cache state and the upstream data. The class in
    module ReleaseCache is proved to perform exactly this refresh; the lemmas
    here state what the refresh promises. */
module Snapshots {
  import opened Wrappers
  import opened Releases

  /** The platform classifier: an asset's file name to a platform tag, or none. */
  type Classifier = string -> Option<string>

  /** Outcome of the retried download of the manifest asset at each position of
      the release's asset list; None when the download threw. */
  type ManifestFetches = nat -> Option<string>

  /** A normalised asset as stored in `latest.assets` and `latest.platforms`;
      `sizeTenths` is the size in tenths of a megabyte. */
  datatype CachedAsset = CachedAsset(
    name: string,
    apiUrl: string,
    url: string,
    contentType: string,
    sizeTenths: int)

  /** `this.latest`: every field is absent until a refresh writes it. */
  datatype Snapshot = Snapshot(
    version: Option<string>,
    notes: Option<string>,
    pubDate: Option<string>,
    platforms: Option<map<string, CachedAsset>>,
    assets: Option<seq<CachedAsset>>,
    files: Option<map<string, string>>)

  /** The `{}` the constructor starts from. */
  const EmptySnapshot: Snapshot := Snapshot(None, None, None, None, None, None)

  /** The cache's whole state: the snapshot and the time of the last refresh. */
  datatype CacheState = CacheState(latest: Snapshot, lastUpdate: Option<int>)

  predicate IsManifest(asset: Asset)
  {
    asset.name == ManifestName
  }

  function Normalize(asset: Asset): CachedAsset
  {
    CachedAsset(asset.name, asset.url, asset.browserDownloadUrl, asset.contentType,
                TenthsOfMegabyte(asset.size))
  }

  /** `latest.assets` after the loop has seen `assets`. */
  function AssetList(assets: seq<Asset>): seq<CachedAsset>
  {
    if assets == [] then []
    else
      var previous := AssetList(assets[..|assets| - 1]);
      var last := assets[|assets| - 1];
      if IsManifest(last) then previous else previous + [Normalize(last)]
  }

  /** The asset is listed and the classifier gives it the platform `p`
      (an empty tag is falsy and counts as no platform). */
  predicate ClassifiedAs(asset: Asset, classify: Classifier, p: string)
  {
    !IsManifest(asset) && Truthy(classify(asset.name)) && classify(asset.name).value == p
  }

  /** `latest.platforms` after the loop has seen `assets`. */
  function PlatformMap(assets: seq<Asset>, classify: Classifier): map<string, CachedAsset>
  {
    if assets == [] then map[]
    else
      var previous := PlatformMap(assets[..|assets| - 1], classify);
      var last := assets[|assets| - 1];
      if !IsManifest(last) && Truthy(classify(last.name)) then
        previous[classify(last.name).value := Normalize(last)]
      else
        previous
  }

  /** `latest.files` after the loop has seen `assets`, starting from `files`. */
  function FilesAfter(assets: seq<Asset>, fetched: ManifestFetches,
                      files: Option<map<string, string>>): Option<map<string, string>>
  {
    if assets == [] then files
    else
      var i := |assets| - 1;
      var previous := FilesAfter(assets[..i], fetched, files);
      if !IsManifest(assets[i]) then previous
      else
        var created := if previous.Some? then previous.value else map[];
        match fetched(i)
        case None => Some(created)
        case Some(text) => Some(created[ManifestName := text])
  }

  /** The entry under `key` of an optional file map. */
  function Lookup(files: Option<map<string, string>>, key: string): Option<string>
  {
    if files.Some? && key in files.value then Some(files.value[key]) else None
  }

  /** The list holds a release the cache can act on: a non-empty array whose
      first eligible release has an asset array. */
  predicate Determined(data: ReleaseList, pre: bool)
  {
    && data.ReleaseArray?
    && |data.items| > 0
    && FindRelease(data.items, pre).Some?
    && data.items[FindRelease(data.items, pre).value].assets.Some?
  }

  function Selected(data: ReleaseList, pre: bool): Release
    requires Determined(data, pre)
  {
    data.items[FindRelease(data.items, pre).value]
  }

  /** The state `refreshCache` leaves behind once the release list `data` has
      been fetched at time `now`. */
  function Refresh(s: CacheState, pre: bool, data: ReleaseList, classify: Classifier,
                   fetched: ManifestFetches, now: int): (t: CacheState)
    ensures t.lastUpdate == s.lastUpdate || t.lastUpdate == Some(now)
    ensures t.latest.version == s.latest.version ==> t.latest == s.latest
  {
    if !Determined(data, pre) then s
    else
      var release := Selected(data, pre);
      if s.latest.version == Some(release.tagName) then s.(lastUpdate := Some(now))
      else
        var assets := release.assets.value;
        CacheState(
          Snapshot(Some(release.tagName), Some(release.body), Some(release.publishedAt),
                   Some(PlatformMap(assets, classify)), Some(AssetList(assets)),
                   FilesAfter(assets, fetched, s.latest.files)),
          Some(now))
  }

  // ---------------------------------------------------------------------------
  // The asset list: upstream order, manifest left out, each asset normalised.

  lemma {:induction false} AssetListAppend(xs: seq<Asset>, ys: seq<Asset>)
    ensures AssetList(xs + ys) == AssetList(xs) + AssetList(ys)
    decreases |ys|
  {
    if ys == [] {
      assert xs + ys == xs;
    } else {
      var zs := xs + ys;
      var ys' := ys[..|ys| - 1];
      assert zs[..|zs| - 1] == xs + ys';
      assert zs[|zs| - 1] == ys[|ys| - 1];
      AssetListAppend(xs, ys');
    }
  }

  lemma AssetListSingleton(a: Asset)
    ensures AssetList([a]) == if IsManifest(a) then [] else [Normalize(a)]
  {
    assert [a][..0] == [];
  }

  lemma {:induction false} AssetListMembership(xs: seq<Asset>, c: CachedAsset)
    ensures c in AssetList(xs) <==>
            exists k :: 0 <= k < |xs| && !IsManifest(xs[k]) && c == Normalize(xs[k])
    decreases |xs|
  {
    if xs != [] {
      var init := xs[..|xs| - 1];
      AssetListMembership(init, c);
      if c in AssetList(init) {
        var k :| 0 <= k < |init| && !IsManifest(init[k]) && c == Normalize(init[k]);
        assert xs[k] == init[k];
      }
      if exists k :: 0 <= k < |xs| && !IsManifest(xs[k]) && c == Normalize(xs[k]) {
        var k :| 0 <= k < |xs| && !IsManifest(xs[k]) && c == Normalize(xs[k]);
        if k < |init| {
          assert init[k] == xs[k];
        }
      }
    }
  }

  /** The manifest never appears in the asset list. */
  lemma {:induction false} AssetListExcludesManifest(xs: seq<Asset>)
    ensures forall c :: c in AssetList(xs) ==> c.name != ManifestName
  {
    forall c | c in AssetList(xs) ensures c.name != ManifestName {
      AssetListMembership(xs, c);
    }
  }

  // ---------------------------------------------------------------------------
  // The platform map: the last listed asset of each platform wins.

  lemma {:induction false} PlatformHasLastWitness(xs: seq<Asset>, classify: Classifier, p: string)
    requires p in PlatformMap(xs, classify)
    ensures exists k :: 0 <= k < |xs| && ClassifiedAs(xs[k], classify, p)
                        && PlatformMap(xs, classify)[p] == Normalize(xs[k])
                        && forall j :: k < j < |xs| ==> !ClassifiedAs(xs[j], classify, p)
    decreases |xs|
  {
    var n := |xs| - 1;
    var init := xs[..n];
    if ClassifiedAs(xs[n], classify, p) {
      assert PlatformMap(xs, classify)[p] == Normalize(xs[n]);
    } else {
      assert p in PlatformMap(init, classify);
      PlatformHasLastWitness(init, classify, p);
      var k :| 0 <= k < |init| && ClassifiedAs(init[k], classify, p)
               && PlatformMap(init, classify)[p] == Normalize(init[k])
               && forall j :: k < j < |init| ==> !ClassifiedAs(init[j], classify, p);
      assert xs[k] == init[k];
      forall j | k < j < |xs| ensures !ClassifiedAs(xs[j], classify, p) {
        if j < n {
          assert xs[j] == init[j];
        }
      }
    }
  }

  lemma {:induction false} PlatformIsLast(xs: seq<Asset>, classify: Classifier, p: string, k: nat)
    requires k < |xs| && ClassifiedAs(xs[k], classify, p)
    requires forall j :: k < j < |xs| ==> !ClassifiedAs(xs[j], classify, p)
    ensures p in PlatformMap(xs, classify) && PlatformMap(xs, classify)[p] == Normalize(xs[k])
    decreases |xs|
  {
    var n := |xs| - 1;
    var init := xs[..n];
    if k < n {
      assert init[k] == xs[k];
      forall j | k < j < |init| ensures !ClassifiedAs(init[j], classify, p) {
        assert init[j] == xs[j];
      }
      PlatformIsLast(init, classify, p, k);
      assert !ClassifiedAs(xs[n], classify, p);
    }
  }

  /** Only classified assets have platform entries, and every platform entry
      is one of the listed assets. */
  lemma {:induction false} PlatformsAreListedAssets(xs: seq<Asset>, classify: Classifier)
    ensures forall p :: p in PlatformMap(xs, classify) ==>
              PlatformMap(xs, classify)[p] in AssetList(xs)
  {
    forall p | p in PlatformMap(xs, classify)
      ensures PlatformMap(xs, classify)[p] in AssetList(xs)
    {
      PlatformHasLastWitness(xs, classify, p);
      AssetListMembership(xs, PlatformMap(xs, classify)[p]);
    }
  }

  // ---------------------------------------------------------------------------
  // The file map: created by the first manifest asset, written by each
  // successful manifest download, never cleared.

  lemma {:induction false} FilesPresence(xs: seq<Asset>, fetched: ManifestFetches,
                                          files: Option<map<string, string>>)
    ensures FilesAfter(xs, fetched, files).Some? <==>
            files.Some? || exists k :: 0 <= k < |xs| && IsManifest(xs[k])
    decreases |xs|
  {
    if xs != [] {
      var n := |xs| - 1;
      var init := xs[..n];
      FilesPresence(init, fetched, files);
      if exists k :: 0 <= k < |init| && IsManifest(init[k]) {
        var k :| 0 <= k < |init| && IsManifest(init[k]);
        assert xs[k] == init[k];
      }
      if exists k :: 0 <= k < |xs| && IsManifest(xs[k]) {
        var k :| 0 <= k < |xs| && IsManifest(xs[k]);
        if k < n {
          assert init[k] == xs[k];
        }
      }
    }
  }

  /** Keys other than the manifest's are never touched. */
  lemma {:induction false} FilesOtherKeysUnchanged(xs: seq<Asset>, fetched: ManifestFetches,
                                                    files: Option<map<string, string>>, key: string)
    requires key != ManifestName
    ensures Lookup(FilesAfter(xs, fetched, files), key) == Lookup(files, key)
    decreases |xs|
  {
    if xs != [] {
      FilesOtherKeysUnchanged(xs[..|xs| - 1], fetched, files, key);
    }
  }

  /** The manifest entry holds the text of the last successful download. */
  lemma {:induction false} ManifestFromLastSuccess(xs: seq<Asset>, fetched: ManifestFetches,
                                                    files: Option<map<string, string>>, k: nat)
    requires k < |xs| && IsManifest(xs[k]) && fetched(k).Some?
    requires forall j :: k < j < |xs| && IsManifest(xs[j]) ==> fetched(j).None?
    ensures Lookup(FilesAfter(xs, fetched, files), ManifestName) == fetched(k)
    decreases |xs|
  {
    var n := |xs| - 1;
    var init := xs[..n];
    if k < n {
      assert init[k] == xs[k];
      forall j | k < j < |init| && IsManifest(init[j]) ensures fetched(j).None? {
        assert init[j] == xs[j];
      }
      ManifestFromLastSuccess(init, fetched, files, k);
    }
  }

  /** Failed downloads leave the manifest entry as it was: the previous value,
      or absent if it never had one. */
  lemma {:induction false} ManifestKeptOnFailure(xs: seq<Asset>, fetched: ManifestFetches,
                                                  files: Option<map<string, string>>)
    requires forall k :: 0 <= k < |xs| && IsManifest(xs[k]) ==> fetched(k).None?
    ensures Lookup(FilesAfter(xs, fetched, files), ManifestName) == Lookup(files, ManifestName)
    decreases |xs|
  {
    if xs != [] {
      var init := xs[..|xs| - 1];
      forall k | 0 <= k < |init| && IsManifest(init[k]) ensures fetched(k).None? {
        assert init[k] == xs[k];
      }
      ManifestKeptOnFailure(init, fetched, files);
    }
  }

  // ---------------------------------------------------------------------------
  // The refresh.

  /** Without a usable release the refresh changes nothing, not even the time. */
  lemma RefreshWithoutReleaseIsNoOp(s: CacheState, pre: bool, data: ReleaseList,
                                    classify: Classifier, fetched: ManifestFetches, now: int)
    requires || data.NotAList?
             || (data.ReleaseArray? && |data.items| == 0)
             || (data.ReleaseArray? && forall j :: 0 <= j < |data.items| ==> !Eligible(data.items[j], pre))
             || (data.ReleaseArray? && FindRelease(data.items, pre).Some?
                 && data.items[FindRelease(data.items, pre).value].assets.None?)
    ensures Refresh(s, pre, data, classify, fetched, now) == s
  {
  }

  /** The refresh acts on the first eligible release of the list. */
  lemma RefreshUsesFirstEligible(data: ReleaseList, pre: bool, k: nat)
    requires Determined(data, pre)
    requires k < |data.items| && Eligible(data.items[k], pre)
    ensures Eligible(Selected(data, pre), pre)
    ensures exists j :: 0 <= j <= k && Selected(data, pre) == data.items[j]
  {
  }

  /** An unchanged tag moves only the refresh time forward. */
  lemma RefreshSameTag(s: CacheState, pre: bool, data: ReleaseList,
                       classify: Classifier, fetched: ManifestFetches, now: int)
    requires Determined(data, pre) && s.latest.version == Some(Selected(data, pre).tagName)
    ensures Refresh(s, pre, data, classify, fetched, now).latest == s.latest
    ensures Refresh(s, pre, data, classify, fetched, now).lastUpdate == Some(now)
  {
  }

  /** A new tag yields a consistent snapshot of the selected release: its tag,
      notes and date, its assets in order without the manifest, and a platform
      map whose entries are listed assets. */
  lemma RefreshNewTag(s: CacheState, pre: bool, data: ReleaseList,
                      classify: Classifier, fetched: ManifestFetches, now: int)
    requires Determined(data, pre) && s.latest.version != Some(Selected(data, pre).tagName)
    ensures var t := Refresh(s, pre, data, classify, fetched, now);
            var release := Selected(data, pre);
            && t.lastUpdate == Some(now)
            && t.latest.version == Some(release.tagName)
            && t.latest.notes == Some(release.body)
            && t.latest.pubDate == Some(release.publishedAt)
            && t.latest.assets.Some? && t.latest.platforms.Some?
            && (forall c :: c in t.latest.assets.value ==> c.name != ManifestName)
            && (forall p :: p in t.latest.platforms.value ==>
                  t.latest.platforms.value[p] in t.latest.assets.value)
  {
    var assets := Selected(data, pre).assets.value;
    AssetListExcludesManifest(assets);
    PlatformsAreListedAssets(assets, classify);
  }

  /** A refresh moves the refresh time exactly when the list held a usable
      release. */
  lemma RefreshStampsIffDetermined(s: CacheState, pre: bool, data: ReleaseList,
                                   classify: Classifier, fetched: ManifestFetches, now: int)
    ensures Refresh(s, pre, data, classify, fetched, now).lastUpdate ==
            if Determined(data, pre) then Some(now) else s.lastUpdate
  {
  }

  /** Refreshing again from the same upstream data leaves the content as the
      first refresh made it. */
  lemma RefreshTwiceSameContent(s: CacheState, pre: bool, data: ReleaseList, classify: Classifier,
                                fetched: ManifestFetches, now: int, later: int)
    ensures var once := Refresh(s, pre, data, classify, fetched, now);
            Refresh(once, pre, data, classify, fetched, later).latest == once.latest
  {
  }

  /** The file map survives a change of version: a new release without a
      successfully downloaded manifest keeps the previous release's entry. */
  lemma StaleManifestSurvivesNewTag(s: CacheState, pre: bool, data: ReleaseList,
                                    classify: Classifier, fetched: ManifestFetches, now: int)
    requires Determined(data, pre) && s.latest.version != Some(Selected(data, pre).tagName)
    requires var assets := Selected(data, pre).assets.value;
             forall k :: 0 <= k < |assets| && IsManifest(assets[k]) ==> fetched(k).None?
    ensures Lookup(Refresh(s, pre, data, classify, fetched, now).latest.files, ManifestName) ==
            Lookup(s.latest.files, ManifestName)
  {
    ManifestKeptOnFailure(Selected(data, pre).assets.value, fetched, s.latest.files);
  }

  /** A classifier that knows one Windows and one macOS file name. */
  function ExampleClassifier(name: string): Option<string>
  {
    if name == "app-win.exe" then Some("win")
    else if name == "app-mac.dmg" then Some("mac")
    else None
  }

  /** A release with a Windows and a macOS asset: both are listed in order and
      each is the entry of its platform. */
  lemma TwoPlatformExample(win: Asset, mac: Asset, pre: bool, fetched: ManifestFetches, now: int)
    requires win.name == "app-win.exe" && mac.name == "app-mac.dmg"
    ensures var data := ReleaseArray([Release(false, pre, "v2.0.0", "", "", Some([win, mac]))]);
            var t := Refresh(CacheState(EmptySnapshot, None), pre, data, ExampleClassifier, fetched, now);
            && t.latest.version == Some("v2.0.0")
            && t.latest.assets == Some([Normalize(win), Normalize(mac)])
            && t.latest.platforms == Some(map["win" := Normalize(win), "mac" := Normalize(mac)])
  {
    var xs := [win, mac];
    assert xs[..1] == [win] && xs[..1][..0] == [] && xs[..|xs| - 1] == [win];
    assert !IsManifest(win) && !IsManifest(mac);
    assert ExampleClassifier(win.name) == Some("win");
    assert ExampleClassifier(mac.name) == Some("mac");
    assert AssetList([win]) == [Normalize(win)];
    assert PlatformMap([win], ExampleClassifier) == map["win" := Normalize(win)];
    var data := ReleaseArray([Release(false, pre, "v2.0.0", "", "", Some(xs))]);
    assert FindRelease(data.items, pre) == Some(0);
    assert Determined(data, pre) && Selected(data, pre).assets == Some(xs);
    assert AssetList(xs) == [Normalize(win), Normalize(mac)];
    assert PlatformMap(xs, ExampleClassifier) == map["win" := Normalize(win), "mac" := Normalize(mac)];
  }
}
