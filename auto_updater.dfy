/** The updater: which asset of a release is the Windows installer, the list of
    versions the user chose to skip, where the latest release is asked for, and when a
    fetched release is offered as an update. The HTTP transfer and the JSON decoding are
    functions the updater is given. */
module Updater {

  import opened Wrappers
  import opened Text
  import opened Versions

  /** One downloadable file of a release. */
  datatype ReleaseAsset = ReleaseAsset(name: string, downloadUrl: string, contentType: string, size: int)

  /** A release as the updater fills it in from the release document. */
  datatype ReleaseInfo = ReleaseInfo(
    tagName: string, name: string, body: string, publishedAt: string, htmlUrl: string,
    version: Version, assets: seq<ReleaseAsset>, prerelease: bool, draft: bool)

  /** The updater's settings that the model reads. */
  datatype UpdateConfig = UpdateConfig(
    githubOwner: string, githubRepo: string, customUpdateUrl: string, checkForPrereleases: bool)

  /** The application's own version: 1.0.0 with no prerelease, the build defaults. */
  const CurrentVersion := Version(1, 0, 0, "")

  /** Name fragments that mark an installer, in the order they are tried. */
  const InstallerPatterns: seq<string> := [".exe", ".msi", "-setup", "-win64"]

  /** Name fragments that mark an asset for another platform. */
  predicate ForOtherPlatform(lowerName: string)
  {
    Contains(lowerName, "linux") || Contains(lowerName, "macos") || Contains(lowerName, "darwin")
  }

  /** The asset `find_installer` accepts: its lower-cased name names no other platform and
      contains one of the installer patterns. */
  predicate IsWindowsInstaller(asset: ReleaseAsset)
  {
    InstallerName(ToLower(asset.name))
  }

  predicate InstallerName(lower: string)
  {
    !ForOtherPlatform(lower) && HasInstallerPattern(lower)
  }

  /** The lower-cased name contains one of the installer patterns. */
  predicate HasInstallerPattern(lower: string)
  {
    exists p :: 0 <= p < |InstallerPatterns| && Contains(lower, InstallerPatterns[p])
  }

  /** The first accepted asset in list order, if any; it is the asset itself, with its name
      as published. */
  function FirstInstaller(assets: seq<ReleaseAsset>): (r: Option<ReleaseAsset>)
    ensures r.Some? ==>
      exists i :: 0 <= i < |assets| && assets[i] == r.value && IsWindowsInstaller(assets[i])
        && forall j :: 0 <= j < i ==> !IsWindowsInstaller(assets[j])
    ensures r.None? <==> forall i :: 0 <= i < |assets| ==> !IsWindowsInstaller(assets[i])
  {
    if assets == [] then None
    else if IsWindowsInstaller(assets[0]) then Some(assets[0])
    else
      var r := FirstInstaller(assets[1..]);
      assert forall i :: 1 <= i < |assets| ==> assets[i] == assets[1..][i - 1];
      r
  }

  /** One asset of the scan: the search from `i` on either stops at asset `i`, when it is
      accepted, or goes on with the rest. */
  lemma FirstInstallerStep(assets: seq<ReleaseAsset>, i: nat, accepted: bool)
    requires i < |assets|
    requires accepted == IsWindowsInstaller(assets[i])
    ensures FirstInstaller(assets[i..]) == if accepted then Some(assets[i]) else FirstInstaller(assets[i + 1..])
  {
    assert assets[i..][0] == assets[i] && assets[i..][1..] == assets[i + 1..];
  }

  /** The inner loop of `find_installer`: whether the lower-cased name contains one of
      the installer patterns, tried in order. */
  method FindPattern(lower: string) returns (found: bool)
    ensures found == HasInstallerPattern(lower)
  {
    var patterns := InstallerPatterns;
    var p := 0;
    while p < |patterns|
      invariant 0 <= p <= |patterns|
      invariant forall q :: 0 <= q < p ==> !Contains(lower, patterns[q])
    {
      if Contains(lower, patterns[p]) {
        return true;
      }
      p := p + 1;
    }
    return false;
  }

  /** The body of the asset loop of `find_installer`: lower-case the name, skip it when it
      names another platform, otherwise look for an installer pattern. */
  method AcceptsAsset(asset: ReleaseAsset) returns (accepted: bool)
    ensures accepted == IsWindowsInstaller(asset)
  {
    var lower := ToLower(asset.name);
    if ForOtherPlatform(lower) {
      return false;
    }
    accepted := FindPattern(lower);
  }

  /** `ReleaseInfo::find_installer`: the first asset, in list order, that the loop body
      accepts. */
  method FindInstaller(release: ReleaseInfo) returns (r: Option<ReleaseAsset>)
    ensures r == FirstInstaller(release.assets)
  {
    var assets := release.assets;
    ghost var first := FirstInstaller(assets);
    assert assets[0..] == assets;
    var i := 0;
    while i < |assets|
      invariant 0 <= i <= |assets|
      invariant FirstInstaller(assets[i..]) == first
    {
      var accepted := AcceptsAsset(assets[i]);
      FirstInstallerStep(assets, i, accepted);
      if accepted {
        return Some(assets[i]);
      }
      i := i + 1;
    }
    return None;
  }

  /** No two entries of the ignored list are equal. */
  predicate NoDuplicates(list: seq<Version>)
  {
    forall i, j :: 0 <= i < j < |list| ==> list[i] != list[j]
  }

  /** The ignored list after `ignore_version(v)`: `v` is appended unless already there. */
  function WithIgnored(list: seq<Version>, v: Version): (r: seq<Version>)
    ensures forall x :: x in r <==> x in list || x == v
    ensures NoDuplicates(list) ==> NoDuplicates(r)
    ensures |list| <= |r| <= |list| + 1 && r[..|list|] == list
  {
    if v in list then list else list + [v]
  }

  /** Ignoring a version twice is the same as ignoring it once. */
  lemma IgnoreIdempotent(list: seq<Version>, v: Version)
    ensures WithIgnored(WithIgnored(list, v), v) == WithIgnored(list, v)
  {
  }

  /** The response of the HTTP GET: the body, and the error text when it failed. */
  datatype HttpResult = HttpResult(body: string, error: string)

  /** What the JSON library makes of the `assets` array, which the updater reads only once
      the tag is a version: the assets (none when the array is missing), or the text of the
      exception a malformed entry threw. */
  datatype DecodedAssets = AssetList(items: seq<ReleaseAsset>) | AssetFailure(what: string)

  /** What the JSON library makes of a response body: the fields the updater reads (with
      their defaults already applied), or the text of the exception it threw on them. */
  datatype Decoded =
    | DecodeFailure(what: string)
    | ReleaseDocument(
        tagName: string, name: string, body: string, publishedAt: string, htmlUrl: string,
        prerelease: bool, draft: bool, assets: DecodedAssets)

  /** Where the latest release is asked for: the custom URL when one is set, otherwise the
      GitHub API's latest release of the configured repository. */
  function UpdateUrl(config: UpdateConfig): (url: string)
    ensures config.customUpdateUrl != "" ==> url == config.customUpdateUrl
    ensures config.customUpdateUrl == "" ==>
      url == "https://api.github.com/repos/" + config.githubOwner + "/" + config.githubRepo + "/releases/latest"
  {
    if config.customUpdateUrl != "" then config.customUpdateUrl
    else "https://api.github.com/repos/" + config.githubOwner + "/" + config.githubRepo + "/releases/latest"
  }

  /** With no custom URL, the request names the owner and then the repository, as path
      segments of the API's release endpoint. */
  lemma DefaultUrlNamesRepository(config: UpdateConfig)
    requires config.customUpdateUrl == ""
    ensures var prefix := "https://api.github.com/repos/";
      var url := UpdateUrl(config);
      OccursAt(url, prefix, 0)
      && OccursAt(url, config.githubOwner, |prefix|)
      && OccursAt(url, "/" + config.githubRepo, |prefix| + |config.githubOwner|)
      && OccursAt(url, "/releases/latest", |url| - |"/releases/latest"|)
  {
    var prefix := "https://api.github.com/repos/";
    var owner := config.githubOwner;
    var repo := "/" + config.githubRepo;
    var tail := "/releases/latest";
    var url := UpdateUrl(config);
    assert url == prefix + owner + repo + tail;
    assert url[..|prefix|] == prefix;
    assert url[|prefix|..|prefix| + |owner|] == owner;
    assert url[|prefix| + |owner|..|prefix| + |owner| + |repo|] == repo;
    assert url[|url| - |tail|..] == tail;
  }

  /** The three conditions under which a release with a parsed version is offered: it is
      not a prerelease the settings skip, its version is not ignored, and it is newer than
      the running version. */
  predicate Offered(config: UpdateConfig, ignored: seq<Version>, release: ReleaseInfo)
  {
    !(release.prerelease && !config.checkForPrereleases)
    && release.version !in ignored
    && Greater(release.version, CurrentVersion)
  }

  /** The running version is never offered, nor any older one, nor a version once ignored. */
  lemma NeverOfferedBack(config: UpdateConfig, ignored: seq<Version>, release: ReleaseInfo)
    requires LessOrEqual(release.version, CurrentVersion) || release.version in ignored
    ensures !Offered(config, ignored, release)
  {
  }

  /** After `ignore_version(v)`, no release of version `v` is offered again, whatever else
      is ignored later. */
  lemma IgnoredStaysRejected(config: UpdateConfig, ignored: seq<Version>, v: Version, later: seq<Version>, release: ReleaseInfo)
    requires release.version == v
    ensures !Offered(config, WithIgnored(ignored, v) + later, release)
  {
  }

  /** A release marked prerelease is offered only when prereleases are asked for. */
  lemma PrereleaseNeedsOptIn(config: UpdateConfig, ignored: seq<Version>, release: ReleaseInfo)
    requires release.prerelease && Offered(config, ignored, release)
    ensures config.checkForPrereleases
  {
  }

  /** The draft flag of a release plays no part in whether it is offered. */
  lemma DraftFlagIgnored(config: UpdateConfig, ignored: seq<Version>, release: ReleaseInfo)
    ensures Offered(config, ignored, release) <==> Offered(config, ignored, release.(draft := !release.draft))
  {
  }

  /** The updater's state. The error callback is represented by whether one is set
      and the messages it has been given. */
  class AutoUpdater {
    var config: UpdateConfig
    var ignoredVersions: seq<Version>
    var cachedRelease: Option<ReleaseInfo>
    var lastCheckTime: string
    var hasErrorCallback: bool
    var reportedErrors: seq<string>

    predicate Valid()
      reads this
    {
      NoDuplicates(ignoredVersions)
    }

    constructor(config: UpdateConfig)
      ensures Valid()
      ensures this.config == config && ignoredVersions == [] && cachedRelease == None
      ensures lastCheckTime == "" && !hasErrorCallback && reportedErrors == []
    {
      this.config := config;
      ignoredVersions := [];
      cachedRelease := None;
      lastCheckTime := "";
      hasErrorCallback := false;
      reportedErrors := [];
    }

    /** `on_error`: installs the error callback. */
    method OnError()
      modifies this
      ensures hasErrorCallback
      ensures config == old(config) && ignoredVersions == old(ignoredVersions)
      ensures cachedRelease == old(cachedRelease) && lastCheckTime == old(lastCheckTime)
      ensures reportedErrors == old(reportedErrors)
    {
      hasErrorCallback := true;
    }

    /** `is_version_ignored`: a linear search of the ignored list, as `std::find` does. */
    method IsVersionIgnored(v: Version) returns (r: bool)
      ensures r <==> v in ignoredVersions
    {
      var i := 0;
      while i < |ignoredVersions|
        invariant 0 <= i <= |ignoredVersions|
        invariant forall j :: 0 <= j < i ==> ignoredVersions[j] != v
      {
        if ignoredVersions[i] == v {
          return true;
        }
        i := i + 1;
      }
      return false;
    }

    /** `ignore_version`: appends the version unless it is already ignored. */
    method IgnoreVersion(v: Version)
      requires Valid()
      modifies this
      ensures Valid()
      ensures ignoredVersions == WithIgnored(old(ignoredVersions), v)
      ensures v in ignoredVersions
      ensures config == old(config) && cachedRelease == old(cachedRelease)
      ensures lastCheckTime == old(lastCheckTime) && hasErrorCallback == old(hasErrorCallback)
      ensures reportedErrors == old(reportedErrors)
    {
      var ignored := IsVersionIgnored(v);
      if !ignored {
        ignoredVersions := ignoredVersions + [v];
      }
    }

    /** `check_for_updates_sync`, given the HTTP GET, the JSON decoder and the time text
        `ctime` would give. A failed request or a decoder exception on the document's
        fields reaches the error callback; a tag that is not a version is dropped silently,
        before the assets are read, so a malformed asset reaches the callback only behind a
        version tag; after the check time is recorded a release is returned and cached
        exactly when it is `Offered`. */
    method CheckForUpdatesSync(fetch: string -> HttpResult, decode: string -> Decoded, now: string)
      returns (r: Option<ReleaseInfo>)
      modifies this
      ensures config == old(config) && ignoredVersions == old(ignoredVersions)
      ensures hasErrorCallback == old(hasErrorCallback)
      ensures var response := fetch(UpdateUrl(config));
        var decoded := decode(response.body);
        if response.body == "" then
          r == None && cachedRelease == old(cachedRelease) && lastCheckTime == old(lastCheckTime)
          && reportedErrors == old(reportedErrors) + (if hasErrorCallback then [response.error] else [])
        else if decoded.DecodeFailure? then
          r == None && cachedRelease == old(cachedRelease) && lastCheckTime == old(lastCheckTime)
          && reportedErrors == old(reportedErrors) + (if hasErrorCallback then ["Parse error: " + decoded.what] else [])
        else if Parse(decoded.tagName).None? then
          r == None && cachedRelease == old(cachedRelease) && lastCheckTime == old(lastCheckTime)
          && reportedErrors == old(reportedErrors)
        else if decoded.assets.AssetFailure? then
          r == None && cachedRelease == old(cachedRelease) && lastCheckTime == old(lastCheckTime)
          && reportedErrors == old(reportedErrors)
             + (if hasErrorCallback then ["Parse error: " + decoded.assets.what] else [])
        else
          var release := ReleaseFrom(decoded, Parse(decoded.tagName).value);
          lastCheckTime == now && reportedErrors == old(reportedErrors)
          && (if Offered(config, ignoredVersions, release)
              then r == Some(release) && cachedRelease == r
              else r == None && cachedRelease == old(cachedRelease))
    {
      var url := UpdateUrl(config);
      var response := fetch(url);
      if response.body == "" {
        if hasErrorCallback {
          reportedErrors := reportedErrors + [response.error];
        }
        return None;
      }
      var decoded := decode(response.body);
      if decoded.DecodeFailure? {
        if hasErrorCallback {
          reportedErrors := reportedErrors + ["Parse error: " + decoded.what];
        }
        return None;
      }
      var version := Parse(decoded.tagName);
      if version.None? {
        return None;
      }
      if decoded.assets.AssetFailure? {
        if hasErrorCallback {
          reportedErrors := reportedErrors + ["Parse error: " + decoded.assets.what];
        }
        return None;
      }
      var release := ReleaseFrom(decoded, version.value);
      lastCheckTime := now;
      if release.prerelease && !config.checkForPrereleases {
        return None;
      }
      var ignored := IsVersionIgnored(release.version);
      if ignored {
        return None;
      }
      if Greater(release.version, CurrentVersion) {
        cachedRelease := Some(release);
        return Some(release);
      }
      return None;
    }
  }

  /** The release the updater builds from a decoded document and its parsed tag. */
  function ReleaseFrom(doc: Decoded, version: Version): (r: ReleaseInfo)
    requires doc.ReleaseDocument? && doc.assets.AssetList?
    ensures r.tagName == doc.tagName && r.version == version && r.assets == doc.assets.items
    ensures r.prerelease == doc.prerelease && r.draft == doc.draft
  {
    ReleaseInfo(doc.tagName, doc.name, doc.body, doc.publishedAt, doc.htmlUrl, version,
                doc.assets.items, doc.prerelease, doc.draft)
  }
}
