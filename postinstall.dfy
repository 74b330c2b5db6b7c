/** The package's install step (bin/postinstall.js): pick the release artifact for
    the host platform, resolve its download URL from the release metadata or a
    fixed fallback, follow HTTP redirects while downloading it into the package's
    `binaries` directory, and mark it executable.

    The network is a map from URL to response, the release metadata is a value
    handed in, and the filesystem is the state of a `Host` object. */
module Postinstall {
  import opened Outcomes

  /** Repository that publishes the artifacts. */
  const Repo := "eat-pray-ai/yutu"
  /** Release the fallback URL points at. */
  const Version := "latest"
  /** The release-metadata request: host api.github.com, path /repos/{Repo}/releases/latest. */
  const MetadataUrl := "https://api.github.com/repos/" + Repo + "/releases/latest"
  /** 0o666: the mode a file is opened with for writing, before the umask and any chmod. */
  const CreatedMode := 438
  /** 0o755: the mode the installer gives the artifact on non-Windows hosts. */
  const ExecutableMode := 493

  datatype Error =
    | UnsupportedPlatform(os: string, arch: string)
    | RequestFailed(url: string)
    | DownloadFailed(status: int)

  // ---------------------------------------------------------------------------
  // Platform mapping and artifact name

  /** Node's platform name to the Go name used in release file names. */
  function OsName(os: string): Option<string> {
    if os == "darwin" then Some("darwin")
    else if os == "linux" then Some("linux")
    else if os == "win32" then Some("windows")
    else None
  }

  /** Node's architecture name to the Go name used in release file names. */
  function ArchName(arch: string): Option<string> {
    if arch == "x64" then Some("amd64")
    else if arch == "arm64" then Some("arm64")
    else None
  }

  predicate Supported(os: string, arch: string) {
    OsName(os).Some? && ArchName(arch).Some?
  }

  predicate HasExeSuffix(s: string) {
    |s| >= 4 && s[|s| - 4..] == ".exe"
  }

  /** The release file name `yutu-{os}-{arch}`, with `.exe` on Windows; an
      unsupported platform is an error, raised before any request is made. */
  function FileName(os: string, arch: string): (r: Result<string, Error>)
    ensures r.Success? <==> os in {"darwin", "linux", "win32"} && arch in {"x64", "arm64"}
    ensures r.Failure? ==> r.error == UnsupportedPlatform(os, arch)
    ensures r.Success? ==> |r.value| > 5 && r.value[..5] == "yutu-"
    ensures r.Success? ==> (HasExeSuffix(r.value) <==> os == "win32")
  {
    var mappedOs := OsName(os);
    var mappedArch := ArchName(arch);
    if mappedOs.None? || mappedArch.None? then
      Failure(UnsupportedPlatform(os, arch))
    else
      var binaryName := "yutu-" + mappedOs.value + "-" + mappedArch.value;
      assert binaryName[|binaryName| - 4..] == mappedArch.value[|mappedArch.value| - 4..];
      Success(if os == "win32" then binaryName + ".exe" else binaryName)
  }

  /** The artifact names on macOS: the system name is kept, x64 becomes amd64. */
  lemma SupportedFileNamesDarwin()
    ensures FileName("darwin", "x64") == Success("yutu-darwin-amd64")
    ensures FileName("darwin", "arm64") == Success("yutu-darwin-arm64")
  {
    assert OsName("darwin") == Some("darwin");
    assert ArchName("x64") == Some("amd64");
    assert "yutu-" + "darwin" + "-" + "amd64" == "yutu-darwin-amd64";
    assert ArchName("arm64") == Some("arm64");
    assert "yutu-" + "darwin" + "-" + "arm64" == "yutu-darwin-arm64";
  }

  /** The artifact names on Linux: the system name is kept, x64 becomes amd64. */
  lemma SupportedFileNamesLinux()
    ensures FileName("linux", "x64") == Success("yutu-linux-amd64")
    ensures FileName("linux", "arm64") == Success("yutu-linux-arm64")
  {
    assert OsName("linux") == Some("linux");
    assert ArchName("x64") == Some("amd64");
    assert "yutu-" + "linux" + "-" + "amd64" == "yutu-linux-amd64";
    assert ArchName("arm64") == Some("arm64");
    assert "yutu-" + "linux" + "-" + "arm64" == "yutu-linux-arm64";
  }

  /** The artifact names on Windows: win32 becomes windows, x64 becomes amd64, and `.exe` is added. */
  lemma SupportedFileNamesWindows()
    ensures FileName("win32", "x64") == Success("yutu-windows-amd64.exe")
    ensures FileName("win32", "arm64") == Success("yutu-windows-arm64.exe")
  {
    assert OsName("win32") == Some("windows");
    assert ArchName("x64") == Some("amd64");
    assert "yutu-" + "windows" + "-" + "amd64" + ".exe" == "yutu-windows-amd64.exe";
    assert ArchName("arm64") == Some("arm64");
    assert "yutu-" + "windows" + "-" + "arm64" + ".exe" == "yutu-windows-arm64.exe";
  }

  /** Distinct supported platforms get distinct artifacts. */
  lemma {:induction false} FileNameInjective(os1: string, arch1: string, os2: string, arch2: string)
    requires FileName(os1, arch1).Success? && FileName(os2, arch2).Success?
    requires FileName(os1, arch1).value == FileName(os2, arch2).value
    ensures os1 == os2 && arch1 == arch2
  {
    var n1, n2 := FileName(os1, arch1).value, FileName(os2, arch2).value;
    var p := "yutu-" + OsName(os1).value + "-";
    var a1, a2 := ArchName(arch1).value, ArchName(arch2).value;
    // Both architecture names have five letters and differ in the second.
    assert os1 == os2;
    assert n1[|p| + 1] == a1[1] && n2[|p| + 1] == a2[1];
  }

  // ---------------------------------------------------------------------------
  // Download URL

  datatype Asset = Asset(name: string, browserDownloadUrl: string)

  /** What the release-metadata request yields: the asset list of the latest
      release, or nothing usable (network error, unparsable body, no `assets`). */
  datatype Release = Unavailable | Release(assets: seq<Asset>)

  datatype BinaryUrl = BinaryUrl(url: string, fileName: string)

  /** Index of the first asset called exactly `name`. */
  function FindAsset(assets: seq<Asset>, name: string): (r: Option<nat>)
    ensures r.Some? ==> r.value < |assets| && assets[r.value].name == name
    ensures r.Some? ==> forall j :: 0 <= j < r.value ==> assets[j].name != name
    ensures r.None? <==> forall j :: 0 <= j < |assets| ==> assets[j].name != name
  {
    if assets == [] then None
    else if assets[0].name == name then Some(0)
    else
      match FindAsset(assets[1..], name)
      case None => None
      case Some(k) => Some(k + 1)
  }

  /** The release tag in URLs: `latest`, or `v` followed by the version. */
  function VersionTag(version: string): (tag: string)
    ensures version == "latest" ==> tag == version
    ensures version != "latest" ==> |tag| > 0 && tag[0] == 'v' && tag[1..] == version
  {
    if version == "latest" then "latest" else "v" + version
  }

  /** The URL used when the metadata gives no matching asset. */
  function FallbackUrl(fileName: string): (url: string)
    ensures |url| > |fileName| && url[|url| - |fileName| - 1..] == "/" + fileName
  {
    "https://github.com/" + Repo + "/releases/download/" + VersionTag(Version) + "/" + fileName
  }

  predicate HasAsset(release: Release, fileName: string) {
    release.Release? && exists i :: 0 <= i < |release.assets| && release.assets[i].name == fileName
  }

  /** The artifact's file name and the URL to fetch it from: the download URL of
      the first asset with exactly that name, or else the fallback URL. */
  function GetBinaryUrl(os: string, arch: string, release: Release): (r: Result<BinaryUrl, Error>)
    ensures r.Failure? <==> !Supported(os, arch)
    ensures r.Failure? ==> r.error == UnsupportedPlatform(os, arch)
    ensures r.Success? ==> FileName(os, arch) == Success(r.value.fileName)
    ensures r.Success? && HasAsset(release, r.value.fileName) ==>
      exists i :: 0 <= i < |release.assets| && release.assets[i].name == r.value.fileName
        && release.assets[i].browserDownloadUrl == r.value.url
        && forall j :: 0 <= j < i ==> release.assets[j].name != r.value.fileName
    ensures r.Success? && !HasAsset(release, r.value.fileName) ==> r.value.url == FallbackUrl(r.value.fileName)
  {
    match FileName(os, arch)
    case Failure(e) => Failure(e)
    case Success(fileName) =>
      var found := if release.Release? then FindAsset(release.assets, fileName) else None;
      if found.Some? then Success(BinaryUrl(release.assets[found.value].browserDownloadUrl, fileName))
      else Success(BinaryUrl(FallbackUrl(fileName), fileName))
  }

  // ---------------------------------------------------------------------------
  // Download with redirects

  datatype Response = Response(status: int, location: string, body: string)

  datatype DownloadEnd = Saved(body: string) | Failed(error: Error) | Unfinished

  /** The URLs requested, in order, and how the download ended. */
  datatype DownloadRun = DownloadRun(requested: seq<string>, end: DownloadEnd)

  predicate Redirects(http: map<string, Response>, url: string) {
    url in http && (http[url].status == 301 || http[url].status == 302)
  }

  /** The download of `url` when at most `fuel` requests are made: a 301 or 302
      re-requests its Location, 200 saves the body, any other status fails with
      that status, and a request that gets no response fails. `Unfinished` means
      the redirect chain is longer than `fuel`; the source has no bound. */
  function Download(http: map<string, Response>, url: string, fuel: nat): (r: DownloadRun)
    ensures |r.requested| <= fuel
    ensures fuel > 0 ==> |r.requested| > 0 && r.requested[0] == url
    ensures r.end.Unfinished? ==> |r.requested| == fuel
    decreases fuel
  {
    if fuel == 0 then DownloadRun([], Unfinished)
    else if url !in http then DownloadRun([url], Failed(RequestFailed(url)))
    else if Redirects(http, url) then
      var next := Download(http, http[url].location, fuel - 1);
      DownloadRun([url] + next.requested, next.end)
    else if http[url].status != 200 then DownloadRun([url], Failed(DownloadFailed(http[url].status)))
    else DownloadRun([url], Saved(http[url].body))
  }

  /** Every request but the last got a redirect to the next one. */
  ghost predicate FollowsRedirects(http: map<string, Response>, requested: seq<string>) {
    forall i :: 0 <= i < |requested| - 1 ==>
      Redirects(http, requested[i]) && http[requested[i]].location == requested[i + 1]
  }

  /** What the response to the last request says about the outcome. */
  ghost predicate EndsAs(http: map<string, Response>, requested: seq<string>, end: DownloadEnd) {
    requested != [] ==>
      var last := requested[|requested| - 1];
      match end
      case Saved(body) => last in http && http[last].status == 200 && http[last].body == body
      case Failed(RequestFailed(u)) => u == last && last !in http
      case Failed(DownloadFailed(s)) => last in http && http[last].status == s && s != 200 && !Redirects(http, last)
      case Failed(UnsupportedPlatform(_, _)) => false
      case Unfinished => Redirects(http, last)
  }

  /** A download is a chain of redirects followed by one final response. */
  lemma {:induction false} DownloadFollowsRedirectChain(http: map<string, Response>, url: string, fuel: nat)
    ensures FollowsRedirects(http, Download(http, url, fuel).requested)
    ensures EndsAs(http, Download(http, url, fuel).requested, Download(http, url, fuel).end)
    decreases fuel
  {
    if fuel > 0 && Redirects(http, url) {
      var next := Download(http, http[url].location, fuel - 1);
      DownloadFollowsRedirectChain(http, http[url].location, fuel - 1);
      var req := [url] + next.requested;
      forall i | 0 <= i < |req| - 1
        ensures Redirects(http, req[i]) && http[req[i]].location == req[i + 1]
      {
        if i > 0 {
          assert req[i] == next.requested[i - 1] && req[i + 1] == next.requested[i];
        }
      }
    }
  }

  /** A download that finishes within `n` requests ends the same way with any larger budget. */
  lemma {:induction false} DownloadFuelMonotone(http: map<string, Response>, url: string, n: nat, m: nat)
    requires n <= m
    requires !Download(http, url, n).end.Unfinished?
    ensures Download(http, url, m) == Download(http, url, n)
    decreases n
  {
    if Redirects(http, url) {
      DownloadFuelMonotone(http, http[url].location, n - 1, m - 1);
    }
  }

  // ---------------------------------------------------------------------------
  // Install

  datatype FileEntry = FileEntry(content: string, mode: int)

  /** What the destination holds after a download made at least one request:
      every attempt opens (and truncates) it, and only a 200 fills it and, off
      Windows, makes it executable. */
  function Written(end: DownloadEnd, os: string): (f: FileEntry)
    ensures end.Saved? ==> f.content == end.body
    ensures !end.Saved? ==> f.content == ""
    ensures f.mode == ExecutableMode <==> end.Saved? && os != "win32"
  {
    match end
    case Saved(body) => FileEntry(body, if os != "win32" then ExecutableMode else CreatedMode)
    case _ => FileEntry("", CreatedMode)
  }

  function BinariesDir(pkgRoot: string): string {
    pkgRoot + "/binaries"
  }

  /** The destination: an entry of the binaries directory named by the file. */
  function DestPath(pkgRoot: string, fileName: string): (p: string)
    ensures p != BinariesDir(pkgRoot)
    ensures |p| > |BinariesDir(pkgRoot)| && p[..|BinariesDir(pkgRoot)| + 1] == BinariesDir(pkgRoot) + "/"
    ensures p[|BinariesDir(pkgRoot)| + 1..] == fileName
  {
    BinariesDir(pkgRoot) + "/" + fileName
  }

  datatype InstallOutcome =
    | CiSkipped
    | AlreadyPresent
    | Installed
    | Aborted(error: Error)
    | DownloadUnfinished

  /** The process's exit status: 1 after any error, 0 otherwise, none while the
      download is still following redirects. */
  function ExitStatus(outcome: InstallOutcome): (code: Option<int>)
    ensures code == Some(1) <==> outcome.Aborted?
    ensures code == Some(0) <==> outcome.CiSkipped? || outcome.AlreadyPresent? || outcome.Installed?
    ensures code.None? <==> outcome.DownloadUnfinished?
  {
    match outcome
    case Aborted(_) => Some(1)
    case DownloadUnfinished => None
    case _ => Some(0)
  }

  /** An environment variable that JavaScript treats as set: present and non-empty. */
  predicate EnvSet(env: map<string, string>, name: string) {
    name in env && env[name] != ""
  }

  predicate ShouldInstall(env: map<string, string>) {
    !EnvSet(env, "CI") && !EnvSet(env, "GITHUB_ACTIONS")
  }

  /** The host the installer runs on: its platform, its filesystem and the
      outbound requests it has made. */
  class Host {
    const os: string
    const arch: string
    var dirs: set<string>
    var files: map<string, FileEntry>
    var requests: seq<string>

    constructor (os: string, arch: string, dirs: set<string>, files: map<string, FileEntry>)
      ensures this.os == os && this.arch == arch
      ensures this.dirs == dirs && this.files == files && requests == []
    {
      this.os := os;
      this.arch := arch;
      this.dirs := dirs;
      this.files := files;
      requests := [];
    }

    predicate Exists(path: string)
      reads this
    {
      path in dirs || path in files
    }

    /** The artifact name and URL; the metadata is requested only once the
        platform is known to be supported. */
    method ResolveBinaryUrl(release: Release) returns (r: Result<BinaryUrl, Error>)
      modifies this
      ensures r == GetBinaryUrl(os, arch, release)
      ensures requests == old(requests) + (if r.Success? then [MetadataUrl] else [])
      ensures dirs == old(dirs) && files == old(files)
    {
      var name := FileName(os, arch);
      if name.Failure? {
        return Failure(name.error);
      }
      requests := requests + [MetadataUrl];
      r := GetBinaryUrl(os, arch, release);
    }

    /** Downloads `url` into `dest`; each attempt, redirects included, first
        opens `dest` for writing. */
    method DownloadFile(http: map<string, Response>, url: string, dest: string, fuel: nat)
      returns (end: DownloadEnd)
      modifies this
      ensures end == Download(http, url, fuel).end
      ensures requests == old(requests) + Download(http, url, fuel).requested
      ensures files == if Download(http, url, fuel).requested == [] then old(files)
                       else old(files)[dest := Written(end, os)]
      ensures dirs == old(dirs)
      decreases fuel
    {
      if fuel == 0 {
        return Unfinished;
      }
      files := files[dest := FileEntry("", CreatedMode)];
      requests := requests + [url];
      if url !in http {
        return Failed(RequestFailed(url));
      }
      var response := http[url];
      if response.status == 302 || response.status == 301 {
        end := DownloadFile(http, response.location, dest, fuel - 1);
        return;
      }
      if response.status != 200 {
        return Failed(DownloadFailed(response.status));
      }
      files := files[dest := FileEntry(response.body, CreatedMode)];
      if os != "win32" {
        files := files[dest := FileEntry(response.body, ExecutableMode)];
      }
      end := Saved(response.body);
    }

    /** The effect of one install run. */
    twostate predicate InstallEffect(pkgRoot: string, release: Release, http: map<string, Response>,
                                     fuel: nat, outcome: InstallOutcome)
      reads this
    {
      && dirs == (if old(Exists(BinariesDir(pkgRoot))) then old(dirs) else old(dirs) + {BinariesDir(pkgRoot)})
      && match GetBinaryUrl(os, arch, release)
         case Failure(e) =>
           outcome == Aborted(e) && requests == old(requests) && files == old(files)
         case Success(target) =>
           var dest := DestPath(pkgRoot, target.fileName);
           if old(Exists(dest)) then
             outcome == AlreadyPresent && requests == old(requests) + [MetadataUrl] && files == old(files)
           else
             var run := Download(http, target.url, fuel);
             && requests == old(requests) + [MetadataUrl] + run.requested
             && files == (if run.requested == [] then old(files) else old(files)[dest := Written(run.end, os)])
             && outcome == match run.end
                           case Saved(_) => Installed
                           case Failed(e) => Aborted(e)
                           case Unfinished => DownloadUnfinished
    }

    /** Creates the binaries directory, resolves the URL, and downloads unless
        the artifact is already there. */
    method Install(pkgRoot: string, release: Release, http: map<string, Response>, fuel: nat)
      returns (outcome: InstallOutcome)
      modifies this
      ensures InstallEffect(pkgRoot, release, http, fuel, outcome)
      ensures Exists(BinariesDir(pkgRoot))
    {
      var binariesDir := BinariesDir(pkgRoot);
      if !Exists(binariesDir) {
        dirs := dirs + {binariesDir};
      }
      var target := ResolveBinaryUrl(release);
      if target.Failure? {
        return Aborted(target.error);
      }
      var dest := DestPath(pkgRoot, target.value.fileName);
      if Exists(dest) {
        return AlreadyPresent;
      }
      var end := DownloadFile(http, target.value.url, dest, fuel);
      outcome := match end
                 case Saved(_) => Installed
                 case Failed(e) => Aborted(e)
                 case Unfinished => DownloadUnfinished;
    }

    /** The script's entry: install unless CI or GITHUB_ACTIONS is set. */
    method Postinstall(env: map<string, string>, pkgRoot: string, release: Release,
                       http: map<string, Response>, fuel: nat)
      returns (outcome: InstallOutcome)
      modifies this
      ensures !ShouldInstall(env) ==>
        outcome == CiSkipped && dirs == old(dirs) && files == old(files) && requests == old(requests)
      ensures ShouldInstall(env) ==> InstallEffect(pkgRoot, release, http, fuel, outcome)
    {
      if !EnvSet(env, "CI") && !EnvSet(env, "GITHUB_ACTIONS") {
        outcome := Install(pkgRoot, release, http, fuel);
      } else {
        outcome := CiSkipped;
      }
    }
  }

  /** Installing twice: once the first run made a download attempt, the second
      finds a file at the destination and only queries the metadata, even when
      the first download failed and left an empty file behind. */
  method InstallTwice(host: Host, pkgRoot: string, release: Release, http: map<string, Response>, fuel: nat)
    returns (first: InstallOutcome, second: InstallOutcome)
    modifies host
    ensures var target := GetBinaryUrl(host.os, host.arch, release);
      target.Success? && (first.Installed? || (first.Aborted? && !first.error.UnsupportedPlatform?)) ==>
        && second == AlreadyPresent
        && host.requests == old(host.requests) + [MetadataUrl]
             + Download(http, target.value.url, fuel).requested + [MetadataUrl]
  {
    first := host.Install(pkgRoot, release, http, fuel);
    second := host.Install(pkgRoot, release, http, fuel);
  }
}
