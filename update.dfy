/**
 * Update (cli/update.go): choose the release channel, fetch and read the
 * manifest, stop when the running commit is the manifest's version, find the
 * artifact for this platform, fetch it, check its size and then its SHA-512,
 * and install it unless this is a dry run.
 *
 * Everything up to the install decision is a function of its inputs (Plan);
 * the network, the JSON decoding and the SHA-512 digest are parameters. Plan
 * also records which URLs were requested, so that "nothing else was fetched"
 * can be stated. The method Update then runs the installer on a filesystem
 * when, and only when, Plan says to replace the binary.
 */
module Update {
  import opened Wrappers
  import opened Http
  import opened FileSystem
  import Decimal
  import Installer

  const ARTIFACTS_BASE_URL := "https://artifactory/dhcli/"
  const PRODUCTION_BASE_URL := ARTIFACTS_BASE_URL + "production/"
  const STAGING_BASE_URL := ARTIFACTS_BASE_URL + "staging/"
  const MANIFEST_NAME := "packing_slip.json"
  const PRODUCTION_MANIFEST_URL := PRODUCTION_BASE_URL + MANIFEST_NAME
  const STAGING_MANIFEST_URL := STAGING_BASE_URL + MANIFEST_NAME

  /** One entry of the manifest's `files` object. */
  datatype Descriptor = Descriptor(size: int, sha2_512: string)

  /** The release manifest once decoded. */
  datatype Manifest = Manifest(version: string, files: map<string, Descriptor>)

  /** The running program: its commit and runtime.GOOS / runtime.GOARCH. */
  datatype Host = Host(commit: string, goos: string, goarch: string)

  /** What lies outside the model: the server's answer for each URL, the
      trimming and JSON decoding of the manifest, and the lowercase hex
      SHA-512 of a byte sequence. */
  datatype Env = Env(
    host: Host,
    respond: string -> Response,
    decode: seq<byte> -> Result<Manifest, string>,
    sha512Hex: seq<byte> -> string)

  datatype Channel = Channel(manifestURL: string, baseURL: string)

  /** The manifest and artifact locations of the staging or the production
      channel; the manifest sits directly in the channel's base directory. */
  function SelectChannel(staging: bool): (ch: Channel)
    ensures staging ==> ch == Channel(STAGING_MANIFEST_URL, STAGING_BASE_URL)
    ensures !staging ==> ch == Channel(PRODUCTION_MANIFEST_URL, PRODUCTION_BASE_URL)
    ensures ch.manifestURL == ch.baseURL + MANIFEST_NAME
    ensures ARTIFACTS_BASE_URL <= ch.baseURL
  {
    if staging then Channel(STAGING_MANIFEST_URL, STAGING_BASE_URL)
    else Channel(PRODUCTION_MANIFEST_URL, PRODUCTION_BASE_URL)
  }

  /** The manifest key of the build for a platform: GOOS, GOARCH and the
      binary's name, with ".exe" appended exactly for Windows. */
  function ArtifactPath(goos: string, goarch: string): (p: string)
    ensures goos + "/" + goarch + "/" + Installer.BINARY_NAME <= p
    ensures |p| == |goos + "/" + goarch + "/" + Installer.BINARY_NAME| + (if goos == Installer.WINDOWS then 4 else 0)
    ensures |p| >= 4 && (p[|p| - 4..] == ".exe" <==> goos == Installer.WINDOWS)
  {
    var filename := if goos == Installer.WINDOWS then Installer.BINARY_NAME + ".exe" else Installer.BINARY_NAME;
    var p := goos + "/" + goarch + "/" + filename;
    assert p[|p| - 4..] == filename[|filename| - 4..];
    p
  }

  /** Outcome of checking a downloaded artifact against its descriptor. */
  datatype Verdict =
    | Verified
    | SizeMismatch(expectedSize: int, gotSize: int)
    | DigestMismatch(expectedDigest: string, gotDigest: string)

  /** The size is checked first, then the digest. */
  function Verify(binary: seq<byte>, d: Descriptor, sha512Hex: seq<byte> -> string): (v: Verdict)
    ensures v == Verified <==> |binary| == d.size && sha512Hex(binary) == d.sha2_512
  {
    if |binary| != d.size then SizeMismatch(d.size, |binary|)
    else if sha512Hex(binary) != d.sha2_512 then DigestMismatch(d.sha2_512, sha512Hex(binary))
    else Verified
  }

  datatype UpdateError =
    | FetchFailed(fetch: FetchError)
    | ManifestInvalid(cause: string)
    | PathNotFound(path: string)
    | ArtifactRejected(verdict: Verdict)
    | InstallFailed(step: Installer.Step)

  /** What Update does once the artifact is settled. */
  datatype Decision =
    | UpToDate                     // "No update required."; the process exits 0
    | DryRunSkipped                // verified, but not installed
    | Replace(binary: seq<byte>)   // verified; hand it to the installer
    | Fail(error: UpdateError)

  datatype Run = Run(requests: seq<string>, decision: Decision)

  /** The manifest of a channel, fetched and decoded: a fetch error is
      passed on as it is, and otherwise the decoder has the last word. */
  function LoadManifest(ch: Channel, env: Env): (r: Result<Manifest, UpdateError>)
    ensures var got := Get(ch.manifestURL, env.respond(ch.manifestURL));
      && (got.Failure? ==> r == Failure(FetchFailed(got.error)))
      && (r.Success? <==> got.Success? && env.decode(got.value).Success?)
      && (r.Success? ==> r.value == env.decode(got.value).value)
      && (got.Success? && env.decode(got.value).Failure? ==> r == Failure(ManifestInvalid(env.decode(got.value).error)))
  {
    match Get(ch.manifestURL, env.respond(ch.manifestURL))
    case Failure(e) => Failure(FetchFailed(e))
    case Success(bytes) =>
      match env.decode(bytes)
      case Failure(cause) => Failure(ManifestInvalid(cause))
      case Success(m) => Success(m)
  }

  /** The artifact URL for this host on a channel. */
  function ArtifactURL(staging: bool, host: Host): string
  {
    SelectChannel(staging).baseURL + ArtifactPath(host.goos, host.goarch)
  }

  function Plan(staging: bool, dryRun: bool, env: Env): (p: Run)
    ensures 1 <= |p.requests| <= 2
    ensures p.requests[0] == (if staging then STAGING_MANIFEST_URL else PRODUCTION_MANIFEST_URL)
    ensures |p.requests| == 2 ==>
      p.requests[1] == ArtifactURL(staging, env.host)
      == (if staging then STAGING_BASE_URL else PRODUCTION_BASE_URL) + ArtifactPath(env.host.goos, env.host.goarch)
    ensures p.decision.Replace? || p.decision.DryRunSkipped? || (p.decision.Fail? && p.decision.error.ArtifactRejected?)
      ==> |p.requests| == 2
  {
    var ch := SelectChannel(staging);
    match LoadManifest(ch, env)
    case Failure(e) => Run([ch.manifestURL], Fail(e))
    case Success(m) =>
      if env.host.commit == m.version then Run([ch.manifestURL], UpToDate)
      else
        var path := ArtifactPath(env.host.goos, env.host.goarch);
        if path !in m.files then Run([ch.manifestURL], Fail(PathNotFound(path)))
        else
          var url := ch.baseURL + path;
          var requests := [ch.manifestURL, url];
          match Get(url, env.respond(url))
          case Failure(e) => Run(requests, Fail(FetchFailed(e)))
          case Success(binary) =>
            var v := Verify(binary, m.files[path], env.sha512Hex);
            if v != Verified then Run(requests, Fail(ArtifactRejected(v)))
            else if dryRun then Run(requests, DryRunSkipped)
            else Run(requests, Replace(binary))
  }

  /** The text of the errors Update formats itself; None for errors whose
      text comes from a library or the operating system. */
  function ErrorMessage(e: UpdateError): (r: Option<string>)
    ensures r.Some? <==>
      || (e.FetchFailed? && e.fetch.BadStatus?)
      || e.PathNotFound?
      || (e.ArtifactRejected? && !e.verdict.Verified?)
    ensures e.FetchFailed? && r.Some? ==> r.value == Http.Message(e.fetch)
    ensures e.PathNotFound? ==> |r.value| >= |e.path| && r.value[|r.value| - |e.path|..] == e.path
    ensures e.ArtifactRejected? && e.verdict.DigestMismatch? ==>
      |r.value| >= |e.verdict.gotDigest| && r.value[|r.value| - |e.verdict.gotDigest|..] == e.verdict.gotDigest
    ensures e.ArtifactRejected? && e.verdict.SizeMismatch? ==>
      && "file size mismatch; expected " + Decimal.Format(e.verdict.expectedSize) <= r.value
      && var tail := ", got " + Decimal.Format(e.verdict.gotSize);
         |r.value| >= |tail| && r.value[|r.value| - |tail|..] == tail
    ensures e.ArtifactRejected? && e.verdict.DigestMismatch? ==>
      "SHA512 mismatch; expected " + e.verdict.expectedDigest + ", got " <= r.value
  {
    match e
    case FetchFailed(BadStatus(url, status)) => Some(Http.Message(BadStatus(url, status)))
    case PathNotFound(path) => Some("path not found in manifest: " + path)
    case ArtifactRejected(SizeMismatch(expected, got)) =>
      Some("file size mismatch; expected " + Decimal.Format(expected) + ", got " + Decimal.Format(got))
    case ArtifactRejected(DigestMismatch(expected, got)) =>
      Some("SHA512 mismatch; expected " + expected + ", got " + got)
    case _ => None
  }

  /** The result the caller of Update sees. */
  datatype Outcome =
    | NoUpdate
    | DryRunDone
    | Installed
    | Failed(error: UpdateError)

  /** Update: the plan, then the installer on `fs` only when the plan is to
      replace the binary. */
  method Update(fs: Fs, staging: bool, dryRun: bool, env: Env, m: Installer.Machine)
    returns (outcome: Outcome)
    modifies fs
    ensures fs.dirs == old(fs.dirs)
    ensures match Plan(staging, dryRun, env).decision
      case UpToDate => outcome == NoUpdate && fs.files == old(fs.files)
      case DryRunSkipped => outcome == DryRunDone && fs.files == old(fs.files)
      case Fail(e) => outcome == Failed(e) && fs.files == old(fs.files)
      case Replace(binary) =>
        var failed := Installer.FailedStep(old(fs.files), old(fs.dirs), env.host.goos, m);
        && fs.files == Installer.FilesAfter(old(fs.files), binary, env.host.goos, m, failed)
        && outcome == if failed.None? then Installed else Failed(InstallFailed(failed.value))
  {
    var plan := Plan(staging, dryRun, env);
    match plan.decision {
      case UpToDate =>
        outcome := NoUpdate;
      case DryRunSkipped =>
        outcome := DryRunDone;
      case Fail(e) =>
        outcome := Failed(e);
      case Replace(binary) =>
        var failed := Installer.ReplaceCurrentVersion(fs, binary, env.host.goos, m);
        outcome := if failed.None? then Installed else Failed(InstallFailed(failed.value));
    }
  }
}

/** What Plan guarantees: when it stops, what it fetches, and when it lets
    the installer run. */
module UpdateProperties {
  import opened Wrappers
  import opened Http
  import Installer
  import opened Update

  /** The manifest is good, the commit differs from its version, this
      platform's artifact is listed, it was downloaded and it passed both
      checks. */
  ghost predicate ArtifactAccepted(staging: bool, env: Env)
  {
    var path := ArtifactPath(env.host.goos, env.host.goarch);
    var url := ArtifactURL(staging, env.host);
    && LoadManifest(SelectChannel(staging), env).Success?
    && var m := LoadManifest(SelectChannel(staging), env).value;
    && env.host.commit != m.version
    && path in m.files
    && Get(url, env.respond(url)).Success?
    && Verify(Get(url, env.respond(url)).value, m.files[path], env.sha512Hex) == Verified
  }

  /** When the running commit equals the manifest version the run ends as
      up to date after fetching only the manifest, whatever `files` holds. */
  lemma NoUpdateWhenVersionMatches(staging: bool, dryRun: bool, env: Env, m: Manifest)
    requires LoadManifest(SelectChannel(staging), env) == Success(m)
    requires env.host.commit == m.version
    ensures Plan(staging, dryRun, env) == Run([SelectChannel(staging).manifestURL], UpToDate)
  {
  }

  /** Conversely, "up to date" means the manifest was read and its version
      is the running commit. */
  lemma UpToDateOnlyOnVersionMatch(staging: bool, dryRun: bool, env: Env)
    requires Plan(staging, dryRun, env).decision == UpToDate
    ensures LoadManifest(SelectChannel(staging), env).Success?
    ensures LoadManifest(SelectChannel(staging), env).value.version == env.host.commit
  {
  }

  lemma {:induction false} SplitAtFirstSlash(a: string, r: string, c: string, t: string)
    requires '/' !in a && '/' !in c
    requires a + "/" + r == c + "/" + t
    ensures a == c && r == t
  {
    var s := a + "/" + r;
    assert s[..|a|] == a && s[|a|] == '/';
    assert s[..|c|] == c && s[|c|] == '/';
    assert |a| == |c|;
    assert r == s[|a| + 1..] == t;
  }

  /** Platforms whose names hold no '/' get distinct keys: the key names the
      platform it was built for. */
  lemma {:induction false} ArtifactPathInjective(goos1: string, goarch1: string, goos2: string, goarch2: string)
    requires '/' !in goos1 && '/' !in goarch1 && '/' !in goos2 && '/' !in goarch2
    requires ArtifactPath(goos1, goarch1) == ArtifactPath(goos2, goarch2)
    ensures goos1 == goos2 && goarch1 == goarch2
  {
    var f1 := if goos1 == Installer.WINDOWS then Installer.BINARY_NAME + ".exe" else Installer.BINARY_NAME;
    var f2 := if goos2 == Installer.WINDOWS then Installer.BINARY_NAME + ".exe" else Installer.BINARY_NAME;
    assert ArtifactPath(goos1, goarch1) == goos1 + "/" + (goarch1 + "/" + f1);
    assert ArtifactPath(goos2, goarch2) == goos2 + "/" + (goarch2 + "/" + f2);
    SplitAtFirstSlash(goos1, goarch1 + "/" + f1, goos2, goarch2 + "/" + f2);
    SplitAtFirstSlash(goarch1, f1, goarch2, f2);
  }

  /** A platform missing from the manifest is the error "path not found in
      manifest: <path>", after fetching only the manifest. */
  lemma MissingPathFails(staging: bool, dryRun: bool, env: Env, m: Manifest)
    requires LoadManifest(SelectChannel(staging), env) == Success(m)
    requires env.host.commit != m.version
    requires ArtifactPath(env.host.goos, env.host.goarch) !in m.files
    ensures var path := ArtifactPath(env.host.goos, env.host.goarch);
      && Plan(staging, dryRun, env) == Run([SelectChannel(staging).manifestURL], Fail(PathNotFound(path)))
      && ErrorMessage(PathNotFound(path)) == Some("path not found in manifest: " + path)
  {
  }

  /** The installer is asked to run exactly when the artifact was accepted
      and this is not a dry run, and it gets the downloaded bytes; a dry run
      with an accepted artifact ends as skipped. */
  lemma InstallOnlyWhenAccepted(staging: bool, dryRun: bool, env: Env)
    ensures Plan(staging, dryRun, env).decision.Replace? <==> !dryRun && ArtifactAccepted(staging, env)
    ensures Plan(staging, dryRun, env).decision.DryRunSkipped? <==> dryRun && ArtifactAccepted(staging, env)
    ensures Plan(staging, dryRun, env).decision.Replace? ==>
      var url := ArtifactURL(staging, env.host);
      Get(url, env.respond(url)) == Success(Plan(staging, dryRun, env).decision.binary)
  {
  }

  /** A download of the wrong length is rejected with the expected and the
      actual size, whatever its digest. */
  lemma SizeCheckedFirst(binary: seq<byte>, d: Descriptor, sha512Hex: seq<byte> -> string)
    requires |binary| != d.size
    ensures Verify(binary, d, sha512Hex) == SizeMismatch(d.size, |binary|)
  {
  }

  /** A download of the right length with another digest is rejected with
      the expected and the computed digest. */
  lemma DigestMismatchReported(binary: seq<byte>, d: Descriptor, sha512Hex: seq<byte> -> string)
    requires |binary| == d.size && sha512Hex(binary) != d.sha2_512
    ensures Verify(binary, d, sha512Hex) == DigestMismatch(d.sha2_512, sha512Hex(binary))
  {
  }

  /** The failing artifact fetch of a run is reported with the artifact's
      URL and the status the server gave. */
  lemma ArtifactFetchErrorNamesURL(staging: bool, dryRun: bool, env: Env, m: Manifest)
    requires LoadManifest(SelectChannel(staging), env) == Success(m)
    requires env.host.commit != m.version
    requires ArtifactPath(env.host.goos, env.host.goarch) in m.files
    requires var url := ArtifactURL(staging, env.host);
      env.respond(url).Reply? && env.respond(url).status != STATUS_OK
    ensures var url := ArtifactURL(staging, env.host);
      Plan(staging, dryRun, env).decision == Fail(FetchFailed(BadStatus(url, env.respond(url).status)))
  {
  }

  /** A manifest server answering with another status than 200 ends the run
      with the error naming the manifest's URL and that status, after that
      one request. */
  lemma ManifestFetchErrorNamesURL(staging: bool, dryRun: bool, env: Env)
    requires var url := SelectChannel(staging).manifestURL;
      env.respond(url).Reply? && env.respond(url).status != STATUS_OK
    ensures var url := SelectChannel(staging).manifestURL;
      var e := BadStatus(url, env.respond(url).status);
      && Plan(staging, dryRun, env) == Run([url], Fail(FetchFailed(e)))
      && ErrorMessage(FetchFailed(e)) == Some(Http.Message(e))
  {
  }

  /** A downloaded artifact that fails either check ends the run with that
      verdict after the manifest and the artifact requests; nothing is
      installed. */
  lemma ArtifactRejectedReported(staging: bool, dryRun: bool, env: Env, m: Manifest, b: seq<byte>)
    requires LoadManifest(SelectChannel(staging), env) == Success(m)
    requires env.host.commit != m.version
    requires ArtifactPath(env.host.goos, env.host.goarch) in m.files
    requires var url := ArtifactURL(staging, env.host);
      Get(url, env.respond(url)) == Success(b)
    requires Verify(b, m.files[ArtifactPath(env.host.goos, env.host.goarch)], env.sha512Hex) != Verified
    ensures var v := Verify(b, m.files[ArtifactPath(env.host.goos, env.host.goarch)], env.sha512Hex);
      Plan(staging, dryRun, env)
        == Run([SelectChannel(staging).manifestURL, ArtifactURL(staging, env.host)], Fail(ArtifactRejected(v)))
  {
  }

  /** A 1020-byte download of a 1024-byte artifact ends the run with the
      size mismatch naming both sizes. */
  lemma ShortArtifactRejected(staging: bool, dryRun: bool, env: Env, m: Manifest, b: seq<byte>)
    requires LoadManifest(SelectChannel(staging), env) == Success(m)
    requires env.host.commit != m.version
    requires ArtifactPath(env.host.goos, env.host.goarch) in m.files
    requires m.files[ArtifactPath(env.host.goos, env.host.goarch)].size == 1024
    requires var url := ArtifactURL(staging, env.host);
      Get(url, env.respond(url)) == Success(b)
    requires |b| == 1020
    ensures Plan(staging, dryRun, env).decision == Fail(ArtifactRejected(SizeMismatch(1024, 1020)))
    ensures ErrorMessage(Plan(staging, dryRun, env).decision.error)
      == Some("file size mismatch; expected 1024, got 1020")
  {
    SizeMismatchMessage();
  }

  /** Plan depends on the network only through the URLs it records: two
      environments answering alike at those URLs give the same run. So a run
      whose trace names only the manifest fetched nothing else. */
  lemma PlanReadsOnlyRequests(staging: bool, dryRun: bool, env: Env, respond': string -> Response)
    requires forall u :: u in Plan(staging, dryRun, env).requests ==> respond'(u) == env.respond(u)
    ensures Plan(staging, dryRun, env.(respond := respond')) == Plan(staging, dryRun, env)
  {
    var url := SelectChannel(staging).manifestURL;
    assert url == Plan(staging, dryRun, env).requests[0];
  }

  /** The message for a 1020-byte download of a 1024-byte artifact. */
  lemma SizeMismatchMessage()
    ensures ErrorMessage(ArtifactRejected(SizeMismatch(1024, 1020)))
      == Some("file size mismatch; expected 1024, got 1020")
  {
    assert Decimal.DigitChar(0) == '0' && Decimal.DigitChar(1) == '1';
    assert Decimal.DigitChar(2) == '2' && Decimal.DigitChar(4) == '4';
    assert Decimal.Digits(1) == "1";
    assert Decimal.Digits(10) == "10";
    assert Decimal.Digits(102) == "102";
    assert Decimal.Digits(1024) == "1024";
    assert Decimal.Digits(1020) == "1020";
    assert Decimal.Format(1024) == "1024" && Decimal.Format(1020) == "1020";
    assert "file size mismatch; expected " + "1024" + ", got " + "1020"
      == "file size mismatch; expected 1024, got 1020";
  }
}
