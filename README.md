# dhcli self-update and Kea lookups, modelled in Dafny

This project models the self-update command of `dhcli`, a command-line client
for a Kea DHCP management service, together with the small selection helpers
its other commands use.

The update flow (`Update` in `cli/update.go`) has these steps:

- pick the production or the staging channel;
- fetch and decode the release manifest (`packing_slip.json`);
- stop with "No update required" when the running commit is the manifest's version;
- look up the artifact key `<GOOS>/<GOARCH>/dhcli[.exe]`;
- fetch `<base URL><key>`;
- accept the bytes only if their length is the declared size and their lowercase hex SHA-512 is the declared digest (size first);
- unless this is a dry run, install them with `replaceCurrentVersion`.

`replaceCurrentVersion` works in a fresh temporary directory beside the
executable. It writes the new binary there and gives it the old executable's
mode. Then it moves the executable to `<exe>.old`, moves the new binary into
place and, except on Windows, removes `<exe>.old`. The temporary directory is
removed on every way out.

From `cli/utils.go` the model covers:

- `isStage2`;
- the lookups `getSubnetID`, `getAppID` and `getLogID`: the URL they point at, the reply checks, and the choice of an id from the decoded reply.

Layout:

- `wrappers.dfy`: `Option`, `Result` and the byte type.
- `decimal.dfy`: Go's `%d` rendering of integers and its inverse.
- `http.dfy`: the status check of `httpGET`.
- `filesystem.dfy`: an abstract filesystem (class `Fs`). It holds files with their bytes and mode, and directories. Its operations can each be made to fail.
- `installer.dfy`: `replaceCurrentVersion` as methods on an `Fs`. The functions `FailedStep` and `FilesAfter` specify the outcome, and module `InstallerProperties` proves its safety properties.
- `update.dfy`: the decision part of `Update` as the function `Plan`. `Plan` also records the URLs it requested. The method `Update` runs the installer when `Plan` says to, and module `UpdateProperties` holds the lemmas.
- `kea.dfy`: `cli/utils.go`. Module `KeaProperties` holds the lemmas.

Inputs that the program gets from the outside world are parameters:

- the server's answer for each URL (`Response`);
- manifest decoding, including `bytes.TrimSpace`;
- the SHA-512 hex digest;
- the JSON decoding of Kea replies;
- the location of the executable;
- the random part of the temporary directory's name;
- the set of operating-system calls that fail.

## Model

| member | source | states |
|---|---|---|
| `Decimal.Digits` | cli/update.go:230-235 | the decimal digits of a natural number: all digits, non-empty, no leading zero |
| `Decimal.FormatRoundTrip` | cli/utils.go:134 | `%d` rendering is undone by parsing, for every integer |
| `Decimal.FormatInjective` | cli/update.go:230-235 | distinct integers render differently, so a message or path names its number unambiguously |
| `Http.Get` | cli/update.go:61-81 | bytes come back exactly for a 200 reply whose body was read. The bytes are that body. Any other status is the error naming the URL and the status |
| `Update.Verify` | cli/update.go:229-247 | an artifact is accepted if and only if its length equals the declared size and its SHA-512 hex equals the declared digest |
| `Update.Plan` | cli/update.go:166-262 | the first request is the chosen channel's manifest URL (staging or production). A second request, if any, is the channel's base URL followed by the artifact key. A second request is made whenever the run ends installing, dry-run-skipped or rejecting the artifact |
| `UpdateProperties.NoUpdateWhenVersionMatches` | cli/update.go:199-209 | when the commit equals the manifest version, the run is up to date after fetching only the manifest, whatever `files` holds and whether or not it is a dry run |
| `UpdateProperties.UpToDateOnlyOnVersionMatch` | cli/update.go:206-209 | an up-to-date outcome means the manifest was read and its version is the running commit |
| `Update.SelectChannel` | cli/update.go:172-184 | staging picks the staging manifest and base URL, production the production ones. In both, the manifest URL is the base URL followed by `packing_slip.json` |
| `Update.LoadManifest` | cli/update.go:186-197 | a failed manifest fetch is passed on unchanged. Otherwise the result is a manifest exactly when the decoder accepts the fetched bytes, and a decoder error is `ManifestInvalid` with its cause |
| `Update.ArtifactPath` | cli/update.go:211-216 | the key starts with `<GOOS>/<GOARCH>/dhcli` and is four characters longer exactly on Windows. It ends in `.exe` if and only if GOOS is `windows` |
| `Update.ErrorMessage` | cli/update.go:70-258 | Update formats the text itself exactly for a bad status, a missing key and a size or digest mismatch. The bad-status text is `Http.Message`, and the missing-key text ends with the key. The size text begins with the expected size and ends with `, got ` and the actual size, both rendered by `%d`. The digest text begins with `SHA512 mismatch; expected <declared digest>, got ` and ends with the computed digest |
| `Http.Message` | cli/update.go:69-73 | a bad-status error reads `failed to fetch <url>; HTTP error ` followed by text that parses back to the status. Other errors carry the library's own text |
| `Decimal.Format` | cli/update.go:231-235 | `%d` of an integer is non-empty, starts with `-` exactly for negative numbers, and is digits everywhere else |
| `UpdateProperties.ManifestFetchErrorNamesURL` | cli/update.go:186-189 | a non-200 manifest reply ends the run after that one request, failing with the manifest URL and that status |
| `UpdateProperties.ArtifactPathInjective` | cli/update.go:211-216 | for platform names without `/`, different (GOOS, GOARCH) pairs get different keys |
| `UpdateProperties.MissingPathFails` | cli/update.go:218-258 | a key missing from the manifest ends the run with `path not found in manifest: <path>` after fetching only the manifest |
| `UpdateProperties.InstallOnlyWhenAccepted` | cli/update.go:218-256 | the installer is asked to run if and only if the artifact passed both checks and this is not a dry run, and it gets the downloaded bytes. A dry run with an accepted artifact ends as skipped |
| `UpdateProperties.SizeCheckedFirst` | cli/update.go:230-236 | a download of the wrong length is a size mismatch with the expected and actual sizes, whatever its digest |
| `UpdateProperties.DigestMismatchReported` | cli/update.go:237-244 | a download of the right length with another digest is a digest mismatch with the expected and computed digests |
| `UpdateProperties.ArtifactFetchErrorNamesURL` | cli/update.go:220-227 | a non-200 artifact reply fails the run with the artifact URL and that status |
| `UpdateProperties.ArtifactRejectedReported` | cli/update.go:229-247 | a downloaded artifact that fails the size or the digest check ends the run with that verdict, after exactly the manifest and artifact requests, and nothing is installed |
| `UpdateProperties.ShortArtifactRejected` | cli/update.go:230-235 | a run that downloads 1020 bytes of a 1024-byte artifact fails with the size mismatch whose text is `file size mismatch; expected 1024, got 1020` |
| `UpdateProperties.PlanReadsOnlyRequests` | cli/update.go:186-227 | the run depends on the server only at the URLs in its request trace, so the trace lists every URL fetched |
| `UpdateProperties.SizeMismatchMessage` | cli/update.go:230-235 | a 1020-byte download of a 1024-byte artifact reads `file size mismatch; expected 1024, got 1020` |
| `Update.Update` | cli/update.go:249-256 | up to date, dry run and every failure before installing leave the filesystem untouched. Otherwise the outcome and the files are those of the installer on the downloaded bytes |
| `Installer.ReplaceCurrentVersion` | cli/update.go:83-164 | the step that fails is `FailedStep`, and the files afterwards are `FilesAfter`. The directories are unchanged, so the temporary directory is gone on every exit |
| `Installer.WriteAndSwap` | cli/update.go:107-161 | after the temporary directory exists, the files agree with `FilesAfter` everywhere outside it |
| `Installer.StageNewBinary` | cli/update.go:107-126 | create, write, chmod and close of the new binary change nothing outside the temporary directory. On success the new binary holds the verified bytes with the old executable's mode |
| `Installer.SwapIntoPlace` | cli/update.go:128-161 | the stale-backup check never removes anything. The two renames and the non-Windows backup removal produce `FilesAfter` for the step that failed |
| `InstallerProperties.IntactUntilRenamedAside` | cli/update.go:94-138 | a failure at any step up to and including the first rename leaves every file, the executable included, as it was |
| `InstallerProperties.OldBinaryRecoverable` | cli/update.go:135-161 | after the first rename the old bytes and mode sit at `<exe>.old`: when the second rename fails (and only then the executable path is empty), when removing the backup fails, and after a completed Windows install |
| `InstallerProperties.NewBinaryInstalled` | cli/update.go:140-161 | a completed install puts the new bytes at the executable path with the old mode. The backup remains if and only if on Windows. A failed backup removal happens only off Windows, with the new binary already in place |
| `InstallerProperties.NothingElseChanges` | cli/update.go:128-161 | no path other than the executable and its backup differs afterwards |
| `InstallerProperties.NoTemporaryFilesLeft` | cli/update.go:101-105 | if the temporary directory could be made, no file inside it survives the install |
| `InstallerProperties.FailsOnlyForACause` | cli/update.go:84-161 | a step fails only when the system refuses it, when the executable is missing, or when the temporary name is taken. Without these the install completes |
| `Kea.IsStage2` | cli/utils.go:168-173 | true exactly when the region starts with `S2` |
| `Kea.Body` | cli/utils.go:50-67 | a reply passes the checks if and only if it is a 200 reply whose body was read and is non-empty, and then the body is what passes |
| `Kea.SelectSubnet` | cli/utils.go:74-78 | an id exactly when the total is 1, namely the first item's. A total other than 1 gives `no results found for subnet`. A total of 1 with no items panics |
| `Kea.FirstNamed` | cli/utils.go:115-119 | the index of the first item with the given name, or the length when none has it |
| `Kea.FindApp` | cli/utils.go:114-121 | the loop of `getAppID` returns what `SelectApp` specifies |
| `Kea.FirstStop` | cli/utils.go:160-164 | the index of the first daemon that is empty or whose first target has the name, with every earlier daemon non-empty and not matching |
| `Kea.FindLog` | cli/utils.go:160-165 | the loop of `getLogID` returns what `SelectLog` specifies |
| `Kea.GetSubnetID` | cli/utils.go:41-79 | sets the path to `/api/subnets` and the `text` query value to the subnet. The result is the checked, decoded and selected reply to that request |
| `Kea.GetAppID` | cli/utils.go:81-122 | sets the path to `/api/apps` and the `limit` query value to `25`. The result is the checked, decoded and selected reply to that request |
| `Kea.GetLogID` | cli/utils.go:124-166 | looks up the app id first. On failure it returns `error looking up log id` with the URL left at `/api/apps`. Otherwise it requests `/api/apps/<id>`, keeping `limit=25`, and selects the log id from that reply |
| `KeaProperties.AppLookupIsFirstMatch` | cli/utils.go:114-119 | with a total of at least one, the id is that of the first item in order carrying the name |
| `KeaProperties.AppLookupOutcomes` | cli/utils.go:114-121 | every id returned is a first match's. Otherwise the error is `no results found for app instance`, always so when the total is below one or nothing matches |
| `KeaProperties.LaterMatchesIgnored` | cli/utils.go:115-119 | items appended after a match do not change the id found |
| `KeaProperties.OnlyFirstTargetRead` | cli/utils.go:160-164 | replies that agree on each daemon's first target (and on its presence) give the same log lookup result |
| `KeaProperties.LogLookupOutcomes` | cli/utils.go:160-165 | a found log id is the first target's id of the first matching daemon. An error is `no results found for log`, and then no daemon's first target matches |
| `KeaProperties.RejectedBeforeDecoding` | cli/utils.go:55-67 | a non-200 reply or an empty body is an error for all three lookups whatever the decoders would say, with each lookup's own text |
| `KeaProperties.AppPathNamesApp` | cli/utils.go:134 | the path `/api/apps/<id>` determines the app id |

## Left out

- The retrying HTTP client (`httpRequest`, cli/update.go:39-59) is not modelled: retries, back-off, the User-Agent and Content-Type headers, and transport. What a request yields is an input `Response`. `userAgent` (cli/update.go:31-35) is unused by the source and not modelled.
- SHA-512 itself is not modelled. The digest is a function parameter, so it is deterministic but otherwise arbitrary.
- JSON decoding and `bytes.TrimSpace` are decoder parameters. A decoding failure is an error value.
- Progress output on stdout is left out. The `os.Exit(0)` after "No update required." is the outcome `NoUpdate`.
- `osext.Executable` and `osext.ExecutableFolder` become inputs: the executable's path and folder, and whether each call fails.
- `ioutil.TempDir`'s retry over random names is not modelled. The random part is an input. Making the directory fails when something already exists at that name or inside it.
- The deferred `os.RemoveAll` of the temporary directory always succeeds in the model. The source ignores its error, and a failed clean-up is not modelled.
- A failed `Write` changes nothing in the model, and `Close` has no effect on the files. The model does not track partial writes or open handles. In both cases the temporary directory is removed anyway.
- The `os.Stat` of the stale backup only tells whether it exists. Other `Stat` errors are not distinguished.
- Mode bits are an abstract number, and the umask applied by `os.Create` is ignored.
- `os.Rename` replaces an existing target on every platform, as Go's implementation does on Windows too.
- The error texts that come from libraries or the operating system are not modelled. Update's own texts are, in `Update.ErrorMessage` and `Http.Message`.
- URL handling keeps the path and the decoded query values of the caller's `url.URL`. It leaves out `RawQuery` encoding (key order, escaping), `Query()` dropping malformed pairs, and the scheme and host. The cookie jar and `http.Client` are not modelled.
- Go's `int` is unbounded here. Sizes and ids are only compared, never computed with, so its width plays no part.
- `cli/auth.go`, `cli/search.go`, `cli/status.go`, `cli/logs.go`, `cli/reservation.go` and `cmd/dhcli/main.go` are request and table-printing glue, and are not part of this model.

## Notes on the code's behaviour

The model follows the code in each case:

- Stale backup: `os.Remove` of `<exe>.old` runs only when `os.Stat` reports that the backup does *not* exist (cli/update.go:131-133), so it never removes one. The rename at cli/update.go:136 replaces a leftover backup instead. `Installer.SwapIntoPlace` does the same, and its removal call provably changes nothing.
- Status check: `httpGET` rejects every status other than 200 (cli/update.go:69), including the other 2xx codes.
- Failed second rename: the code returns the rename's own error, with no rollback (cli/update.go:141-143). The model reports `InstallFailed(RenameIntoPlace)`, and `InstallerProperties.OldBinaryRecoverable` shows that the old binary is then at `<exe>.old`.
