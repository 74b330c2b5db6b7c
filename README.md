# yutu: installer, launcher and comment-thread pager

This project models three pieces of the yutu repository and proves properties about them.

- **The npm install step** (`bin/postinstall.js`) is module `Postinstall`.
  - It maps the host platform to a release artifact name (`yutu-{os}-{arch}`, plus `.exe` on Windows).
  - It takes the download URL from the first release asset with exactly that name. Failing that, it uses a fixed fallback URL.
  - It downloads the artifact, following 301/302 redirects, into `<package>/binaries/`. Off Windows it then marks the file executable.
  - The step is skipped when `CI` or `GITHUB_ACTIONS` is set.
  - The network is a map from URL to response. A URL missing from the map is a request error. The release metadata is handed in as a value.
  - The filesystem and the log of outbound requests are the fields of class `Host`. Its methods update them in place.
- **The command-line launcher** (`bin/index.js`) is module `Launcher`, written as pure functions.
  - It holds its own copy of the name mapping, which passes unknown names through unchanged.
  - It checks that the artifact exists, and runs the setup script when the first argument is `setup`.
  - It exits with the child's `code || 0`.
  - The host is a value: platform, package root and the set of existing paths. How the child ends is an input.
- **Comment-thread listing** (`pkg/commentThread/commentThread.go`) is module `CommentThreads`.
  - The lister is class `CommentThread`. Its fields are set by the option constructors.
  - `GetWithPagination` builds one request.
  - `List` has a fetch-all loop and an output choice. The loop fetches pages of five by their next-page tokens, stops at ten threads, truncates the last page and flags truncation. It restores `MaxResults` afterwards and leaves `PageToken` at the last token used.
  - The YouTube API is class `CommentThreadsService`. It holds a fixed map from page token to page and logs every request sent.
  - The loop is proved against the function `Paginate`.
  - `PaginateSound` proves what the walk guarantees:
    - the pages requested form a next-page-token chain;
    - the threads returned are the first at most ten of that chain's threads, in order;
    - "more left" holds exactly when threads or pages were left behind.

Redirect following in the installer and the page loop in the lister have no bound in the code. Both take a request budget (`fuel`) here. An outcome of `Unfinished`, `DownloadUnfinished` or `FuelExhausted` means "did not finish within that many requests". `DownloadFuelMonotone` and `PaginateFuelMonotone` show that any larger budget gives the same result once a run finishes.

In five places the code does not do what a reader of its purpose would expect. The model follows the code:

- **No download on demand.** One would expect the launcher to download a missing artifact. The code only checks that the file exists (`bin/index.js:39-44`), and `Launcher.Main` models that.
- **Metadata is queried before the existence check.** One would expect an installed artifact to short-circuit the whole install. In the code the release metadata is requested before the existence check (`bin/postinstall.js:133-140`). `Postinstall.Host.Install` records that request in both cases.
- **No atomic write.** One would expect a failed download not to leave a file at the final path. The code opens the destination for writing before each request (`bin/postinstall.js:44`), so a failed download leaves an empty file at the final path. `Postinstall.InstallTwice` proves that the next install then skips the download. `Launcher.InstallThenLaunch` proves that the launcher then spawns that file.
- **Two fields are never sent.** `AuthorChannelId` and `TextOriginal` are stored by their options but never added to a list request (`pkg/commentThread/commentThread.go:117-165`). `CommentThreads.BuildRequest` has no filter for them.
- **Fetch-all metadata is never printed.** In fetch-all mode the JSON and YAML outputs print only the threads, so the truncation metadata is computed but never shown (`pkg/commentThread/commentThread.go:284-300`).

## Model

| member | source | states |
|---|---|---|
| Postinstall.FileName | bin/postinstall.js:78-97 | succeeds exactly for OS darwin/linux/win32 and arch x64/arm64; otherwise fails with UnsupportedPlatform(os, arch); the name starts with `yutu-` and ends in `.exe` iff the OS is win32 |
| Postinstall.SupportedFileNamesDarwin | bin/postinstall.js:78-97 | darwin is kept and x64 becomes amd64: the names are `yutu-darwin-amd64` and `yutu-darwin-arm64` |
| Postinstall.SupportedFileNamesLinux | bin/postinstall.js:78-97 | linux is kept and x64 becomes amd64: the names are `yutu-linux-amd64` and `yutu-linux-arm64` |
| Postinstall.SupportedFileNamesWindows | bin/postinstall.js:78-97 | win32 becomes windows, x64 becomes amd64 and `.exe` is added: the names are `yutu-windows-amd64.exe` and `yutu-windows-arm64.exe` |
| Postinstall.FileNameInjective | bin/postinstall.js:89-97 | distinct supported platforms get distinct artifact names |
| Postinstall.FindAsset | bin/postinstall.js:101 | the index of the first asset whose name equals the file name exactly; none iff no asset has that name |
| Postinstall.VersionTag | bin/postinstall.js:113 | `latest` stays `latest`; any other version becomes `v` followed by the version |
| Postinstall.FallbackUrl | bin/postinstall.js:111-118 | the fallback URL ends with `/` and the file name |
| Postinstall.GetBinaryUrl | bin/postinstall.js:74-119 | fails iff the platform is unsupported; the file name is FileName's in both branches; with a matching asset, the URL is the download URL of the first asset with that name; otherwise the URL is the fallback |
| Postinstall.Download | bin/postinstall.js:40-72 | the run requests the given URL first; it requests at most `fuel` URLs; it is unfinished only after using all of them |
| Postinstall.DownloadFollowsRedirectChain | bin/postinstall.js:46-55 | each request but the last got a 301/302 whose Location is the next one; a save comes from a 200 with that body; a failure comes from a missing response, or from a non-200 non-redirect status carried in the error |
| Postinstall.DownloadFuelMonotone | bin/postinstall.js:48-50 | a download that finishes within n requests ends identically with any larger budget |
| Postinstall.Written | bin/postinstall.js:44-64 | after an attempt the file holds the body iff it was saved, and is empty otherwise; its mode is 0o755 iff it was saved and the OS is not win32 |
| Postinstall.DestPath | bin/postinstall.js:126-134 | the destination is `<binaries directory>/<file name>`: it lies inside the binaries directory, is never the directory itself, and its last component is the file name |
| Postinstall.ExitStatus | bin/postinstall.js:147-152 | status 1 iff the install aborted with an error; 0 iff it was CI-skipped, already present or installed |
| Postinstall.Host.ResolveBinaryUrl | bin/postinstall.js:89-100 | returns GetBinaryUrl's result; the metadata request is logged only when the platform is supported; the files are unchanged |
| Postinstall.Host.DownloadFile | bin/postinstall.js:40-72 | ends as Download says; logs exactly Download's requests; when a request was made, the destination holds Written's content and mode; directories unchanged |
| Postinstall.Host.Install | bin/postinstall.js:121-153 | creates the binaries directory if missing; an unsupported platform aborts with no request and no file change; an existing destination is left untouched after the metadata request; otherwise the download's requests, file and outcome follow Download |
| Postinstall.Host.Postinstall | bin/postinstall.js:155-158 | with CI or GITHUB_ACTIONS set (non-empty), nothing happens; otherwise Install's effect |
| Postinstall.InstallTwice | bin/postinstall.js:129-143 | once a first install made a download attempt, even a failed one, the second finds the file, makes only the metadata request and reports AlreadyPresent |
| Launcher.BinaryName | bin/index.js:12-33 | the name is `yutu-`, the OS mapped by the installer's table or passed through unchanged when unknown, `-`, the arch mapped or passed through likewise, and `.exe` exactly when the OS is win32; it equals the installer's file name on every supported platform |
| Launcher.BinaryPath | bin/index.js:35-37 | the launcher looks exactly where the installer writes |
| Launcher.Arguments | bin/index.js:50 | the forwarded arguments are argv without its first two entries |
| Launcher.ExitCode | bin/index.js:73-75 | a non-zero code is passed on; status 0 iff the code is missing or zero |
| Launcher.AwaitChild | bin/index.js:84-96 | the command is spawned; a spawn error exits with 1; an exit passes on ExitCode of the child's code with no error output |
| Launcher.Main | bin/index.js:49-97 | something is spawned iff the setup script (first argument `setup`) or the artifact (otherwise) exists; setup runs `node <script>`; otherwise the artifact gets the arguments verbatim; nothing spawned means exit 1 with a diagnostic |
| Launcher.InstalledArtifactIsLaunched | bin/index.js:81-87 | on a supported platform with the installer's destination present, a non-setup launch spawns that file with the arguments |
| Launcher.SetupElsewhereIsForwarded | bin/index.js:50-53 | `setup` in any position but the first is passed to the artifact as an ordinary argument |
| Launcher.InstallThenLaunch | bin/index.js:35-47 | after an install that installed, found the file, or made a failed download attempt, the next non-setup launch spawns the installer's destination |
| CommentThreads.ClampMaxResults | pkg/commentThread/commentThread.go:381-388 | the stored page size is 1 when the argument is not positive, and otherwise the argument; so it is always at least 1 |
| CommentThreads.Configure | pkg/commentThread/commentThread.go:56-64 | the lister's settings after applying the options in order to the zero values; MaxResults is never negative |
| CommentThreads.ConfiguredMaxResults | pkg/commentThread/commentThread.go:56-64 | after the options, MaxResults is never negative; it is at least 1 iff some WithMaxResults option was applied |
| CommentThreads.PageSize | pkg/commentThread/commentThread.go:132-140 | 5 in fetch-all mode; else MaxResults when positive; else 20 |
| CommentThreads.ApplyFilters | pkg/commentThread/commentThread.go:124-165 | a filter is present iff it is among those considered and its field is non-empty; it carries the field's value |
| CommentThreads.BuildRequest | pkg/commentThread/commentThread.go:117-165 | the ids are sent iff non-empty; each string filter is sent iff its field is non-empty, with that value; the page size is PageSize; the requested token is the configured PageToken |
| CommentThreads.ToResponse | pkg/commentThread/commentThread.go:172-184 | threads, next token and PageInfo are copied; TotalResults is PageInfo's when present, else 0; the previous-page token is empty |
| CommentThreads.Paginate | pkg/commentThread/commentThread.go:219-259 | the loop's walk from `token`, with `acc` collected from the pages `visited` and at most `fuel` more requests: the tokens requested and how it ended. Its properties are stated by PaginateSound, FetchAllTruncation and PaginateFuelMonotone, and FetchPages is proved equal to it |
| CommentThreads.LastPageSound | pkg/commentThread/commentThread.go:231-256 | a page that ends the loop yields the chain's first threads, truncated to ten, and the right more-left flag |
| CommentThreads.PaginateSound | pkg/commentThread/commentThread.go:219-259 | the walk requests a next-page-token chain starting at the current token; a finished walk returns the chain's first min(10, all) threads in order; it flags more-left iff threads or pages were left; it goes past a page only when that page left fewer than ten; a failed walk failed on its last token |
| CommentThreads.FetchAllCollects | pkg/commentThread/commentThread.go:207-259 | the walk from the configured token is sound and requests that token first |
| CommentThreads.FetchAllTruncation | pkg/commentThread/commentThread.go:210-256 | a finished walk returns at most ten threads; it flags more-left only with exactly ten; otherwise it returned every thread of the chain, ending at a page without a next token |
| CommentThreads.PaginateFuelMonotone | pkg/commentThread/commentThread.go:219-259 | a walk that finishes within n requests ends identically with any larger budget |
| CommentThreads.FetchAllRequest | pkg/commentThread/commentThread.go:213-224 | a loop request asks for the given token with page size 5 and the given parts |
| CommentThreads.FetchAllRequests | pkg/commentThread/commentThread.go:219-224 | one loop request per visited token |
| CommentThreads.Render | pkg/commentThread/commentThread.go:283-317 | JSON and YAML print the whole response only in single-page mode, and otherwise just the threads; a table lists the threads; any other format prints nothing |
| CommentThreads.Annotated | pkg/commentThread/commentThread.go:261-277 | the last response carries all collected threads; metadata says truncated iff more was left, with the count fetched |
| CommentThreads.CommentThreadsService.Do | pkg/commentThread/commentThread.go:167-170 | the request is logged; the answer is the page for the requested token, or an error when there is none |
| CommentThreads.CommentThread.constructor | pkg/commentThread/commentThread.go:56-64 | the lister's fields are the options applied in order to the zero values |
| CommentThreads.CommentThread.Apply | pkg/commentThread/commentThread.go:357-448 | one option sets its field and no other, with WithMaxResults clamped to at least 1 |
| CommentThreads.CommentThread.SetAllThreadsRelatedToChannelId | pkg/commentThread/commentThread.go:357-361 | sets that field only |
| CommentThreads.CommentThread.SetAuthorChannelId | pkg/commentThread/commentThread.go:363-367 | sets that field only |
| CommentThreads.CommentThread.SetChannelId | pkg/commentThread/commentThread.go:369-373 | sets that field only |
| CommentThreads.CommentThread.SetIds | pkg/commentThread/commentThread.go:375-379 | sets that field only |
| CommentThreads.CommentThread.SetMaxResults | pkg/commentThread/commentThread.go:381-388 | sets that field only (the clamp is applied by the caller) |
| CommentThreads.CommentThread.SetModerationStatus | pkg/commentThread/commentThread.go:390-394 | sets that field only |
| CommentThreads.CommentThread.SetOrder | pkg/commentThread/commentThread.go:396-400 | sets that field only |
| CommentThreads.CommentThread.SetSearchTerms | pkg/commentThread/commentThread.go:402-406 | sets that field only |
| CommentThreads.CommentThread.SetTextFormat | pkg/commentThread/commentThread.go:408-412 | sets that field only |
| CommentThreads.CommentThread.SetTextOriginal | pkg/commentThread/commentThread.go:414-418 | sets that field only |
| CommentThreads.CommentThread.SetVideoId | pkg/commentThread/commentThread.go:420-424 | sets that field only |
| CommentThreads.CommentThread.SetPageToken | pkg/commentThread/commentThread.go:438-442 | sets that field only |
| CommentThreads.CommentThread.SetFetchAll | pkg/commentThread/commentThread.go:444-448 | sets that field only |
| CommentThreads.CommentThread.GetWithPagination | pkg/commentThread/commentThread.go:117-185 | sends exactly BuildRequest of the current fields; answers with the page for PageToken, or the error |
| CommentThreads.CommentThread.FetchPage | pkg/commentThread/commentThread.go:220-227 | sets PageToken to the token, then sends that one request |
| CommentThreads.CommentThread.AddPage | pkg/commentThread/commentThread.go:231-258 | the count equals the collected threads; the loop stops iff the page overflows the ten, has no next token, or reaches ten; an overflowing page is truncated and flags more-left; a full-fitting last page flags more-left iff it has a next token |
| CommentThreads.CommentThread.FetchPages | pkg/commentThread/commentThread.go:216-259 | the loop requests exactly the walk's tokens, one request of page size 5 each; it leaves PageToken at the last; it returns the walk's threads, flag and last page, or its error |
| CommentThreads.CommentThread.FetchAll | pkg/commentThread/commentThread.go:207-281 | after a finished walk, MaxResults is restored and PageToken is left at the last token; the last response is annotated; on a page error that error is returned and MaxResults stays 5 |
| CommentThreads.CommentThread.Collect | pkg/commentThread/commentThread.go:190-281 | single-page mode sends one request from the configured PageToken and changes no field; fetch-all mode has FetchAll's effect |
| CommentThreads.CommentThread.List | pkg/commentThread/commentThread.go:187-319 | Collect's effect; an error prints nothing; otherwise the output is Render of what was collected |

## Left out

- setup-google-cloud.js is not part of this model: it is interactive browser automation with no state to verify.
- Console and standard-output messages are left out: the installer's progress lines and the launcher's setup banner. The launcher's diagnostics are kept as lines of text, but their exact wording is not proved.
- Real I/O is replaced by oracles:
  - HTTPS requests and JSON parsing: the metadata is a `Release` value, where `Unavailable` stands for a network error, a parse error or a missing `assets`;
  - stream piping; recursive `mkdir`, which is modelled as adding the one directory;
  - `chmod`, which is the mode field;
  - `spawn` with inherited stdio and environment, where only the command and how the child ends are modelled.
- Postinstall.Host.Install: filesystem calls never fail and requests never hang in this model. The code's remaining failure paths are therefore not expressed:
  - a `mkdirSync` that throws, which the code catches and turns into exit status 1;
  - a failing `createWriteStream` or `chmodSync`, which escapes the catch and crashes the process;
  - a metadata request or download that never completes, since the code sets no timeout.
- Postinstall.Download: a redirect whose Location header is missing is not modelled; the response record always carries a location string.
- Postinstall.GetBinaryUrl: an asset whose download URL is missing is not distinguished from one carrying a string.
- Platform names that are JavaScript object-prototype keys (such as `constructor`) are not modelled, because Node never reports such platform or architecture names.
- Postinstall.Download and CommentThreads.Paginate: the unbounded redirect recursion and the unbounded page loop are bounded by a request budget, so only runs that finish within it are described exactly.
- Concurrency between simultaneous first-run installs is not modelled; the code has no locking.
- `Get`, `Insert` and `WithService` in commentThread.go are left out. `Get` duplicates the request builder, `Insert` is a foreign API call, and `WithService` handles authentication.
- CommentThreads.CommentThread.FetchAll: the `lastResponse != nil` guard is not modelled, because the loop always makes at least one request before reaching it.
- The metadata's `message` text is left out.
- The `jpath` filter is left out, as are the JSON, YAML and table encodings themselves: `Render` models only which value each format prints.
- CommentThreads.CommentThreadsService.Do: the API error is reduced to the failing page token, rather than the joined Go error.
- CommentThreads.Item: a comment thread is reduced to the four fields the table shows.
- `MaxResults` and `TotalResults` are unbounded integers rather than int64; no value in the code comes near the 64-bit range.
