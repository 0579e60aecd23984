# Yodow download bridge, modelled in Dafny

The Android host activity of the Yodow Flutter app exposes one method,
`download(url, format)`, over a Flutter method channel. It validates the
request, makes sure the bundled `yt-dlp` and `ffmpeg` binaries for the
device's ABI are in the app's private storage, builds a `yt-dlp` command
line for the requested audio or video format, runs it, and answers
`{success, message}`. This project models that logic
(`android/app/src/main/kotlin/com/example/flutterapp/MainActivity.kt`) and
proves what it promises.

Layout (all files verify together):

- `wrappers.dfy` — `Option` and `Result`.
- `text.dfy` — Kotlin's `trim`, `isBlank` and `lowercase` over ASCII, with
  their properties.
- `decimal.dfy` — the decimal rendering of the exit code and its parser.
- `paths.dfy` — `File(dir, name)` and `File.parentFile`.
- `storage.dfy` — the file system as a map from path to directory or file
  (bytes and executable bit), and `mkdirs`.
- `download.dfy` — module `DownloadBridge`: validation, ABI and output
  directory choice, binary installation, command construction, reply
  mapping, the whole operation as the functions `RunResult` and
  `DownloadResult`, and the class `MainActivity` whose methods
  `EnsureBinary`, `RunDownload` and `HandleDownload` change the file system
  in place and are proved equal to those functions.
- `properties.dfy` — module `DownloadProperties`: what a `download` call
  promises as a whole, and the worked requests.

The platform is passed in as an `Environment`: `filesDir`,
`Build.SUPPORTED_ABIS`, the external downloads directory (optional) and the
bundled assets, keyed by the path the activity opens them with. Starting
the process is a parameter `exec` from the command line to what the process
yields: its merged output and exit code, or the error thrown on start.
The command line has seven fixed leading arguments (binary, the two
flag/value pairs, `--no-playlist`, the URL), followed by six audio options
or four merge options, so 13 or 11 arguments in all.

## Model

| member | source | states |
|---|---|---|
| Text.Trim | android/app/src/main/kotlin/com/example/flutterapp/MainActivity.kt:28-29 | the trimmed argument neither starts nor ends with whitespace |
| Text.TrimSlice | android/app/src/main/kotlin/com/example/flutterapp/MainActivity.kt:28-29 | the trimmed argument is a slice of the original and everything cut off on either side is whitespace |
| Text.TrimBlank | android/app/src/main/kotlin/com/example/flutterapp/MainActivity.kt:28-31 | `isBlank` after `trim` holds exactly when the trimmed URL is empty, exactly when the raw URL was blank |
| Text.TrimIdempotent | android/app/src/main/kotlin/com/example/flutterapp/MainActivity.kt:28 | trimming twice is trimming once |
| Text.ToLowerIdempotent | android/app/src/main/kotlin/com/example/flutterapp/MainActivity.kt:29 | a lower-cased format has no upper-case letter and lower-casing it again changes nothing |
| Text.ToLowerKeepsTrimmed | android/app/src/main/kotlin/com/example/flutterapp/MainActivity.kt:29 | lower-casing a trimmed format leaves it trimmed |
| Decimal.IntRoundTrip | android/app/src/main/kotlin/com/example/flutterapp/MainActivity.kt:106 | the exit code written into the failure message parses back to the same number |
| Decimal.IntToStringInjective | android/app/src/main/kotlin/com/example/flutterapp/MainActivity.kt:106 | different exit codes are written differently |
| Paths.Parent | android/app/src/main/kotlin/com/example/flutterapp/MainActivity.kt:71 | `parentFile` is the prefix before the last separator, and exists exactly when the path has a separator |
| Paths.ParentOfJoin | android/app/src/main/kotlin/com/example/flutterapp/MainActivity.kt:71 | the parent of `File(dir, name)` is `dir` when `name` holds no separator, so `--ffmpeg-location` gets the binaries' directory |
| Storage.MkDirs | android/app/src/main/kotlin/com/example/flutterapp/MainActivity.kt:65 | after `mkdirs` the directory exists, a newly created entry is a directory, an existing entry is left as it is, and no other entry is added or changed |
| DownloadBridge.Validate | android/app/src/main/kotlin/com/example/flutterapp/MainActivity.kt:28-39 | a refusal is never a success; an accepted request has a non-empty URL and one of the five formats |
| DownloadBridge.BlankUrlRejected | android/app/src/main/kotlin/com/example/flutterapp/MainActivity.kt:28-34 | a missing, empty or all-whitespace URL is refused with exactly `URL is required`, whatever the format |
| DownloadBridge.FormatChecked | android/app/src/main/kotlin/com/example/flutterapp/MainActivity.kt:29-39 | with a non-blank URL the request is accepted exactly when the trimmed, lower-cased format is mp3, flac, wav, mp4 or mkv, and otherwise refused with `Unsupported format: ` and that format |
| DownloadBridge.NormalizeIsStable | android/app/src/main/kotlin/com/example/flutterapp/MainActivity.kt:28-29 | normalising the URL or the format a second time changes nothing |
| DownloadBridge.ChooseAbi | android/app/src/main/kotlin/com/example/flutterapp/MainActivity.kt:59 | the ABI is the first supported ABI, or `arm64-v8a` when there is none |
| DownloadBridge.OutputDir | android/app/src/main/kotlin/com/example/flutterapp/MainActivity.kt:63-64 | the output directory is the external downloads directory when present, else `filesDir/downloads` |
| DownloadBridge.Install | android/app/src/main/kotlin/com/example/flutterapp/MainActivity.kt:110-125 | `ensureBinary` returns `filesDir/bin/<abi>/<name>`; it fails only when nothing is there and the asset is missing, and a failure leaves nothing at that path; an existing entry is kept as it is; otherwise the asset's bytes are written there, executable; the binaries' directory is kept when present and created as a directory when absent, and no other path changes |
| DownloadBridge.InstallIdempotent | android/app/src/main/kotlin/com/example/flutterapp/MainActivity.kt:110-125 | a second `ensureBinary` with the same arguments changes nothing and returns the same |
| DownloadBridge.CommandShape | android/app/src/main/kotlin/com/example/flutterapp/MainActivity.kt:69-94 | the command is the seven fixed arguments in order, then exactly the six audio options for mp3/flac/wav or exactly the four merge options for mp4/mkv, never both, 13 or 11 arguments |
| DownloadBridge.BuildCommand | android/app/src/main/kotlin/com/example/flutterapp/MainActivity.kt:69-94 | the list built by appending to the mutable list is that command line |
| DownloadBridge.ClassifyExit | android/app/src/main/kotlin/com/example/flutterapp/MainActivity.kt:103-107 | success exactly when the exit code is 0; message `Completed.` or `Failed with code N.`, a line break, then the whole output |
| DownloadBridge.ClassifyExitInjective | android/app/src/main/kotlin/com/example/flutterapp/MainActivity.kt:103-107 | the reply determines the exit code and the captured output |
| DownloadBridge.ErrorReply | android/app/src/main/kotlin/com/example/flutterapp/MainActivity.kt:45-53 | a thrown error is a failure whose message is the error's message, or `Unknown error` when it has none |
| DownloadBridge.MainActivity.EnsureBinary | android/app/src/main/kotlin/com/example/flutterapp/MainActivity.kt:110-125 | the new file system and the returned path or error are those of `Install` on the old file system |
| DownloadBridge.MainActivity.RunDownload | android/app/src/main/kotlin/com/example/flutterapp/MainActivity.kt:58-108 | the new file system and the reply or thrown error are those of `RunResult` on the old file system |
| DownloadBridge.MainActivity.HandleDownload | android/app/src/main/kotlin/com/example/flutterapp/MainActivity.kt:27-56 | the new file system and the reply are those of `DownloadResult` on the old file system |
| DownloadProperties.RunRunsCommand | android/app/src/main/kotlin/com/example/flutterapp/MainActivity.kt:58-107 | with both binaries available, `runDownload` starts exactly the expected command line and answers the classification of its exit, or throws the start error |
| DownloadProperties.RunNeedsBinaries | android/app/src/main/kotlin/com/example/flutterapp/MainActivity.kt:58-61 | without them it throws before starting anything, naming the first missing asset, `yt-dlp` before `ffmpeg` |
| DownloadProperties.RunFrame | android/app/src/main/kotlin/com/example/flutterapp/MainActivity.kt:58-67 | the activity itself, in `runDownload`, changes no path but the binaries' directory, the two binaries and the output directory (what the started process writes is outside the model) |
| DownloadProperties.RunKeepsBinary | android/app/src/main/kotlin/com/example/flutterapp/MainActivity.kt:60-61 | a binary already in place is left as it is |
| DownloadProperties.AcceptedIsRun | android/app/src/main/kotlin/com/example/flutterapp/MainActivity.kt:41-55 | an accepted request runs with its normalised URL and format, and a thrown error becomes the error reply |
| DownloadProperties.RejectedHasNoEffect | android/app/src/main/kotlin/com/example/flutterapp/MainActivity.kt:31-39 | a refused request leaves the file system unchanged and is answered with the refusal |
| DownloadProperties.RejectedRunsNothing | android/app/src/main/kotlin/com/example/flutterapp/MainActivity.kt:31-39 | the answer to a refused request depends on neither the platform nor any process |
| DownloadProperties.AcceptedRunsCommand | android/app/src/main/kotlin/com/example/flutterapp/MainActivity.kt:41-107 | a valid request with its binaries available is answered from running exactly the expected command line; success exactly when it exits with 0 |
| DownloadProperties.SuccessMeansExitZero | android/app/src/main/kotlin/com/example/flutterapp/MainActivity.kt:103-107 | a successful reply comes only from a valid request whose binaries were available and whose process exited with 0 |
| DownloadProperties.DownloadFrame | android/app/src/main/kotlin/com/example/flutterapp/MainActivity.kt:58-65 | the activity itself, over a download, changes no path but the binaries' directory, the two binaries and the output directory (what the started process writes is outside the model) |
| DownloadProperties.DownloadKeepsBinaries | android/app/src/main/kotlin/com/example/flutterapp/MainActivity.kt:115-122 | a binary in place before a download is in place and unchanged after it, so a second download copies nothing |
| DownloadProperties.NormalUrlKept | android/app/src/main/kotlin/com/example/flutterapp/MainActivity.kt:28 | a URL without surrounding whitespace is used as given |
| DownloadProperties.NormalFormatKept | android/app/src/main/kotlin/com/example/flutterapp/MainActivity.kt:29 | a format without surrounding whitespace or capitals is used as given |
| DownloadProperties.EmptyUrlExample | android/app/src/main/kotlin/com/example/flutterapp/MainActivity.kt:31-34 | `{url: "", format: "mp4"}` is answered `URL is required` and changes nothing |
| DownloadProperties.UnsupportedFormatExample | android/app/src/main/kotlin/com/example/flutterapp/MainActivity.kt:36-39 | `{url: "https://x", format: "avi"}` is answered `Unsupported format: avi` and changes nothing |
| DownloadProperties.MixedCaseFormatExample | android/app/src/main/kotlin/com/example/flutterapp/MainActivity.kt:29 | the format `" MP3 "` normalises to `mp3` |
| DownloadProperties.CompletedExample | android/app/src/main/kotlin/com/example/flutterapp/MainActivity.kt:103-104 | an mp3 download whose process prints `done` and exits with 0 is answered `Completed.`, a line break, `done` |

## Left out

- The method channel, its registration and `notImplemented` for other method names: framework dispatch; the model starts at `handleDownload`.
- The single-thread executor and `runOnUiThread`: the model runs the scheduled work in sequence and returns its reply; ordering between requests and delivery on the UI thread are not modelled.
- DownloadProperties.RunFrame: the frame covers only what the activity itself writes (the binaries' directory, the two binaries, the output directory); the media files the started `yt-dlp` writes under the output directory, and anything else the process writes, are outside the model, because `exec` is given the command line and not the file system.
- DownloadProperties.DownloadFrame: the same limit as `RunFrame`: the activity's own writes only; the files written by the started process are not modelled.
- Starting the process, merging its streams, reading its output and waiting for it: replaced by the parameter `exec`; an `InterruptedException` while waiting is not modelled, and neither is the absence of a timeout.
- Unicode: whitespace and lower-casing cover ASCII only (Kotlin also trims Unicode spaces, and lower-cases letters such as the Kelvin sign to `k`, so a format written with it is accepted by the app and refused by the model).
- A channel argument that is present but not a string (Kotlin throws on the cast): not modelled; an argument is a string or missing.
- Copying the asset: its bytes are taken whole; an I/O error part-way, `setExecutable` failing and other failing platform calls are not modelled. A missing asset throws an error whose message is taken to be the asset path.
- The asset key is the string `assets/bin/android/<abi>/<name>` the activity passes to the asset manager; how the build packages assets is not part of this model.
- Storage.MkDirs: creates only the named directory, not its missing ancestors (`mkdirs` also creates those), and its failure (it returns false without throwing) is not observed; an existing plain file at that path is left in place, as `mkdirs` does.
- `File` path normalisation (duplicate or trailing separators, `absolutePath` of a relative path, the parent of a top-level path): paths are joined with one `/`, and `filesDir` and the external directory are taken as absolute paths without a trailing separator.
- The exit code is an unbounded integer; its decimal rendering agrees with Kotlin's for every 32-bit value.
- DownloadBridge.Validate: its own contract states only that refusals are failures and what an accepted request carries; the exact refusals and the acceptance condition are stated by `BlankUrlRejected` and `FormatChecked`.
