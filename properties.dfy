/**
 * What a `download` call promises as a whole: which command line it runs,
 * what a refusal or a success means, and which files it can touch.
 */
module DownloadProperties {
  import opened Wrappers
  import opened Text
  import opened Paths
  import opened Storage
  import opened DownloadBridge

  /** The command line a valid request runs, once both binaries are in place. */
  function RequestCommand(env: Environment, url: string, format: string): seq<string> {
    var abi := ChooseAbi(env.supportedAbis);
    Command(BinaryPath(env.filesDir, abi, YtDlp), BinaryDir(env.filesDir, abi),
            Join(OutputDir(env.externalDownloads, env.filesDir), OutputPattern), url, format)
  }

  /** Each of the two binaries is either installed already or bundled as an asset. */
  predicate BinariesAvailable(env: Environment, fs: FileSystem) {
    var abi := ChooseAbi(env.supportedAbis);
    (BinaryPath(env.filesDir, abi, YtDlp) in fs || AssetPath(abi, YtDlp) in env.assets) &&
    (BinaryPath(env.filesDir, abi, Ffmpeg) in fs || AssetPath(abi, Ffmpeg) in env.assets)
  }

  /** The two binaries and their directory are three different paths. */
  lemma BinaryPathsDistinct(filesDir: string, abi: string)
    ensures BinaryPath(filesDir, abi, YtDlp) != BinaryPath(filesDir, abi, Ffmpeg)
    ensures BinaryPath(filesDir, abi, YtDlp) != BinaryDir(filesDir, abi)
    ensures BinaryPath(filesDir, abi, Ffmpeg) != BinaryDir(filesDir, abi)
  {
    var y, f := BinaryPath(filesDir, abi, YtDlp), BinaryPath(filesDir, abi, Ffmpeg);
    assert |y| == |f| && y[|y| - 1] == 'p' && f[|f| - 1] == 'g';
  }

  /** With both binaries available, `runDownload` runs exactly
      `RequestCommand` and returns the classification of its exit, or throws
      the error the process start threw. */
  lemma RunRunsCommand(env: Environment, fs: FileSystem, url: string, format: string,
                       exec: seq<string> -> ProcessOutcome)
    requires BinariesAvailable(env, fs)
    ensures var r := RunResult(env, fs, url, format, exec).result;
      match exec(RequestCommand(env, url, format))
      case Exited(output, code) => r == Success(ClassifyExit(code, output))
      case SpawnFailed(message) => r == Failure(Thrown(message))
  {
    var abi := ChooseAbi(env.supportedAbis);
    BinaryPathsDistinct(env.filesDir, abi);
    var ytDlp := Install(env, fs, YtDlp, abi);
    assert ytDlp.file == Success(BinaryPath(env.filesDir, abi, YtDlp));
    var ffmpeg := Install(env, ytDlp.fs, Ffmpeg, abi);
    assert ffmpeg.file == Success(BinaryPath(env.filesDir, abi, Ffmpeg));
    ParentOfJoin(BinaryDir(env.filesDir, abi), Ffmpeg);
    var outputDir := OutputDir(env.externalDownloads, env.filesDir);
    assert Command(ytDlp.file.value, Parent(ffmpeg.file.value).value, Join(outputDir, OutputPattern), url, format)
      == RequestCommand(env, url, format);
  }

  /** Without them, `runDownload` throws before any process is started,
      naming the first missing asset: `yt-dlp`'s before `ffmpeg`'s. */
  lemma RunNeedsBinaries(env: Environment, fs: FileSystem, url: string, format: string,
                         exec: seq<string> -> ProcessOutcome)
    requires !BinariesAvailable(env, fs)
    ensures var abi := ChooseAbi(env.supportedAbis);
      var missing := if BinaryPath(env.filesDir, abi, YtDlp) !in fs && AssetPath(abi, YtDlp) !in env.assets
                     then AssetPath(abi, YtDlp) else AssetPath(abi, Ffmpeg);
      RunResult(env, fs, url, format, exec).result == Failure(Thrown(Some(missing)))
  {
  }

  /** The activity's own part of `runDownload` touches no path except the
      binaries' directory, the two binaries and the output directory; what the
      started process writes is not part of `fs`. */
  lemma RunFrame(env: Environment, fs: FileSystem, url: string, format: string,
                 exec: seq<string> -> ProcessOutcome, p: string)
    requires var abi := ChooseAbi(env.supportedAbis);
      p !in {BinaryDir(env.filesDir, abi), BinaryPath(env.filesDir, abi, YtDlp),
             BinaryPath(env.filesDir, abi, Ffmpeg), OutputDir(env.externalDownloads, env.filesDir)}
    ensures var fs' := RunResult(env, fs, url, format, exec).fs;
      (p in fs' <==> p in fs) && (p in fs ==> fs'[p] == fs[p])
  {
  }

  /** `runDownload` leaves a binary that is already in place as it is. */
  lemma RunKeepsBinary(env: Environment, fs: FileSystem, url: string, format: string,
                       exec: seq<string> -> ProcessOutcome, name: string)
    requires name == YtDlp || name == Ffmpeg
    requires BinaryPath(env.filesDir, ChooseAbi(env.supportedAbis), name) in fs
    ensures var path := BinaryPath(env.filesDir, ChooseAbi(env.supportedAbis), name);
      var fs' := RunResult(env, fs, url, format, exec).fs;
      path in fs' && fs'[path] == fs[path]
  {
  }

  /** An accepted request is run with its normalised URL and format, and
      whatever `runDownload` throws becomes a failure reply. */
  lemma AcceptedIsRun(env: Environment, fs: FileSystem, urlArg: Option<string>, formatArg: Option<string>,
                      exec: seq<string> -> ProcessOutcome)
    requires Validate(urlArg, formatArg).Accepted?
    ensures var v := Validate(urlArg, formatArg);
      var run := RunResult(env, fs, v.url, v.format, exec);
      DownloadResult(env, fs, urlArg, formatArg, exec) ==
        Handled(run.fs, match run.result case Success(reply) => reply case Failure(e) => ErrorReply(e))
  {
  }

  /** A refused request leaves the file system alone and is answered with
      the refusal. */
  lemma RejectedHasNoEffect(env: Environment, fs: FileSystem, urlArg: Option<string>,
                            formatArg: Option<string>, exec: seq<string> -> ProcessOutcome)
    requires Validate(urlArg, formatArg).Rejected?
    ensures DownloadResult(env, fs, urlArg, formatArg, exec) == Handled(fs, Validate(urlArg, formatArg).reply)
  {
  }

  /** The answer to a refused request depends neither on the platform nor on
      what any process would do: nothing is run. */
  lemma RejectedRunsNothing(env: Environment, env': Environment, fs: FileSystem, urlArg: Option<string>,
                            formatArg: Option<string>, exec: seq<string> -> ProcessOutcome,
                            exec': seq<string> -> ProcessOutcome)
    requires Validate(urlArg, formatArg).Rejected?
    ensures DownloadResult(env, fs, urlArg, formatArg, exec) == DownloadResult(env', fs, urlArg, formatArg, exec')
  {
  }

  /** For a valid request whose binaries are available, the reply is the
      classification of running exactly `RequestCommand`; the reply is a
      success exactly when that process exits with code 0. */
  lemma AcceptedRunsCommand(env: Environment, fs: FileSystem, urlArg: Option<string>, formatArg: Option<string>,
                            exec: seq<string> -> ProcessOutcome)
    requires Validate(urlArg, formatArg).Accepted?
    requires BinariesAvailable(env, fs)
    ensures var v := Validate(urlArg, formatArg);
      var reply := DownloadResult(env, fs, urlArg, formatArg, exec).reply;
      match exec(RequestCommand(env, v.url, v.format))
      case Exited(output, code) => reply == ClassifyExit(code, output) && (reply.success <==> code == 0)
      case SpawnFailed(message) => reply == ErrorReply(Thrown(message))
  {
    var v := Validate(urlArg, formatArg);
    AcceptedIsRun(env, fs, urlArg, formatArg, exec);
    RunRunsCommand(env, fs, v.url, v.format, exec);
  }

  /** A successful reply only ever comes from a valid request whose process
      was started with `RequestCommand` and exited with code 0. */
  lemma SuccessMeansExitZero(env: Environment, fs: FileSystem, urlArg: Option<string>, formatArg: Option<string>,
                             exec: seq<string> -> ProcessOutcome)
    requires DownloadResult(env, fs, urlArg, formatArg, exec).reply.success
    ensures Validate(urlArg, formatArg).Accepted?
    ensures var v := Validate(urlArg, formatArg);
      BinariesAvailable(env, fs) &&
      exec(RequestCommand(env, v.url, v.format)).Exited? &&
      exec(RequestCommand(env, v.url, v.format)).exitCode == 0
  {
    if Validate(urlArg, formatArg).Rejected? {
      RejectedHasNoEffect(env, fs, urlArg, formatArg, exec);
    } else {
      AcceptedSuccess(env, fs, urlArg, formatArg, exec);
    }
  }

  lemma AcceptedSuccess(env: Environment, fs: FileSystem, urlArg: Option<string>, formatArg: Option<string>,
                        exec: seq<string> -> ProcessOutcome)
    requires Validate(urlArg, formatArg).Accepted?
    requires DownloadResult(env, fs, urlArg, formatArg, exec).reply.success
    ensures var v := Validate(urlArg, formatArg);
      BinariesAvailable(env, fs) &&
      exec(RequestCommand(env, v.url, v.format)).Exited? &&
      exec(RequestCommand(env, v.url, v.format)).exitCode == 0
  {
    var v := Validate(urlArg, formatArg);
    AcceptedIsRun(env, fs, urlArg, formatArg, exec);
    if BinariesAvailable(env, fs) {
      RunRunsCommand(env, fs, v.url, v.format, exec);
    } else {
      RunNeedsBinaries(env, fs, v.url, v.format, exec);
    }
  }

  /** The activity itself, over a whole download, touches no path of the file
      system except the binaries' directory, the two binaries and the output
      directory; the files the started process writes are not modelled. */
  lemma DownloadFrame(env: Environment, fs: FileSystem, urlArg: Option<string>, formatArg: Option<string>,
                      exec: seq<string> -> ProcessOutcome, p: string)
    requires var abi := ChooseAbi(env.supportedAbis);
      p !in {BinaryDir(env.filesDir, abi), BinaryPath(env.filesDir, abi, YtDlp),
             BinaryPath(env.filesDir, abi, Ffmpeg), OutputDir(env.externalDownloads, env.filesDir)}
    ensures var fs' := DownloadResult(env, fs, urlArg, formatArg, exec).fs;
      (p in fs' <==> p in fs) && (p in fs ==> fs'[p] == fs[p])
  {
  }

  /** Downloading again installs nothing again: a binary in place before a
      download is in place, unchanged, after it. */
  lemma DownloadKeepsBinaries(env: Environment, fs: FileSystem, urlArg: Option<string>,
                              formatArg: Option<string>, exec: seq<string> -> ProcessOutcome, name: string)
    requires name == YtDlp || name == Ffmpeg
    requires BinaryPath(env.filesDir, ChooseAbi(env.supportedAbis), name) in fs
    ensures var path := BinaryPath(env.filesDir, ChooseAbi(env.supportedAbis), name);
      var fs' := DownloadResult(env, fs, urlArg, formatArg, exec).fs;
      path in fs' && fs'[path] == fs[path]
  {
  }

  // ---------------------------------------------------------------------
  // Worked requests

  /** A URL that is not empty and has no surrounding whitespace is taken as it is. */
  lemma NormalUrlKept(url: string)
    requires url != [] && !IsWhitespace(url[0]) && !IsWhitespace(url[|url| - 1])
    ensures NormalizeUrl(Some(url)) == url && !IsBlank(url)
  {
  }

  /** A format without surrounding whitespace or upper-case letters is taken as it is. */
  lemma NormalFormatKept(format: string)
    requires format != [] ==> !IsWhitespace(format[0]) && !IsWhitespace(format[|format| - 1])
    requires forall i :: 0 <= i < |format| ==> !('A' <= format[i] <= 'Z')
    ensures NormalizeFormat(Some(format)) == format
  {
    TrimUnchanged(format);
    ToLowerUnchanged(format);
    assert NormalizeFormat(Some(format)) == ToLower(Trim(format)) == ToLower(format);
  }

  /** `{url: "", format: "mp4"}` is refused for its URL. */
  lemma EmptyUrlExample(env: Environment, fs: FileSystem, exec: seq<string> -> ProcessOutcome)
    ensures DownloadResult(env, fs, Some(""), Some("mp4"), exec) == Handled(fs, Reply(false, "URL is required"))
  {
  }

  /** `{url: "https://x", format: "avi"}` is refused for its format. */
  lemma UnsupportedFormatExample(env: Environment, fs: FileSystem, exec: seq<string> -> ProcessOutcome)
    ensures DownloadResult(env, fs, Some("https://x"), Some("avi"), exec) ==
      Handled(fs, Reply(false, "Unsupported format: avi"))
  {
    var url, format := "https://x", "avi";
    NormalUrlKept(url);
    NormalFormatKept(format);
    FormatChecked(Some(url), Some(format));
    RejectedHasNoEffect(env, fs, Some(url), Some(format), exec);
  }

  /** The format is compared after trimming and lower-casing, so `" MP3 "` is `mp3`. */
  lemma MixedCaseFormatExample()
    ensures NormalizeFormat(Some(" MP3 ")) == "mp3"
  {
  }

  /** `{url: "https://example.com/v", format: "mp3"}` with a downloader that
      prints `done` and exits with 0 is answered `Completed.` and `done`. */
  lemma CompletedExample(env: Environment, fs: FileSystem, exec: seq<string> -> ProcessOutcome)
    requires forall command :: exec(command) == Exited("done", 0)
    requires BinariesAvailable(env, fs)
    ensures DownloadResult(env, fs, Some("https://example.com/v"), Some("mp3"), exec).reply ==
      Reply(true, "Completed.\ndone")
  {
    var url, format := "https://example.com/v", "mp3";
    NormalUrlKept(url);
    NormalFormatKept(format);
    FormatChecked(Some(url), Some(format));
    assert Validate(Some(url), Some(format)) == Accepted(url, format);
    assert exec(RequestCommand(env, url, format)) == Exited("done", 0);
    assert ClassifyExit(0, "done") == Reply(true, "Completed.\ndone");
    AcceptedRunsCommand(env, fs, Some(url), Some(format), exec);
  }
}
