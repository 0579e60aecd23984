/**
 * The `download` call of the Flutter bridge activity: request normalisation
 * and validation, installation of the bundled `yt-dlp` and `ffmpeg`
 * binaries, construction of the `yt-dlp` command line, and the mapping of
 * the process's exit code, output or error to the `{success, message}`
 * reply. The process itself is a parameter: `exec` gives what running a
 * command line yields.
 */
module DownloadBridge {
  import opened Wrappers
  import opened Text
  import opened Decimal
  import opened Paths
  import opened Storage

  /** The map `{"success": ..., "message": ...}` handed back over the channel. */
  datatype Reply = Reply(success: bool, message: string)

  /** A thrown `Throwable`, of which only the optional message is used. */
  datatype Thrown = Thrown(message: Option<string>)

  /** What starting the process and reading it to the end yields: its merged
      output and exit code, or the error thrown while starting it. */
  datatype ProcessOutcome = Exited(output: string, exitCode: int) | SpawnFailed(message: Option<string>)

  /** What the platform supplies: `filesDir`, `Build.SUPPORTED_ABIS`,
      `getExternalFilesDir(DIRECTORY_DOWNLOADS)` and the bundled assets. */
  datatype Environment = Environment(
    filesDir: string,
    supportedAbis: seq<string>,
    externalDownloads: Option<string>,
    assets: map<string, seq<Byte>>)

  const SupportedFormats: set<string> := {"mp3", "flac", "wav", "mp4", "mkv"}
  const AudioFormats: set<string> := {"mp3", "flac", "wav"}
  const DefaultAbi: string := "arm64-v8a"
  const YtDlp: string := "yt-dlp"
  const Ffmpeg: string := "ffmpeg"
  const OutputPattern: string := "%(title)s.%(ext)s"
  const UrlRequired: string := "URL is required"

  // ---------------------------------------------------------------------
  // Request validation

  /** `call.argument<String>("url")?.trim().orEmpty()` */
  function NormalizeUrl(arg: Option<string>): string {
    Trim(arg.GetOr(""))
  }

  /** `call.argument<String>("format")?.trim()?.lowercase().orEmpty()` */
  function NormalizeFormat(arg: Option<string>): string {
    ToLower(Trim(arg.GetOr("")))
  }

  datatype Validation = Rejected(reply: Reply) | Accepted(url: string, format: string)

  /** The checks made before anything is scheduled: the URL first, then the format. */
  function Validate(urlArg: Option<string>, formatArg: Option<string>): (v: Validation)
    ensures v.Rejected? ==> !v.reply.success
    ensures v.Accepted? ==> v.format in SupportedFormats && v.url != []
  {
    var url := NormalizeUrl(urlArg);
    var format := NormalizeFormat(formatArg);
    if IsBlank(url) then
      Rejected(Reply(false, UrlRequired))
    else if format !in SupportedFormats then
      Rejected(Reply(false, "Unsupported format: " + format))
    else
      Accepted(url, format)
  }

  /** A missing, empty or all-whitespace URL is refused with the same message,
      whatever the format. */
  lemma BlankUrlRejected(urlArg: Option<string>, formatArg: Option<string>)
    requires IsBlank(urlArg.GetOr(""))
    ensures Validate(urlArg, formatArg) == Rejected(Reply(false, UrlRequired))
  {
    TrimBlank(urlArg.GetOr(""));
  }

  /** A URL with some non-whitespace character passes the first check; the
      format is then accepted exactly when its trimmed, lower-cased form is
      one of the five, and otherwise named in the refusal. */
  lemma FormatChecked(urlArg: Option<string>, formatArg: Option<string>)
    requires !IsBlank(urlArg.GetOr(""))
    ensures var f := NormalizeFormat(formatArg);
      Validate(urlArg, formatArg) ==
        if f in SupportedFormats then Accepted(NormalizeUrl(urlArg), f)
        else Rejected(Reply(false, "Unsupported format: " + f))
  {
    TrimBlank(urlArg.GetOr(""));
  }

  /** Normalising is stable: a normalised URL has no surrounding
      whitespace, and a normalised format has neither surrounding whitespace
      nor upper-case letters, so normalising either again changes nothing. */
  lemma NormalizeIsStable(urlArg: Option<string>, formatArg: Option<string>)
    ensures Trim(NormalizeUrl(urlArg)) == NormalizeUrl(urlArg)
    ensures var f := NormalizeFormat(formatArg);
      Trim(f) == f && ToLower(f) == f && NormalizeFormat(Some(f)) == f
  {
    var t := Trim(formatArg.GetOr(""));
    ToLowerKeepsTrimmed(t);
    TrimIdempotent(urlArg.GetOr(""));
    ToLowerIdempotent(t);
  }

  // ---------------------------------------------------------------------
  // Environment choices

  /** `Build.SUPPORTED_ABIS.firstOrNull() ?: "arm64-v8a"` */
  function ChooseAbi(abis: seq<string>): (abi: string)
    ensures abis != [] ==> abi == abis[0]
    ensures abis == [] ==> abi == DefaultAbi
  {
    if abis != [] then abis[0] else DefaultAbi
  }

  /** The external downloads directory when the platform has one, else `filesDir/downloads`. */
  function OutputDir(external: Option<string>, filesDir: string): (dir: string)
    ensures external.Some? ==> dir == external.value
    ensures external.None? ==> dir == Join(filesDir, "downloads")
  {
    external.GetOr(Join(filesDir, "downloads"))
  }

  // ---------------------------------------------------------------------
  // Binary installation

  function AssetPath(abi: string, name: string): string {
    "assets/bin/android/" + abi + "/" + name
  }

  function BinaryDir(filesDir: string, abi: string): string {
    Join(filesDir, "bin/" + abi)
  }

  function BinaryPath(filesDir: string, abi: string, name: string): string {
    Join(BinaryDir(filesDir, abi), name)
  }

  datatype Installed = Installed(fs: FileSystem, file: Result<string, Thrown>)

  /** What `ensureBinary(name, abi)` does to the file system and what it
      returns: the binary's directory is created, the binary is copied from
      the assets and made executable only if nothing is at its path yet, and
      the path is returned; a missing asset throws, naming the asset. */
  function Install(env: Environment, fs: FileSystem, name: string, abi: string): (r: Installed)
    ensures var path := BinaryPath(env.filesDir, abi, name);
      r.file.Success? ==> r.file.value == path && path in r.fs
    ensures var path := BinaryPath(env.filesDir, abi, name);
      r.file.Failure? <==> path !in fs && AssetPath(abi, name) !in env.assets
    ensures r.file.Failure? ==> BinaryPath(env.filesDir, abi, name) !in r.fs
    ensures var path := BinaryPath(env.filesDir, abi, name);
      path in fs ==> r.fs[path] == fs[path]
    ensures var path := BinaryPath(env.filesDir, abi, name);
      path !in fs && AssetPath(abi, name) in env.assets ==>
        r.fs[path] == File(env.assets[AssetPath(abi, name)], true)
    ensures var d := BinaryDir(env.filesDir, abi);
      d in r.fs && r.fs[d] == (if d in fs then fs[d] else Dir)
    ensures forall p :: p != BinaryDir(env.filesDir, abi) && p != BinaryPath(env.filesDir, abi, name) ==>
      (p in r.fs <==> p in fs) && (p in fs ==> r.fs[p] == fs[p])
  {
    var dir := BinaryDir(env.filesDir, abi);
    var path := Join(dir, name);
    var asset := AssetPath(abi, name);
    var fs1 := MkDirs(fs, dir);
    assert path != dir by { assert |path| > |dir|; }
    if path in fs1 then Installed(fs1, Success(path))
    else if asset in env.assets then Installed(fs1[path := File(env.assets[asset], true)], Success(path))
    else Installed(fs1, Failure(Thrown(Some(asset))))
  }

  /** A second `ensureBinary` with the same arguments changes nothing and
      returns what the first returned. */
  lemma {:induction false} InstallIdempotent(env: Environment, fs: FileSystem, name: string, abi: string)
    ensures var once := Install(env, fs, name, abi);
      Install(env, once.fs, name, abi) == once
  {
  }

  // ---------------------------------------------------------------------
  // Command line

  /** The options every download gets, in order. */
  function CommonArgs(ytDlpPath: string, ffmpegDir: string, template: string, url: string): seq<string> {
    [ytDlpPath, "--ffmpeg-location", ffmpegDir, "-o", template, "--no-playlist", url]
  }

  function AudioArgs(format: string): seq<string> {
    ["--extract-audio", "--audio-format", format, "--embed-metadata", "--embed-thumbnail", "--add-metadata"]
  }

  function VideoArgs(format: string): seq<string> {
    ["-f", "bv*+ba/b", "--merge-output-format", format]
  }

  /** The `yt-dlp` command line for a download into `template`. */
  function Command(ytDlpPath: string, ffmpegDir: string, template: string, url: string, format: string): seq<string> {
    CommonArgs(ytDlpPath, ffmpegDir, template, url) +
      (if format in AudioFormats then AudioArgs(format) else VideoArgs(format))
  }

  /** The shape of the command line: seven fixed leading arguments, then
      either the six audio-extraction options or the four merge options,
      never both, so 13 or 11 arguments in all. */
  lemma CommandShape(ytDlpPath: string, ffmpegDir: string, template: string, url: string, format: string)
    requires format in SupportedFormats
    ensures var c := Command(ytDlpPath, ffmpegDir, template, url, format);
      c[..7] == [ytDlpPath, "--ffmpeg-location", ffmpegDir, "-o", template, "--no-playlist", url] &&
      (format in AudioFormats ==>
        |c| == 13 &&
        c[7..] == ["--extract-audio", "--audio-format", format, "--embed-metadata", "--embed-thumbnail", "--add-metadata"]) &&
      (format !in AudioFormats ==> |c| == 11 && c[7..] == ["-f", "bv*+ba/b", "--merge-output-format", format]) &&
      ("--extract-audio" in c[7..] <==> format in AudioFormats) &&
      ("--merge-output-format" in c[7..] <==> format !in AudioFormats)
  {
  }

  /** Builds the command line as the activity does: a mutable list of the
      fixed arguments to which the format's options are appended. */
  method BuildCommand(ytDlpPath: string, ffmpegDir: string, template: string, url: string, format: string)
    returns (command: seq<string>)
    ensures command == Command(ytDlpPath, ffmpegDir, template, url, format)
  {
    command := [ytDlpPath, "--ffmpeg-location", ffmpegDir, "-o", template, "--no-playlist", url];
    if format in AudioFormats {
      command := command + ["--extract-audio", "--audio-format", format, "--embed-metadata", "--embed-thumbnail", "--add-metadata"];
    } else {
      command := command + ["-f", "bv*+ba/b", "--merge-output-format", format];
    }
  }

  // ---------------------------------------------------------------------
  // Replies

  /** The reply for a finished process. */
  function ClassifyExit(exitCode: int, output: string): (r: Reply)
    ensures r.success <==> exitCode == 0
    ensures r.success ==> r.message == "Completed.\n" + output
    ensures !r.success ==> r.message == "Failed with code " + IntToString(exitCode) + ".\n" + output
  {
    if exitCode == 0 then Reply(true, "Completed.\n" + output)
    else Reply(false, "Failed with code " + IntToString(exitCode) + ".\n" + output)
  }

  /** Two texts split at their first `.` agree on both sides. */
  lemma SplitAtDot(a: string, x: string, b: string, y: string)
    requires '.' !in a && '.' !in b
    requires a + "." + x == b + "." + y
    ensures a == b && x == y
  {
    var s := a + "." + x;
    assert |a| == |b| by {
      assert s[|a|] == '.' && s[|b|] == '.';
    }
    assert a == s[..|a|] == b;
    assert x == s[|a| + 1..] == y;
  }

  lemma StripPrefix(head: string, x: string, y: string)
    requires head + x == head + y
    ensures x == y
  {
    assert x == (head + x)[|head|..];
    assert y == (head + y)[|head|..];
  }

  /** No information is lost in the reply for a finished process: it
      determines the exit code and the captured output. */
  lemma ClassifyExitInjective(code1: int, output1: string, code2: int, output2: string)
    requires ClassifyExit(code1, output1) == ClassifyExit(code2, output2)
    ensures code1 == code2 && output1 == output2
  {
    if code1 == 0 {
      StripPrefix("Completed.\n", output1, output2);
    } else {
      FailureMessageInjective(code1, output1, code2, output2);
    }
  }

  lemma FailureMessageInjective(code1: int, output1: string, code2: int, output2: string)
    requires code1 != 0 && code2 != 0
    requires "Failed with code " + IntToString(code1) + ".\n" + output1 ==
             "Failed with code " + IntToString(code2) + ".\n" + output2
    ensures code1 == code2 && output1 == output2
  {
    NoDotInDecimal(code1);
    NoDotInDecimal(code2);
    SplitLine("Failed with code ", IntToString(code1), output1, IntToString(code2), output2);
    IntToStringInjective(code1, code2);
  }

  /** A status line `head` + `d` + `.` read back from a message: the part
      `d` before the dot and the text after the line break are determined. */
  lemma SplitLine(head: string, d1: string, output1: string, d2: string, output2: string)
    requires '.' !in d1 && '.' !in d2
    requires head + d1 + ".\n" + output1 == head + d2 + ".\n" + output2
    ensures d1 == d2 && output1 == output2
  {
    var x1, x2 := "\n" + output1, "\n" + output2;
    assert head + d1 + ".\n" + output1 == head + (d1 + "." + x1);
    assert head + d2 + ".\n" + output2 == head + (d2 + "." + x2);
    StripPrefix(head, d1 + "." + x1, d2 + "." + x2);
    SplitAtDot(d1, x1, d2, x2);
    StripPrefix("\n", output1, output2);
  }

  /** The reply for an error thrown while downloading. */
  function ErrorReply(e: Thrown): (r: Reply)
    ensures !r.success
    ensures e.message.Some? ==> r.message == e.message.value
    ensures e.message.None? ==> r.message == "Unknown error"
  {
    Reply(false, e.message.GetOr("Unknown error"))
  }

  // ---------------------------------------------------------------------
  // The whole operation

  datatype Outcome = Outcome(fs: FileSystem, result: Result<Reply, Thrown>)

  /** What `runDownload(url, format)` does: its effect on the file system,
      and the reply it returns or the error it throws. */
  function RunResult(env: Environment, fs: FileSystem, url: string, format: string,
                     exec: seq<string> -> ProcessOutcome): Outcome
  {
    var abi := ChooseAbi(env.supportedAbis);
    var ytDlp := Install(env, fs, YtDlp, abi);
    if ytDlp.file.Failure? then Outcome(ytDlp.fs, Failure(ytDlp.file.error))
    else
      var ffmpeg := Install(env, ytDlp.fs, Ffmpeg, abi);
      if ffmpeg.file.Failure? then Outcome(ffmpeg.fs, Failure(ffmpeg.file.error))
      else
        var outputDir := OutputDir(env.externalDownloads, env.filesDir);
        var fs3 := MkDirs(ffmpeg.fs, outputDir);
        ParentOfJoin(BinaryDir(env.filesDir, abi), Ffmpeg);
        var command := Command(ytDlp.file.value, Parent(ffmpeg.file.value).value,
                               Join(outputDir, OutputPattern), url, format);
        match exec(command)
        case Exited(output, code) => Outcome(fs3, Success(ClassifyExit(code, output)))
        case SpawnFailed(message) => Outcome(fs3, Failure(Thrown(message)))
  }

  datatype Handled = Handled(fs: FileSystem, reply: Reply)

  /** What a `download` call does: its effect on the file system and the
      reply delivered to the caller. */
  function DownloadResult(env: Environment, fs: FileSystem, urlArg: Option<string>, formatArg: Option<string>,
                          exec: seq<string> -> ProcessOutcome): Handled
  {
    match Validate(urlArg, formatArg)
    case Rejected(reply) => Handled(fs, reply)
    case Accepted(url, format) =>
      var run := RunResult(env, fs, url, format, exec);
      match run.result
      case Success(reply) => Handled(run.fs, reply)
      case Failure(e) => Handled(run.fs, ErrorReply(e))
  }

  // ---------------------------------------------------------------------
  // The activity

  /** The activity's view of the device: the platform values it reads and
      the file system it changes. */
  class MainActivity {
    const env: Environment
    var fs: FileSystem

    constructor(env: Environment, fs: FileSystem)
      ensures this.env == env && this.fs == fs
    {
      this.env := env;
      this.fs := fs;
    }

    /** `ensureBinary(name, abi)` */
    method EnsureBinary(name: string, abi: string) returns (file: Result<string, Thrown>)
      modifies this
      ensures Installed(fs, file) == Install(env, old(fs), name, abi)
    {
      var asset := AssetPath(abi, name);
      var targetDir := BinaryDir(env.filesDir, abi);
      fs := MkDirs(fs, targetDir);
      var outFile := Join(targetDir, name);
      if outFile !in fs {
        if asset !in env.assets {
          return Failure(Thrown(Some(asset)));
        }
        fs := fs[outFile := File(env.assets[asset], false)];
        fs := fs[outFile := fs[outFile].(executable := true)];
      }
      return Success(outFile);
    }

    /** `runDownload(url, format)`; a thrown error comes back as `Failure`. */
    method RunDownload(url: string, format: string, exec: seq<string> -> ProcessOutcome)
      returns (result: Result<Reply, Thrown>)
      modifies this
      ensures Outcome(fs, result) == RunResult(env, old(fs), url, format, exec)
    {
      var abi := ChooseAbi(env.supportedAbis);
      var ytDlp :- EnsureBinary(YtDlp, abi);
      var ffmpeg :- EnsureBinary(Ffmpeg, abi);
      var outputDir := OutputDir(env.externalDownloads, env.filesDir);
      fs := MkDirs(fs, outputDir);
      var outputTemplate := Join(outputDir, OutputPattern);
      ParentOfJoin(BinaryDir(env.filesDir, abi), Ffmpeg);
      var command := BuildCommand(ytDlp, Parent(ffmpeg).value, outputTemplate, url, format);
      match exec(command)
      case Exited(output, exitCode) =>
        result := Success(ClassifyExit(exitCode, output));
      case SpawnFailed(message) =>
        result := Failure(Thrown(message));
    }

    /** `handleDownload`: validation, then the download, with any thrown
        error turned into a failure reply. */
    method HandleDownload(urlArg: Option<string>, formatArg: Option<string>, exec: seq<string> -> ProcessOutcome)
      returns (reply: Reply)
      modifies this
      ensures Handled(fs, reply) == DownloadResult(env, old(fs), urlArg, formatArg, exec)
    {
      var url := NormalizeUrl(urlArg);
      var format := NormalizeFormat(formatArg);
      if IsBlank(url) {
        assert Validate(urlArg, formatArg) == Rejected(Reply(false, UrlRequired));
        return Reply(false, UrlRequired);
      }
      if format !in SupportedFormats {
        assert Validate(urlArg, formatArg) == Rejected(Reply(false, "Unsupported format: " + format));
        return Reply(false, "Unsupported format: " + format);
      }
      assert Validate(urlArg, formatArg) == Accepted(url, format);
      ghost var run := RunResult(env, fs, url, format, exec);
      var result := RunDownload(url, format, exec);
      assert run == Outcome(fs, result);
      match result
      case Success(r) =>
        reply := r;
      case Failure(error) =>
        reply := ErrorReply(error);
    }
  }
}
