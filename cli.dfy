/** The decisions `main` takes: reading the command line, stopping early on
    a usage error or a missing input, deriving the intermediate WAV path,
    and after synthesis deciding whether to transcode, whether to remove the
    WAV and which file to report as the final output. */
module Cli {
  import opened Results
  import opened Text
  import opened Paths
  import opened Extract
  import opened Speech

  /** The speech rate used when no digit-string rate is given. */
  const DefaultRate: nat := 175

  /** What the command line asks for. */
  datatype Config = Config(input: string, output: string, rate: nat, voice: Option<string>)

  /** Reading `sys.argv` (the program name comes first): the input and output
      paths are required; a third argument is the rate when it is a digit
      string; a fourth is the voice selector, taken as it is. */
  function ParseArgs(argv: seq<string>): Option<Config> {
    if |argv| < 3 then None
    else
      var rate := if |argv| >= 4 && IsDigits(argv[3]) then DigitsValue(argv[3]) else DefaultRate;
      var voice := if |argv| >= 5 then Some(argv[4]) else None;
      Some(Config(argv[1], argv[2], rate, voice))
  }

  /** The command line is refused exactly when it has fewer than three
      entries.  Otherwise the paths are the first two arguments, the rate is
      the value of the third argument exactly when there is one and it is a
      non-empty all-digit string (175 in every other case: no third argument,
      an empty one, a sign, a decimal point), and the voice is the fourth
      argument when there is one. */
  lemma ParseArgsLaw(argv: seq<string>)
    ensures ParseArgs(argv).None? <==> |argv| < 3
    ensures |argv| >= 3 ==>
      var cfg := ParseArgs(argv).value;
      && cfg.input == argv[1] && cfg.output == argv[2]
      && (|argv| >= 4 && IsDigits(argv[3]) ==> cfg.rate == DigitsValue(argv[3]))
      && (|argv| < 4 || !IsDigits(argv[3]) ==> cfg.rate == DefaultRate)
      && (cfg.voice.Some? <==> |argv| >= 5)
      && (|argv| >= 5 ==> cfg.voice == Some(argv[4]))
  {
  }

  /** Any natural number written in decimal as the third argument is the
      rate that is used. */
  lemma {:induction false} RateRoundTrip(program: string, input: string, output: string, n: nat, rest: seq<string>)
    ensures ParseArgs([program, input, output, Decimal(n)] + rest).Some?
    ensures ParseArgs([program, input, output, Decimal(n)] + rest).value.rate == n
  {
    DecimalRoundTrip(n);
  }

  /** A third argument made only of zeros (`"0"`, `"000"`) gives rate 0, which
      the synthesizer does not apply, leaving the engine's own default; any
      other digit string gives a non-zero rate. */
  lemma ZeroRateArgument(argv: seq<string>)
    requires |argv| >= 4 && IsDigits(argv[3])
    ensures ParseArgs(argv).value.rate == 0 <==> forall i :: 0 <= i < |argv[3]| ==> argv[3][i] == '0'
  {
    ZeroIffAllZeros(argv[3]);
  }

  /** What happens after synthesis. */
  datatype Finish = Finish(transcodeAttempted: bool, removeWav: bool, finalPath: string)

  /** The tail of `main`: for an `.mp3` output, transcode and, when that
      succeeded and the WAV is another file, remove the WAV; report the MP3
      when the transcode succeeded and the WAV otherwise.  For any other
      output the WAV is the final file. */
  function FinalStep(output: string, wav: string, transcodeOk: bool): Finish {
    if LowerSuffix(output) == ".mp3" then
      Finish(true, transcodeOk && wav != output, if transcodeOk then output else wav)
    else
      Finish(false, false, wav)
  }

  lemma LowerOfMp3()
    ensures Lower(".mp3") == ".mp3"
  {
    assert LowerChar('.') == '.' && LowerChar('m') == 'm' && LowerChar('p') == 'p' && LowerChar('3') == '3';
  }

  /** With the WAV path derived from the output path: a transcode is attempted
      exactly for an `.mp3` output; then the WAV is another file, so it is
      removed exactly when the transcode succeeded, and the output path is
      reported exactly when it succeeded.  Otherwise nothing is removed and
      the WAV is reported.  The reported file is never the removed one, and it
      is the output path exactly when the transcode succeeded or the output
      was a `.wav` already. */
  lemma FinalStepLaw(output: string, transcodeOk: bool)
    requires IntermediateWav(output).Ok?
    ensures
      var wav := IntermediateWav(output).value;
      var f := FinalStep(output, wav, transcodeOk);
      && (f.transcodeAttempted <==> LowerSuffix(output) == ".mp3")
      && (f.transcodeAttempted ==> wav != output && (f.removeWav <==> transcodeOk) && (f.finalPath == output <==> transcodeOk))
      && (!f.transcodeAttempted ==> !f.removeWav && f.finalPath == wav)
      && (f.removeWav ==> f.finalPath != wav)
      && (f.finalPath == output <==> (f.transcodeAttempted && transcodeOk) || LowerSuffix(output) == WavSuffix)
  {
    IntermediateWavLaw(output);
    LowerOfMp3();
    LowerOfWav();
  }

  /** What the program cannot see but depends on: whether the input exists,
      whether the PDF reader could be imported, the pages' extracted texts,
      the decoded text of a plain-text input, and whether the MP3 transcode
      succeeds. */
  datatype Environment = Environment(inputExists: bool, pdfReaderAvailable: bool,
                                     pages: seq<Option<string>>, fileText: string, transcodeOk: bool)

  /** Why a run ends early. */
  datatype Failure = Usage | InputNotFound | ReadFailed(readError: ReadError) | WavPathFailed(pathError: PathError)

  /** The arguments of the `synthesize_to_wav` call. */
  datatype Request = Request(text: string, wavPath: string, rate: nat, voice: Option<string>)

  /** How a run ends. */
  datatype Outcome = Stopped(failure: Failure) | Finished(request: Request, finish: Finish)

  /** One run of `main`, step by step in the program's order. */
  function Run(argv: seq<string>, env: Environment): Outcome {
    match ParseArgs(argv)
    case None => Stopped(Usage)
    case Some(cfg) =>
      if !env.inputExists then Stopped(InputNotFound)
      else
        match ReadText(cfg.input, env.pdfReaderAvailable, env.pages, env.fileText)
        case Err(e) => Stopped(ReadFailed(e))
        case Ok(text) =>
          match IntermediateWav(cfg.output)
          case Err(e) => Stopped(WavPathFailed(e))
          case Ok(wav) => Finished(Request(text, wav, cfg.rate, cfg.voice), FinalStep(cfg.output, wav, env.transcodeOk))
  }

  /** The process exit status: 1 for the usage message, 2 for a missing input,
      0 for a completed run; an uncaught exception (no PDF reader, an output
      path without a name) ends the interpreter with status 1. */
  function ExitCode(o: Outcome): int {
    match o
    case Stopped(Usage) => 1
    case Stopped(InputNotFound) => 2
    case Stopped(_) => 1
    case Finished(_, _) => 0
  }

  /** Which runs stop early, and with what status: fewer than three entries
      give the usage error (status 1); else a missing input gives status 2;
      else a PDF input without a reader fails with status 1. */
  lemma RunStopsEarly(argv: seq<string>, env: Environment)
    ensures |argv| < 3 ==> Run(argv, env) == Stopped(Usage) && ExitCode(Run(argv, env)) == 1
    ensures |argv| >= 3 && !env.inputExists ==>
      Run(argv, env) == Stopped(InputNotFound) && ExitCode(Run(argv, env)) == 2
    ensures |argv| >= 3 && env.inputExists && KindOf(argv[1]) == Pdf && !env.pdfReaderAvailable ==>
      Run(argv, env) == Stopped(ReadFailed(PdfReaderMissing)) && ExitCode(Run(argv, env)) == 1
  {
  }

  /** A run finishes, with status 0, exactly when the command line has its two
      paths, the input exists, a PDF input has a reader, and the output path
      has a name to put the `.wav` suffix on. */
  lemma RunFinishes(argv: seq<string>, env: Environment)
    ensures Run(argv, env).Finished? <==>
      |argv| >= 3 && env.inputExists && (KindOf(argv[1]) == Pdf ==> env.pdfReaderAvailable) && Name(argv[2]) != ""
    ensures ExitCode(Run(argv, env)) == 0 <==> Run(argv, env).Finished?
  {
    if |argv| >= 3 && env.inputExists {
      var cfg := ParseArgs(argv).value;
      var read := ReadText(cfg.input, env.pdfReaderAvailable, env.pages, env.fileText);
      if read.Ok? {
        var wav := IntermediateWav(cfg.output);
        IntermediateWavLaw(cfg.output);
        assert wav.Ok? <==> Name(argv[2]) != "";
        assert Run(argv, env).Finished? <==> wav.Ok?;
      } else {
        assert KindOf(argv[1]) == Pdf && !env.pdfReaderAvailable;
      }
    }
  }

  /** A run with a `.wav` output writes that very path, attempts no transcode,
      removes nothing and reports that path. */
  lemma WavOutputIsFinal(argv: seq<string>, env: Environment)
    requires |argv| >= 3 && LowerSuffix(argv[2]) == WavSuffix
    ensures Run(argv, env).Finished? ==>
      Run(argv, env).request.wavPath == argv[2] && Run(argv, env).finish == Finish(false, false, argv[2])
  {
    LowerOfMp3();
  }

  /** A run whose output suffix is neither `.wav` nor `.mp3` (say `.ogg`)
      writes a different, `.wav`-suffixed file in the same directory, attempts
      no transcode and reports that file. */
  lemma OtherSuffixGivesWav(argv: seq<string>, env: Environment)
    requires |argv| >= 3 && LowerSuffix(argv[2]) != WavSuffix && LowerSuffix(argv[2]) != ".mp3"
    ensures Run(argv, env).Finished? ==>
      var wav := Run(argv, env).request.wavPath;
      && wav != argv[2] && LowerSuffix(wav) == WavSuffix && Parent(wav) == Parent(argv[2])
      && Run(argv, env).finish == Finish(false, false, wav)
  {
    if Run(argv, env).Finished? {
      IntermediateWavLaw(argv[2]);
      var wav := IntermediateWav(argv[2]).value;
      assert Run(argv, env).request.wavPath == wav;
      assert Run(argv, env).finish == FinalStep(argv[2], wav, env.transcodeOk);
    }
  }

  /** A run with an `.mp3` output attempts the transcode; on success the WAV,
      a different file, is removed and the MP3 reported, on failure the WAV is
      kept and reported. */
  lemma Mp3OutputTranscodes(argv: seq<string>, env: Environment)
    requires |argv| >= 3 && LowerSuffix(argv[2]) == ".mp3"
    ensures Run(argv, env).Finished? ==>
      var o := Run(argv, env);
      && o.request.wavPath != argv[2]
      && o.finish.transcodeAttempted
      && o.finish.removeWav == env.transcodeOk
      && o.finish.finalPath == (if env.transcodeOk then argv[2] else o.request.wavPath)
  {
    FinalStepLaw(argv[2], env.transcodeOk);
  }

  /** A plain-text input holding only whitespace reaches the engine as the
      placeholder phrase. */
  lemma BlankInputSpeaksPlaceholder(argv: seq<string>, env: Environment)
    requires |argv| >= 3 && KindOf(argv[1]) == PlainText && AllSpace(env.fileText)
    ensures Run(argv, env).Finished? ==> SpokenText(Run(argv, env).request.text) == Placeholder
  {
  }
}
