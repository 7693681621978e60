# LePraMim in Dafny

LePraMim is a command-line tool that reads a PDF or a plain-text file aloud
into a WAV file, and re-encodes that WAV as MP3 when an MP3 output is asked
for. Speech synthesis, PDF text extraction and MP3 encoding are done by
outside libraries (pyttsx3, PyPDF2, pydub with ffmpeg). This project models
the tool's own logic, which sits between those calls:

- reading the command line: the input and output paths, the speech rate
  (a digit string, else 175) and an optional voice selector (`Cli.ParseArgs`);
- the path rules: the `suffix` of the final path component and
  `with_suffix`, as Python's `pathlib` defines them, and from them the
  intermediate WAV path derived from the output path (`Paths.IntermediateWav`);
- choosing how to read the input (`.pdf` in any letter case means PDF), and
  for a PDF joining the page texts with newlines and stripping the result
  (`Extract.ReadTextFromFile`, specified by `Extract.ReadText`);
- configuring the speech engine: the rate only when it is non-zero, the
  first voice whose name contains the selector, and the placeholder phrase
  for an empty text (`Speech.FindVoice`, `Speech.SynthesizeToWav`, with a
  small `Speech.Engine` class for the engine's state);
- the end of the run: whether to transcode, whether to remove the WAV and
  which file to report (`Cli.FinalStep`), and a whole run with its exit
  status (`Cli.Run`, `Cli.ExitCode`).

Modules: `Results` (Option and Result), `Text` (the `str` operations used),
`Paths`, `Extract` (`read_text_from_file`), `Speech` (`synthesize_to_wav`)
and `Cli` (`main`).

What the libraries and the file system would supply comes in as
parameters: whether the input exists, whether the PDF reader could be
imported, the text of each PDF page (`None` when extraction gives nothing),
the decoded text of a plain-text input, the installed voices with the
engine's default rate and voice, and whether the MP3 transcode succeeded.

Modelling assumptions, stated once here:

- A path is a POSIX path string in `pathlib`'s normal form (single `/`
  separators, no trailing `/`, no `.` components). Its name is the text after
  the last `/`, and two paths are equal when their strings are.
- A name's suffix follows `pathlib` up to Python 3.13: it runs from the last
  `.` to the end, but only when that dot is neither the first nor the last
  character of the name. So `"foo."` and `".bashrc"` have no suffix, and the
  WAV path for `out/foo.` is `out/foo..wav` (`Paths.TrailingDotEdge`). Python
  3.14 gives `"foo."` the suffix `"."`; that rule is not modelled.
- `lower()` changes only ASCII letters. For the suffix checks against
  `.wav`, `.mp3` and `.pdf` this is exact: no other character lower-cases to
  one of those letters. For voice names it is an approximation.
- `strip()` removes exactly the characters for which Python's `str.isspace`
  holds. That is the ASCII whitespace together with `\x1c`-`\x1f`, and the
  Unicode spaces and line separators.
- `isdigit()` and `int()` accept ASCII digits only, and the empty string is
  not a digit string.

Three facts about the program that the model keeps:

- The placeholder phrase is `"Sem conteúdo legível."` (lepramim.py:50).
- A rate argument made only of zeros parses to 0 and is not applied
  (lepramim.py:42, 77), so the engine keeps its own default rate.
- An uncaught exception ends the process with status 1, CPython's status
  for it. This happens when the PDF reader is missing, or when the output
  path has an empty name and `with_suffix` raises `ValueError`.

## Model

| member | source | states |
|---|---|---|
| Text.Strip | lepramim.py:36 | `strip()` gives "" exactly for an all-whitespace text; otherwise the result neither starts nor ends with whitespace and is the text minus its longest whitespace prefix and suffix |
| Text.StripIdempotent | lepramim.py:36 | stripping a stripped text changes nothing |
| Text.DecimalRoundTrip | lepramim.py:77 | `int(str(n)) == n` for every natural number |
| Text.ZeroIffAllZeros | lepramim.py:77 | a digit string reads as 0 exactly when all its digits are `0` |
| Text.ContainsIffOccurs | lepramim.py:47 | the substring test holds exactly when the needle occurs at some position of the text |
| Paths.NameSuffix | lepramim.py:28 | a suffix is "" or a proper tail of the name of at least two characters, starting with its only dot |
| Paths.WithSuffixLaw | lepramim.py:87 | `with_suffix(ext)` with a one-dot extension fails exactly on an empty name; otherwise it keeps the directory and the stem and the new suffix is `ext` |
| Paths.IntermediateWavLaw | lepramim.py:87 | deriving the WAV path fails exactly on an empty name; the WAV path keeps the directory, has suffix `.wav` ignoring case, and is the output path exactly when the output's lower-cased suffix is `.wav` |
| Paths.IntermediateWavIdempotent | lepramim.py:87 | deriving the WAV path from a derived WAV path returns it unchanged |
| Paths.TrailingDotEdge | lepramim.py:87 | the name `foo.` has no suffix, so its WAV path is `foo..wav` |
| Extract.PageTexts | lepramim.py:33-35 | one text per page, in page order, with "" for a page whose extraction gives nothing |
| Extract.JoinLength | lepramim.py:36 | the joined text is as long as the parts plus n-1 separators for n > 0 parts |
| Extract.JoinSlot | lepramim.py:36 | each part sits whole at its offset in the joined text, and a newline follows every part but the last |
| Extract.ReadTextFromFile | lepramim.py:27-38 | the loop computes `ReadText`; it fails exactly for a `.pdf` input (any case) without a reader, and its text never starts or ends with whitespace |
| Extract.ReadTextOutcome | lepramim.py:27-38 | a plain-text input gives its stripped text, and "" when it is all whitespace; a PDF with a reader gives the stripped join of its n pages, which has n-1 separators |
| Extract.UpperCasePdfIsPdf | lepramim.py:28 | `aula.PDF` is read as a PDF |
| Extract.HiddenPdfIsText | lepramim.py:28 | a hidden file named `.pdf` has no suffix and is read as text |
| Speech.SpokenText | lepramim.py:50 | the engine is never given an empty text: it gets the text, or the placeholder when the text is empty |
| Speech.PlaceholderIffBlank | lepramim.py:50 | an all-whitespace input is spoken as the placeholder; any other input as its stripped text |
| Speech.FirstMatchIsFirst | lepramim.py:46-49 | a voice is found exactly when some voice matches, and it is the id of the first matching voice in list order |
| Speech.FindVoice | lepramim.py:44-49 | the search returns the selected voice; it examines no voice for a missing or empty selector, all voices when none matches, and stops at the first match otherwise |
| Speech.Engine.Init | lepramim.py:41 | a new engine has its default rate and voice and has written nothing |
| Speech.Engine.SetRate | lepramim.py:43 | setting the rate changes only the rate |
| Speech.Engine.SetVoice | lepramim.py:48 | setting the voice changes only the voice |
| Speech.Engine.SaveToFile | lepramim.py:50 | a save request is queued with the rate and voice in effect |
| Speech.Engine.RunAndWait | lepramim.py:51 | every queued request is written, in order, and the queue is emptied |
| Speech.SynthesizeToWav | lepramim.py:40-51 | the rate is set only when non-zero, the voice only when one is selected, and exactly one file is written: the spoken text at the WAV path |
| Cli.ParseArgsLaw | lepramim.py:69-78 | fewer than three entries give the usage failure; else the paths are argv[1] and argv[2], the rate is `int(argv[3])` exactly when argv[3] exists and is a non-empty digit string (175 otherwise), and the voice is argv[4] when present |
| Cli.RateRoundTrip | lepramim.py:77 | any natural number written in decimal as argv[3] is the rate used |
| Cli.ZeroRateArgument | lepramim.py:77 | a rate argument of zeros only, such as `0` or `000`, gives rate 0, which is not applied |
| Cli.FinalStepLaw | lepramim.py:92-102 | a transcode is attempted exactly for `.mp3`; then the WAV is another file, removed exactly on success, and the MP3 is reported exactly on success; otherwise the WAV is reported and nothing removed; the reported file is never the removed one |
| Cli.RunStopsEarly | lepramim.py:69-84 | too few arguments stop with status 1, a missing input with status 2, and a PDF without a reader with status 1 |
| Cli.RunFinishes | lepramim.py:67-102 | within the modelled inputs, a run completes with status 0 exactly when it has both paths, the input exists, a PDF has a reader, and the output path has a name |
| Cli.WavOutputIsFinal | lepramim.py:87-102 | a run that finishes with a `.wav` output writes exactly that path, with no transcode and no removal |
| Cli.OtherSuffixGivesWav | lepramim.py:87-102 | a run that finishes with an output such as `.ogg` writes a different `.wav` file in the same directory, with no transcode |
| Cli.Mp3OutputTranscodes | lepramim.py:92-100 | a run that finishes with an `.mp3` output transcodes; on success the WAV is removed and the MP3 reported, else the WAV is kept and reported |
| Cli.BlankInputSpeaksPlaceholder | lepramim.py:84-89 | in a run that finishes, an all-whitespace text input reaches the engine as the placeholder |

## Left out

- Importing pyttsx3 and PyPDF2 (`_lazy_imports`, lepramim.py:17-25) is dynamic import plumbing. PyPDF2's availability is a boolean parameter. A missing pyttsx3, which stops the program before anything else, is not modelled.
- PyPDF2's `PdfReader` and `extract_text`: each page's text is an `Option<string>` parameter. Errors raised while opening a damaged PDF, or by `extract_text` on a page, are not modelled.
- `read_text` with UTF-8 and `errors="ignore"`: the decoded text is a parameter, and byte decoding is not modelled.
- `in_path.exists()` is a boolean parameter.
- pyttsx3's speech synthesis: `Speech.Engine` records only the settings and the requests the program makes. pyttsx3 queues property changes and runs them in order during `runAndWait`; the model applies them at once, which gives the same settings for the one request. An engine error is not modelled: it is an uncaught failure with no handler in the program.
- `try_convert_wav_to_mp3` (lepramim.py:53-65): pydub and ffmpeg are outside libraries, so only the boolean result enters `Cli.FinalStep`.
- `os.remove` and its swallowed exception: the model says only whether removal is attempted (`Finish.removeWav`).
- Console output (`print`) and `sys.exit`: a run returns an `Outcome`, and `Cli.ExitCode` gives its status.
- `pathlib` normalisation (collapsing `//`, dropping `.` components and trailing `/`) and Windows path rules: paths are taken in POSIX normal form. On a raw string that is not in that form the model departs from `pathlib`. For `"."` the model gives the WAV path `"..wav"`, while `pathlib` raises, because `Path(".").name` is empty. For `"out/"` the model gives an error, because its name is empty, while `pathlib` gives `out.wav`.
- Cli.RunFinishes: its "exactly when" holds only for the failures the model represents. The source has three more ways to end with status 1 that are not modelled. (a) `read_text` (lepramim.py:38) raises for an input that exists but is not a readable file: a directory, or `argv[1] == ""`, which `Path` turns into `.`. (b) `page.extract_text()` (lepramim.py:34) may raise; `or ""` covers only a `None` or empty result. (c) A rate such as `"²"` passes `isdigit()`, but `int()` raises `ValueError` on it (lepramim.py:77).
- Python's Unicode `lower()`, and `isdigit()`/`int()` on non-ASCII digits, are not modelled. The 4300-digit limit that CPython puts on `int()` of a string is not modelled either.
