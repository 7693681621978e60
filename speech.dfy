/** `synthesize_to_wav`: configure a freshly initialised speech engine
    (rate, voice) and have it write the text to a WAV file. */
module Speech {
  import opened Results
  import opened Text

  /** One installed voice: its display name, which may be missing, and its id. */
  datatype Voice = Voice(name: Option<string>, id: string)

  /** What the engine is given when the text is empty. */
  const Placeholder: string := "Sem conteúdo legível."

  /** The text handed to the engine: the text itself, or the placeholder when
      it is empty.  The engine is never handed an empty text. */
  function SpokenText(text: string): (r: string)
    ensures r != ""
    ensures r == text || (text == "" && r == Placeholder)
  {
    if text != "" then text else Placeholder
  }

  /** An input that is all whitespace strips to nothing and is spoken as the
      placeholder; any other input is spoken as its stripped text. */
  lemma PlaceholderIffBlank(raw: string)
    ensures AllSpace(raw) ==> SpokenText(Strip(raw)) == Placeholder
    ensures !AllSpace(raw) ==> SpokenText(Strip(raw)) == Strip(raw)
  {
  }

  /** `needle in (v.name or "").lower()`. */
  predicate Matches(v: Voice, needle: string) {
    Contains(Lower(v.name.GetOr("")), needle)
  }

  /** The id of the first voice, in list order, that matches `needle`. */
  function FirstMatch(voices: seq<Voice>, needle: string): Option<string> {
    if voices == [] then None
    else if Matches(voices[0], needle) then Some(voices[0].id)
    else FirstMatch(voices[1..], needle)
  }

  /** The selector is used only when it is given and non-empty; it is then
      lower-cased and looked for in each voice name. */
  function SelectVoice(voices: seq<Voice>, selector: Option<string>): Option<string> {
    match selector
    case Some(sel) => if sel != "" then FirstMatch(voices, Lower(sel)) else None
    case None => None
  }

  /** `FirstMatch` finds a voice exactly when some voice matches, and what it
      finds is the id of the voice at the first matching position. */
  lemma {:induction false} FirstMatchIsFirst(voices: seq<Voice>, needle: string)
    ensures FirstMatch(voices, needle).Some? <==> exists k :: 0 <= k < |voices| && Matches(voices[k], needle)
    ensures forall k :: 0 <= k < |voices| && Matches(voices[k], needle)
                        && (forall j :: 0 <= j < k ==> !Matches(voices[j], needle))
                        ==> FirstMatch(voices, needle) == Some(voices[k].id)
  {
    if voices != [] {
      FirstMatchIsFirst(voices[1..], needle);
      if !Matches(voices[0], needle) {
        forall k | 1 <= k < |voices| && Matches(voices[k], needle)
          ensures Matches(voices[1..][k - 1], needle)
        {
          assert voices[1..][k - 1] == voices[k];
        }
        forall k | 0 <= k < |voices| - 1 && Matches(voices[1..][k], needle)
          ensures Matches(voices[k + 1], needle)
        {
        }
      }
    }
  }

  /** The search loop of `synthesize_to_wav`: examine the voices in order and
      stop at the first whose lower-cased name contains the lower-cased
      selector.  `examined` counts the voices looked at: none when the
      selector is missing or empty, all of them when nothing matches, and
      just up to the match otherwise. */
  method FindVoice(voices: seq<Voice>, selector: Option<string>) returns (found: Option<string>, ghost examined: nat)
    ensures found == SelectVoice(voices, selector)
    ensures examined <= |voices|
    ensures (selector.None? || selector.value == "") ==> found.None? && examined == 0
    ensures found.None? && selector.Some? && selector.value != "" ==> examined == |voices|
    ensures found.Some? ==> 0 < examined && found == Some(voices[examined - 1].id)
                            && Matches(voices[examined - 1], Lower(selector.value))
                            && forall j :: 0 <= j < examined - 1 ==> !Matches(voices[j], Lower(selector.value))
  {
    found, examined := None, 0;
    if selector.Some? && selector.value != "" {
      var needle := Lower(selector.value);
      var k := 0;
      while k < |voices|
        invariant 0 <= k <= |voices|
        invariant examined == k && found.None?
        invariant forall j :: 0 <= j < k ==> !Matches(voices[j], needle)
        invariant FirstMatch(voices, needle) == FirstMatch(voices[k..], needle)
      {
        examined := examined + 1;
        if Contains(Lower(voices[k].name.GetOr("")), needle) {
          found := Some(voices[k].id);
          break;
        }
        assert voices[k..][1..] == voices[k + 1..];
        k := k + 1;
      }
    }
  }

  /** What one `save_to_file` request asks for: the text, the target path and
      the rate and voice in effect. */
  datatype Utterance = Utterance(text: string, path: string, rate: int, voice: string)

  /** The speech engine's state as the program sees it: its rate and voice
      properties, the voices it offers, the requests queued by
      `save_to_file` and those `runAndWait` has carried out. */
  class Engine {
    var rate: int
    var voice: string
    const voices: seq<Voice>
    var pending: seq<Utterance>
    var written: seq<Utterance>

    /** `pyttsx3.init()`: the engine's own default rate and voice. */
    constructor Init(defaultRate: int, defaultVoice: string, installed: seq<Voice>)
      ensures rate == defaultRate && voice == defaultVoice && voices == installed
      ensures pending == [] && written == []
    {
      rate, voice, voices := defaultRate, defaultVoice, installed;
      pending, written := [], [];
    }

    /** `setProperty("rate", r)`. */
    method SetRate(r: int)
      modifies this
      ensures rate == r
      ensures voice == old(voice) && pending == old(pending) && written == old(written)
    {
      rate := r;
    }

    /** `setProperty("voice", id)`. */
    method SetVoice(id: string)
      modifies this
      ensures voice == id
      ensures rate == old(rate) && pending == old(pending) && written == old(written)
    {
      voice := id;
    }

    /** `save_to_file(text, path)`: queue one request with the current settings. */
    method SaveToFile(text: string, path: string)
      modifies this
      ensures pending == old(pending) + [Utterance(text, path, rate, voice)]
      ensures rate == old(rate) && voice == old(voice) && written == old(written)
    {
      pending := pending + [Utterance(text, path, rate, voice)];
    }

    /** `runAndWait()`: carry out every queued request, in order, and return
      once they are done. */
    method RunAndWait()
      modifies this
      ensures written == old(written) + old(pending) && pending == []
      ensures rate == old(rate) && voice == old(voice)
    {
      written := written + pending;
      pending := [];
    }
  }

  /** `synthesize_to_wav(text, out_wav, rate, voice)`.  The engine starts from
      the defaults of the installed speech library; its rate is set only for a
      non-zero `rate`, its voice only when a voice is selected, and exactly one
      file is written: the spoken text at `outWav`. */
  method SynthesizeToWav(text: string, outWav: string, rate: int, voice: Option<string>,
                         defaultRate: int, defaultVoice: string, installed: seq<Voice>)
    returns (engine: Engine)
    ensures fresh(engine)
    ensures engine.rate == (if rate != 0 then rate else defaultRate)
    ensures engine.voice == SelectVoice(installed, voice).GetOr(defaultVoice)
    ensures engine.pending == []
    ensures engine.written == [Utterance(SpokenText(text), outWav, engine.rate, engine.voice)]
  {
    engine := new Engine.Init(defaultRate, defaultVoice, installed);
    if rate != 0 {
      engine.SetRate(rate);
    }
    var found, _ := FindVoice(engine.voices, voice);
    if found.Some? {
      engine.SetVoice(found.value);
    }
    engine.SaveToFile(if text != "" then text else Placeholder, outWav);
    engine.RunAndWait();
  }
}
