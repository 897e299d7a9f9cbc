/** The job handler: validate the text, normalise the settings, materialise
    an optional voice prompt, dispatch to one of the two engines, encode the
    waveform, and turn every outcome into either a success record or an
    error record. */
module Handler {
  import opened Request
  import opened Engines

  const OutOfMemoryMessage := "GPU out of memory. Try shorter text or restart container."
  /** `str(ZeroDivisionError)` for `int / 0`. */
  const ZeroDivisionMessage := "division by zero"

  /** `f"Model '{model_type}' not available"`. */
  function NotAvailableMessage(modelType: string): (m: string)
    ensures |m| == |modelType| + 22
    ensures m[..7] == "Model '"
    ensures m[7..7 + |modelType|] == modelType
    ensures m[7 + |modelType|..] == "' not available"
  {
    "Model '" + modelType + "' not available"
  }

  /** The dictionary the handler returns: `{"error": message}`, or the success
      record. The success record's `duration` is `sampleCount / sampleRate`
      in floating point, and `gpu_time` and `gpu_memory_gb` are telemetry;
      none of the three is modelled. */
  datatype Response =
    | Error(message: string)
    | Success(
        audio: string,
        sampleRate: int,
        sampleCount: nat,
        text: string,
        language: string,
        modelType: string)

  /** One call of the handler: its response, the engine call it made (if
      any), whether it logged that the voice prompt failed, and the prompt
      file it leaves on disk when it returns (if any). */
  datatype Trace = Trace(
    response: Response,
    call: Option<EngineCall>,
    promptWarning: bool,
    leftoverPrompt: Option<string>)

  // ---------------------------------------------------------------------
  // Voice prompt

  /** The prompt file path handed to the engine, and whether a failure to
      materialise it was logged. */
  datatype Prompt = Prompt(path: Option<string>, warning: bool)

  /** `if audio_prompt_b64:` try to materialise it; an exception is logged and
      swallowed, leaving the path absent. An absent or empty prompt is not
      decoded at all. */
  function AcquirePrompt(supplied: Option<string>, decode: string -> Attempt<string>): (p: Prompt)
    ensures supplied.None? || supplied.value == [] ==> p == Prompt(None, false)
    ensures p.path.Some? <==> supplied.Some? && supplied.value != [] && decode(supplied.value).Done?
    ensures p.path.Some? ==> p.path.value == decode(supplied.value).value
    ensures p.warning <==> supplied.Some? && supplied.value != [] && decode(supplied.value).Threw?
  {
    if supplied.None? || supplied.value == [] then Prompt(None, false)
    else
      match decode(supplied.value)
      case Done(path) => Prompt(Some(path), false)
      case Threw(_) => Prompt(None, true)
  }

  // ---------------------------------------------------------------------
  // Dispatch

  /** The chosen engine call and the `sr` of the engine that makes it. */
  datatype Selection = Selection(call: EngineCall, sampleRate: int)

  /** An engine is chosen only when `model_type` names it exactly and it is
      loaded; the multilingual engine alone receives the language. */
  function Select(modelType: string, languageId: string, registry: Registry, args: Synthesis)
    : (s: Option<Selection>)
    ensures s.Some? <==>
      (modelType == "multilingual" && registry.multilingual.Some?)
      || (modelType == "english" && registry.english.Some?)
    ensures s.Some? && s.value.call.MultilingualGenerate? ==>
      modelType == "multilingual" && s.value.call.languageId == languageId
      && s.value.sampleRate == registry.multilingual.value.sr
    ensures s.Some? && s.value.call.EnglishGenerate? ==>
      modelType == "english" && s.value.sampleRate == registry.english.value.sr
    ensures s.Some? ==> s.value.call.args == args
  {
    if modelType == "multilingual" && registry.multilingual.Some? then
      Some(Selection(MultilingualGenerate(languageId, args), registry.multilingual.value.sr))
    else if modelType == "english" && registry.english.Some? then
      Some(Selection(EnglishGenerate(args), registry.english.value.sr))
    else
      None
  }

  // ---------------------------------------------------------------------
  // Exceptions

  /** The two `except` clauses: out-of-memory gets a fixed advice message,
      any other exception is reported by its own message. */
  function Classify(f: Fault): (r: Response)
    ensures r.Error?
    ensures f.OutOfMemory? ==> r.message == OutOfMemoryMessage
    ensures f.Raised? ==> r.message == f.message
  {
    match f
    case OutOfMemory => Error(OutOfMemoryMessage)
    case Raised(message) => Error(message)
  }

  // ---------------------------------------------------------------------
  // The handler

  /** Generate, encode, compute the duration and build the success record;
      any exception on the way is classified. */
  function Synthesize(rt: Runtime, sel: Selection, text: string, p: Params): (r: Response)
    ensures r.Success? ==>
      rt.generate(sel.call).Done?
      && rt.generate(sel.call).value.sampleCount == r.sampleCount
      && r.sampleRate == sel.sampleRate && r.sampleRate != 0
      && rt.encodeWav(rt.generate(sel.call).value, r.sampleRate) == Done(r.audio)
      && r.text == text && r.language == p.languageId && r.modelType == p.modelType
    ensures rt.generate(sel.call).Threw? ==> r == Classify(rt.generate(sel.call).fault)
    ensures rt.generate(sel.call).Done? ==>
      var wav := rt.generate(sel.call).value;
      var encoded := rt.encodeWav(wav, sel.sampleRate);
      (encoded.Threw? ==> r == Classify(encoded.fault))
      && (encoded.Done? && sel.sampleRate == 0 ==> r == Error(ZeroDivisionMessage))
      && (encoded.Done? && sel.sampleRate != 0 ==>
            r == Success(encoded.value, sel.sampleRate, wav.sampleCount, text,
                         p.languageId, p.modelType))
  {
    match rt.generate(sel.call)
    case Threw(f) => Classify(f)
    case Done(wav) =>
      match rt.encodeWav(wav, sel.sampleRate)
      case Threw(f) => Classify(f)
      case Done(audio) =>
        if sel.sampleRate == 0 then Classify(Raised(ZeroDivisionMessage))
        else Success(audio, sel.sampleRate, wav.sampleCount, text, p.languageId, p.modelType)
  }

  /** The registry slot of the engine that makes `call`. */
  function EngineFor(call: EngineCall, registry: Registry): Option<Engine> {
    if call.EnglishGenerate? then registry.english else registry.multilingual
  }

  function Handle(job: Job, rt: Runtime): (t: Trace)
    // invalid text: the fixed error, and nothing else happens
    ensures Validate(FieldsOf(job).text).Rejected? ==>
      t == Trace(Error(Validate(FieldsOf(job).text).message), None, false, None)
    // an engine is called only for valid text, with the settings normalised
    ensures t.call.Some? ==>
      var input := FieldsOf(job);
      var p := Normalize(input);
      Validate(input.text).Accepted?
      && t.call.value.args.text == input.text.value
      && t.call.value.args.exaggeration == p.exaggeration
      && t.call.value.args.cfgWeight == p.cfgWeight
      && t.call.value.args.promptPath == AcquirePrompt(input.audioPrompt, rt.decodePrompt).path
      && (t.call.value.EnglishGenerate? ==> p.modelType == "english")
      && (t.call.value.MultilingualGenerate? ==>
            p.modelType == "multilingual" && t.call.value.languageId == p.languageId)
    // a success comes from an engine call and echoes the request
    ensures t.response.Success? ==>
      var input := FieldsOf(job);
      var p := Normalize(input);
      Validate(input.text) == Accepted(t.response.text)
      && t.response.language == p.languageId
      && t.response.modelType == p.modelType
      && t.call.Some?
      && rt.generate(t.call.value).Done?
      && rt.generate(t.call.value).value.sampleCount == t.response.sampleCount
      && t.response.sampleRate != 0
      && (t.call.value.EnglishGenerate? ==>
            rt.registry.english == Some(Engine(t.response.sampleRate)))
      && (t.call.value.MultilingualGenerate? ==>
            rt.registry.multilingual == Some(Engine(t.response.sampleRate)))
      && rt.encodeWav(rt.generate(t.call.value).value, t.response.sampleRate)
           == Done(t.response.audio)
    // once an engine is called, its outcome decides the response: success
    // when generation and encoding return and the rate is not zero, otherwise
    // the classified exception
    ensures t.call.Some? ==>
      var engine := EngineFor(t.call.value, rt.registry);
      var generated := rt.generate(t.call.value);
      engine.Some?
      && (generated.Threw? ==> t.response == Classify(generated.fault))
      && (generated.Done? ==>
            var encoded := rt.encodeWav(generated.value, engine.value.sr);
            (encoded.Threw? ==> t.response == Classify(encoded.fault))
            && (encoded.Done? && engine.value.sr == 0 ==>
                  t.response == Error(ZeroDivisionMessage))
            && (encoded.Done? && engine.value.sr != 0 ==> t.response.Success?))
    // the warning is logged exactly when a supplied prompt fails to decode
    ensures Validate(FieldsOf(job).text).Accepted? ==>
      t.promptWarning == AcquirePrompt(FieldsOf(job).audioPrompt, rt.decodePrompt).warning
    // the prompt file is removed on the success path only
    ensures t.response.Success? ==> t.leftoverPrompt.None?
    ensures t.response.Error? && Validate(FieldsOf(job).text).Accepted? ==>
      t.leftoverPrompt == AcquirePrompt(FieldsOf(job).audioPrompt, rt.decodePrompt).path
  {
    var input := FieldsOf(job);
    match Validate(input.text)
    case Rejected(message) => Trace(Error(message), None, false, None)
    case Accepted(text) =>
      var p := Normalize(input);
      var prompt := AcquirePrompt(input.audioPrompt, rt.decodePrompt);
      var args := Synthesis(text, prompt.path, p.exaggeration, p.cfgWeight);
      match Select(p.modelType, p.languageId, rt.registry, args)
      case None =>
        Trace(Error(NotAvailableMessage(p.modelType)), None, prompt.warning, prompt.path)
      case Some(sel) =>
        var r := Synthesize(rt, sel, text, p);
        Trace(r, Some(sel.call), prompt.warning, if r.Success? then None else prompt.path)
  }
}
