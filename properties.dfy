/** Properties of the handler that relate several calls or fix one path
    through it end to end. */
module HandlerProperties {
  import opened Request
  import opened Engines
  import opened Handler

  /** The engine call the handler makes for accepted text, as a function of
      the request alone. */
  function ExpectedArgs(input: Input, rt: Runtime): Synthesis
    requires input.text.Some?
  {
    var p := Normalize(input);
    Synthesis(input.text.value, AcquirePrompt(input.audioPrompt, rt.decodePrompt).path,
              p.exaggeration, p.cfgWeight)
  }

  /** Text that is missing, empty or whitespace only (of any length, so this
      guard wins over the length guard) is refused with the fixed message,
      and the outcome does not depend on any engine, codec or registry. */
  lemma BlankTextRefused(job: Job, rt: Runtime, rt': Runtime)
    requires FieldsOf(job).text.None? || AllSpace(FieldsOf(job).text.value)
    ensures Handle(job, rt) == Trace(Error(EmptyTextMessage), None, false, None)
    ensures Handle(job, rt) == Handle(job, rt')
  {
  }

  /** Text with a non-whitespace character and more than 5000 characters is
      refused with the fixed message, again without touching anything else. */
  lemma LongTextRefused(job: Job, rt: Runtime, rt': Runtime)
    requires FieldsOf(job).text.Some?
    requires !AllSpace(FieldsOf(job).text.value)
    requires |FieldsOf(job).text.value| > MaxTextLength
    ensures Handle(job, rt) == Trace(Error(TooLongMessage), None, false, None)
    ensures Handle(job, rt) == Handle(job, rt')
  {
  }

  /** Text of exactly 5000 characters passes both guards: with the requested
      engine loaded it reaches that engine, and no other. */
  lemma MaxLengthTextAccepted(job: Job, rt: Runtime)
    requires FieldsOf(job).text.Some?
    requires !AllSpace(FieldsOf(job).text.value)
    requires |FieldsOf(job).text.value| == MaxTextLength
    requires var mt := Normalize(FieldsOf(job)).modelType;
      (mt == "english" && rt.registry.english.Some?)
      || (mt == "multilingual" && rt.registry.multilingual.Some?)
    ensures Handle(job, rt).call.Some?
    ensures Handle(job, rt).call.value.EnglishGenerate? <==>
      Normalize(FieldsOf(job)).modelType == "english"
  {
  }

  /** `model_type == "multilingual"` with that engine loaded calls it alone,
      with the normalised `language_id`. */
  lemma MultilingualDispatch(job: Job, rt: Runtime)
    requires Validate(FieldsOf(job).text).Accepted?
    requires Normalize(FieldsOf(job)).modelType == "multilingual"
    requires rt.registry.multilingual.Some?
    ensures Handle(job, rt).call ==
      Some(MultilingualGenerate(Normalize(FieldsOf(job)).languageId,
                                ExpectedArgs(FieldsOf(job), rt)))
  {
  }

  /** `model_type == "english"` (also the default) with that engine loaded
      calls it alone, and without a language. */
  lemma EnglishDispatch(job: Job, rt: Runtime)
    requires Validate(FieldsOf(job).text).Accepted?
    requires Normalize(FieldsOf(job)).modelType == "english"
    requires rt.registry.english.Some?
    ensures Handle(job, rt).call == Some(EnglishGenerate(ExpectedArgs(FieldsOf(job), rt)))
  {
  }

  /** Any other model type, or the requested engine not loaded: the error
      names the model, no engine is called, and generation and encoding play
      no part. The prompt file, if one was materialised, is left behind. */
  lemma UnavailableModel(job: Job, rt: Runtime, generate: EngineCall -> Attempt<Waveform>)
    requires Validate(FieldsOf(job).text).Accepted?
    requires var mt := Normalize(FieldsOf(job)).modelType;
      !(mt == "multilingual" && rt.registry.multilingual.Some?)
      && !(mt == "english" && rt.registry.english.Some?)
    ensures Handle(job, rt).response == Error(NotAvailableMessage(Normalize(FieldsOf(job)).modelType))
    ensures Handle(job, rt).call.None?
    ensures Handle(job, rt).leftoverPrompt == AcquirePrompt(FieldsOf(job).audioPrompt, rt.decodePrompt).path
    ensures Handle(job, rt) == Handle(job, rt.(generate := generate))
  {
  }

  /** A voice prompt that cannot be materialised is logged and otherwise
      ignored: the handler answers and calls exactly as if no prompt had been
      sent. */
  lemma PromptFailureIsNonFatal(job: Job, rt: Runtime)
    requires job.input.Some? && job.input.value.audioPrompt.Some?
    requires job.input.value.audioPrompt.value != []
    requires rt.decodePrompt(job.input.value.audioPrompt.value).Threw?
    ensures var t := Handle(job, rt);
      var t' := Handle(Job(Some(job.input.value.(audioPrompt := None))), rt);
      t.response == t'.response && t.call == t'.call && t.leftoverPrompt.None?
      && (Validate(FieldsOf(job).text).Accepted? ==> t.promptWarning)
  {
  }

  /** An out-of-memory error raised by the engine becomes the fixed advice
      message; any other exception is reported by its own message. */
  lemma GenerationFaults(job: Job, rt: Runtime)
    requires Handle(job, rt).call.Some?
    ensures rt.generate(Handle(job, rt).call.value) == Threw(OutOfMemory) ==>
      Handle(job, rt).response == Error(OutOfMemoryMessage)
    ensures forall m :: rt.generate(Handle(job, rt).call.value) == Threw(Raised(m)) ==>
      Handle(job, rt).response == Error(m)
  {
  }

  /** With the English engine loaded at a non-zero rate, and generation and
      encoding both returning, an English request gets the whole success
      record: the encoded audio, the engine's rate, the sample count and the
      echoed text, language and model type; the prompt file is removed. */
  lemma EnglishSuccess(job: Job, rt: Runtime, wav: Waveform, audio: string)
    requires Validate(FieldsOf(job).text).Accepted?
    requires Normalize(FieldsOf(job)).modelType == "english"
    requires rt.registry.english.Some? && rt.registry.english.value.sr != 0
    requires rt.generate(EnglishGenerate(ExpectedArgs(FieldsOf(job), rt))) == Done(wav)
    requires rt.encodeWav(wav, rt.registry.english.value.sr) == Done(audio)
    ensures Handle(job, rt) ==
      Trace(Success(audio, rt.registry.english.value.sr, wav.sampleCount, FieldsOf(job).text.value,
                    Normalize(FieldsOf(job)).languageId, "english"),
            Some(EnglishGenerate(ExpectedArgs(FieldsOf(job), rt))),
            AcquirePrompt(FieldsOf(job).audioPrompt, rt.decodePrompt).warning,
            None)
  {
  }

  /** The same for a multilingual request and the multilingual engine. */
  lemma MultilingualSuccess(job: Job, rt: Runtime, wav: Waveform, audio: string)
    requires Validate(FieldsOf(job).text).Accepted?
    requires Normalize(FieldsOf(job)).modelType == "multilingual"
    requires rt.registry.multilingual.Some? && rt.registry.multilingual.value.sr != 0
    requires rt.generate(MultilingualGenerate(Normalize(FieldsOf(job)).languageId,
                                              ExpectedArgs(FieldsOf(job), rt)))
             == Done(wav)
    requires rt.encodeWav(wav, rt.registry.multilingual.value.sr) == Done(audio)
    ensures Handle(job, rt) ==
      Trace(Success(audio, rt.registry.multilingual.value.sr, wav.sampleCount, FieldsOf(job).text.value,
                    Normalize(FieldsOf(job)).languageId, "multilingual"),
            Some(MultilingualGenerate(Normalize(FieldsOf(job)).languageId,
                                      ExpectedArgs(FieldsOf(job), rt))),
            AcquirePrompt(FieldsOf(job).audioPrompt, rt.decodePrompt).warning,
            None)
  {
  }

  /** After the engine returns, an exception from the encoder is classified
      like any other, and a zero sample rate fails the duration division. */
  lemma EncodingFaults(job: Job, rt: Runtime)
    ensures var t := Handle(job, rt);
      t.call.Some? && rt.generate(t.call.value).Done? ==>
        var wav := rt.generate(t.call.value).value;
        var engine := EngineFor(t.call.value, rt.registry);
        engine.Some?
        && (rt.encodeWav(wav, engine.value.sr) == Threw(OutOfMemory) ==>
              t.response == Error(OutOfMemoryMessage))
        && (forall m :: rt.encodeWav(wav, engine.value.sr) == Threw(Raised(m)) ==>
              t.response == Error(m))
        && (rt.encodeWav(wav, engine.value.sr).Done? && engine.value.sr == 0 ==>
              t.response == Error(ZeroDivisionMessage))
  {
  }

  /** A job that sends only text uses the English engine with both strengths
      at 0.5 and no prompt, and on success reports language "en". */
  lemma DefaultsOnlyText(text: string, rt: Runtime)
    requires !AllSpace(text) && |text| <= MaxTextLength
    requires rt.registry.english.Some?
    ensures var t := Handle(Job(Some(NoFields.(text := Some(text)))), rt);
      t.call == Some(EnglishGenerate(Synthesis(text, None, 0.5, 0.5)))
      && (t.response.Success? ==> t.response.language == "en" && t.response.modelType == "english")
  {
  }
}
