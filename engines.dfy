/** The collaborators the handler calls but does not implement: the two
    synthesis engines loaded at start-up, the decoder that materialises a
    base64 voice prompt as a temporary WAV file, and the encoder that turns a
    generated waveform into base64 WAV. Each is a parameter of the model; what
    it does is left abstract and only the shape of its outcome is fixed. */
module Engines {
  import opened Request

  /** An exception a collaborator can raise: the accelerator's
      out-of-memory error, or any other exception with its `str(e)`. */
  datatype Fault = OutOfMemory | Raised(message: string)

  /** The outcome of a call that may raise. */
  datatype Attempt<+T> = Done(value: T) | Threw(fault: Fault)

  /** A generated waveform: its samples, which only the encoder reads, and
      its length `wav.shape[-1]`, from which the duration is computed. */
  datatype Waveform = Waveform(samples: seq<real>, sampleCount: nat)

  /** A loaded engine; only its sample rate `sr` is observed. */
  datatype Engine = Engine(sr: int)

  /** The process-wide slots `english_model` and `multilingual_model`;
      `None` when that engine is not loaded. */
  datatype Registry = Registry(english: Option<Engine>, multilingual: Option<Engine>)

  /** The keyword arguments both engines' `generate` receive. */
  datatype Synthesis = Synthesis(
    text: string,
    promptPath: Option<string>,
    exaggeration: real,
    cfgWeight: real)

  /** One call of an engine's `generate`; only the multilingual engine is
      passed a `language_id`. */
  datatype EngineCall =
    | EnglishGenerate(args: Synthesis)
    | MultilingualGenerate(languageId: string, args: Synthesis)

  /** Everything the handler reaches outside itself:
      `decodePrompt` is `base64_to_audio_file` (a path, or an exception),
      `generate` is the selected engine's `generate`, and
      `encodeWav` is `audio_to_base64` applied to a waveform and a sample rate. */
  datatype Runtime = Runtime(
    registry: Registry,
    decodePrompt: string -> Attempt<string>,
    generate: EngineCall -> Attempt<Waveform>,
    encodeWav: (Waveform, int) -> Attempt<string>)
}
