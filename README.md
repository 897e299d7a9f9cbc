# Chatterbox TTS serverless handler — a Dafny model

The service takes a job from a serverless runtime and, in `handler`, does the following:

1. It validates the job's `text`.
2. It fills in defaults for `language_id` and `model_type`, and clamps `exaggeration` and `cfg_weight` into [0, 1].
3. It tries to turn an optional base64 voice prompt into a temporary WAV file.
4. It dispatches to the English or the multilingual synthesis engine, whichever was requested, if that engine is loaded.
5. It encodes the waveform as base64 WAV.
6. It answers with a success record or an `{"error": ...}` record.

This project models that decision logic as pure functions:

- `request.dfy` (module `Request`): the job payload as a record of optional fields. It also holds Python's `str.strip()`, the two text guards, the defaults and the clamps.
- `engines.dfy` (module `Engines`): the handler's collaborators, passed in as parameters. These are the engine registry, the prompt decoder, each engine's `generate` and the WAV encoder. Each one either returns a value or raises a `Fault` (out-of-memory, or any other exception with its message).
- `handler.dfy` (module `Handler`): the handler itself. `Handle(job, runtime)` returns a `Trace`, which holds:
  - the response;
  - the one engine call made, if any;
  - whether the prompt failure warning was logged;
  - the prompt file left on disk when the handler returns.
- `properties.dfy` (module `HandlerProperties`): properties that fix one path through the handler end to end, or that compare two calls.

Text is `seq<char>`, so its length counts code points, as Python's `len` does. Whitespace is the set of characters for which Python's `str.isspace()` holds. The clamps are `max(0.0, min(1.0, x))`, computed over `real`.

The code deletes the voice-prompt file only on the success path (handler.py:185-186). It stays on disk after a "not available" answer and after any exception. A design with cleanup on every exit path would delete it in all cases, but the model follows the code: `Trace.leftoverPrompt` reports the file that is left behind.

The code also accepts any string as `model_type`, not just the two engine names. An unknown name gets the "not available" error. That check comes after the voice prompt has been decoded, so a prompt file can be left behind there too.

## Model

| member | source | states |
|---|---|---|
| Request.StripLeading | handler.py:128 | the result is the longest suffix of the text that does not start with a whitespace character; every character it drops is whitespace |
| Request.StripTrailing | handler.py:128 | the result is the longest prefix of the text that does not end with a whitespace character; every character it drops is whitespace |
| Request.Strip | handler.py:128 | `text.strip()` is empty exactly when every character of the text is whitespace; otherwise it starts and ends with non-whitespace |
| Request.Validate | handler.py:126-132 | text is accepted iff it is present, not all whitespace and at most 5000 characters long; missing or blank text (of any length) is refused with "Text parameter is required and cannot be empty"; other text over 5000 characters is refused with "Text too long (max 5000 characters)"; accepted text is non-empty and unchanged |
| Request.Clamp | handler.py:136-137 | the result lies in [0, 1]; values in range are unchanged, values below 0 become 0, values above 1 become 1 |
| Request.Strength | handler.py:136-137 | `exaggeration` / `cfg_weight` after normalisation: 0.5 when absent, otherwise the supplied value clamped into [0, 1] |
| Request.Normalize | handler.py:134-137 | `language_id` defaults to "en" and `model_type` to "english"; supplied values pass through unchanged; both strengths lie in [0, 1] |
| Handler.NotAvailableMessage | handler.py:178 | the "not available" message is "Model '", then the model type verbatim, then "' not available" |
| Handler.AcquirePrompt | handler.py:143-149 | an absent or empty prompt is not decoded; a path is passed on iff the decoder returns one, and it is that path; a warning is logged iff the decoder raises, and the failure goes no further |
| Handler.Select | handler.py:156-178 | an engine is chosen iff `model_type` is "multilingual" and that engine is loaded, or `model_type` is "english" and that engine is loaded; only the multilingual call carries `language_id`; the arguments are passed unchanged and the sample rate is the chosen engine's `sr` |
| Handler.Classify | handler.py:207-214 | every exception becomes an error record: out-of-memory becomes "GPU out of memory. Try shorter text or restart container.", and any other exception becomes its own message |
| Handler.Synthesize | handler.py:158-182 | when generation and encoding both return and the sample rate is not zero, the result is the success record: the encoder's output, the engine's rate, the waveform's length, and the echoed text, normalised language and model type. An exception from the engine or the encoder is classified. A zero rate gives "division by zero". A success arises in no other way |
| Handler.Handle | handler.py:102-214 | refused text gives the fixed error with no engine call, no warning and no file left behind; an engine is called only for accepted text, with the normalised strengths and the decoded prompt path; once an engine is called, the response is a success exactly when generation and encoding return and the engine's `sr` is not zero, and otherwise it is the classified exception or "division by zero"; a success echoes text, normalised `language_id` and `model_type`, with the selected engine's `sr`; for accepted text the warning is logged exactly when a supplied prompt fails to decode; the prompt file is removed on success and left behind on every error after validation |
| HandlerProperties.BlankTextRefused | handler.py:126-129 | missing, empty or whitespace-only text, even when longer than 5000 characters, gets the "required" error, and the outcome is the same whatever the engines, registry and codec do |
| HandlerProperties.LongTextRefused | handler.py:131-132 | non-blank text over 5000 characters gets the "too long" error, and the outcome is the same whatever the engines, registry and codec do |
| HandlerProperties.MaxLengthTextAccepted | handler.py:131-175 | non-blank text of exactly 5000 characters, sent with `model_type` "english" or "multilingual" and that engine loaded, reaches that engine and no other |
| HandlerProperties.MultilingualDispatch | handler.py:156-165 | `model_type` "multilingual" with that engine loaded makes exactly one call, a multilingual call with the normalised `language_id`, the text, the prompt path and the clamped strengths |
| HandlerProperties.EnglishDispatch | handler.py:167-175 | `model_type` "english" with that engine loaded makes exactly one call, an English call without a language |
| HandlerProperties.UnavailableModel | handler.py:177-178 | any other model type, or the requested engine not loaded, gives "Model '<model_type>' not available", calls no engine, does not depend on generation, and leaves the prompt file behind |
| HandlerProperties.PromptFailureIsNonFatal | handler.py:143-149 | when the prompt cannot be decoded, the response and the engine call are the same as for the same job without a prompt; the warning is logged and no file is left behind |
| HandlerProperties.GenerationFaults | handler.py:207-214 | an out-of-memory error from the engine gives exactly the out-of-memory message; any other exception gives its own message |
| HandlerProperties.EnglishSuccess | handler.py:167-205 | an English request with the English engine loaded at a non-zero rate, where generation and encoding both return, gets the whole success record: the encoded audio, the engine's `sr`, the sample count, the text, the normalised language and "english". It also gets the English call and no leftover file |
| HandlerProperties.MultilingualSuccess | handler.py:156-205 | the same for a multilingual request and the multilingual engine, with the call carrying the normalised `language_id` |
| HandlerProperties.EncodingFaults | handler.py:180-182 | after the engine returns, an out-of-memory error from the encoder gives the out-of-memory message, any other encoder exception gives its own message, and a zero sample rate gives "division by zero" |
| HandlerProperties.DefaultsOnlyText | handler.py:134-137 | a job that sends only text calls the English engine with no prompt and both strengths at 0.5; a success reports language "en" and model type "english" |

## Left out

- `load_models` (handler.py:25-63) is left out. It checks for CUDA, loads pretrained weights onto the GPU and sets cudnn flags. The model takes its result as the `Registry` parameter, with each engine present or absent.
- `audio_to_base64` and `base64_to_audio_file` (handler.py:65-100) are left out. They do temporary-file I/O, WAV writing through torchaudio and base64 encoding. The model has them as the abstract `encodeWav` and `decodePrompt` parameters, each either returning a value or raising.
- The engines' `generate` is the abstract `generate` parameter. The waveform it returns is a sequence of samples, which only the encoder reads, and its length `wav.shape[-1]`. Tensor shape, channels and sample type are not modelled.
- The `duration`, `gpu_time` and `gpu_memory_gb` fields are not modelled: they are floating-point division, CUDA event timing and device memory telemetry. The success record keeps the sample count, so the duration is the sample count divided by `sample_rate`. A zero sample rate is modelled: it raises "division by zero", which becomes an error record.
- The CUDA events created before the `try` (handler.py:119-121) are left out. They raise outside the handler's exception handling when no GPU is present.
- The `torch.cuda.empty_cache()` calls (handler.py:152 and 208) and `torch.no_grad()` are left out, because they only affect device memory.
- Logging is left out. The one log line with an observable role, the prompt-failure warning, is `Trace.promptWarning`.
- The existence check and the deletion of the prompt file (handler.py:185-186) are modelled only as their outcome: no file is left on the success path. A failing `os.unlink` is not modelled.
- Fields are either absent or hold a value of the expected type. An explicit JSON `null` is not modelled. In Python, `"text": null` gets the "required" error, `"audio_prompt": null` behaves as if absent, `"model_type": null` gets "Model 'None' not available", and `"language_id": null` is passed on and echoed as `None`.
- A non-string `text` is not modelled. In Python a falsy one (`0`, `false`, `[]`, `{}`) gets the "required" error at handler.py:128. A truthy one raises AttributeError at `text.strip()`, and the generic `except` turns that into an error record.
- A non-numeric or null `exaggeration` or `cfg_weight` is not modelled. In Python it raises TypeError in `min` at handler.py:136-137, and the generic `except` turns that into an error record.
- NaN and ±Infinity strengths are not modelled, because `real` has neither. Python's `json` accepts both. `max(0.0, min(1.0, nan))` is 1.0, and the infinities clamp to 0.0 and 1.0.
- The serving-loop entry point (handler.py:216-222) and the HTTP test client `test_api.py` are left out, because they have no decision logic.
