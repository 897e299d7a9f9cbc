/** The job payload the serving loop hands to the handler, and the first two
    steps of handling it: validating `text` and normalising the optional
    settings (defaults for `language_id` and `model_type`, clamping of
    `exaggeration` and `cfg_weight`). */
module Request {

  datatype Option<+T> = None | Some(value: T) {
    function GetOr(default: T): T {
      match this
      case Some(v) => v
      case None => default
    }
  }

  /** The fields of `job["input"]`; `None` means the key is absent. */
  datatype Input = Input(
    text: Option<string>,
    languageId: Option<string>,
    modelType: Option<string>,
    exaggeration: Option<real>,
    cfgWeight: Option<real>,
    audioPrompt: Option<string>)

  /** A job; `input` is `None` when the payload has no "input" key. */
  datatype Job = Job(input: Option<Input>)

  const NoFields := Input(None, None, None, None, None, None)

  /** `job.get("input", {})`: a job without input reads as one with no fields. */
  function FieldsOf(job: Job): Input {
    job.input.GetOr(NoFields)
  }

  // ---------------------------------------------------------------------
  // Python's str.strip() with no argument

  /** The characters for which Python's `str.isspace()` holds, i.e. those
      `str.strip()` removes. */
  predicate IsSpace(c: char) {
    ('\t' <= c <= '\r')                     // \t \n \v \f \r
    || ('\U{1C}' <= c <= '\U{1F}')          // file, group, record, unit separators
    || c == ' ' || c == '\U{85}' || c == '\U{A0}' || c == '\U{1680}'
    || ('\U{2000}' <= c <= '\U{200A}')
    || c == '\U{2028}' || c == '\U{2029}' || c == '\U{202F}'
    || c == '\U{205F}' || c == '\U{3000}'
  }

  predicate AllSpace(s: string) {
    forall i | 0 <= i < |s| :: IsSpace(s[i])
  }

  /** `s.lstrip()`: the longest suffix of `s` that does not start with whitespace. */
  function StripLeading(s: string): (r: string)
    ensures |r| <= |s| && r == s[|s| - |r|..]
    ensures forall i | 0 <= i < |s| - |r| :: IsSpace(s[i])
    ensures r == [] || !IsSpace(r[0])
  {
    if |s| > 0 && IsSpace(s[0]) then StripLeading(s[1..]) else s
  }

  /** `s.rstrip()`: the longest prefix of `s` that does not end with whitespace. */
  function StripTrailing(s: string): (r: string)
    ensures |r| <= |s| && r == s[..|r|]
    ensures forall i | |r| <= i < |s| :: IsSpace(s[i])
    ensures r == [] || !IsSpace(r[|r| - 1])
  {
    if |s| > 0 && IsSpace(s[|s| - 1]) then StripTrailing(s[..|s| - 1]) else s
  }

  /** `s.strip()`: `s` without its leading and trailing whitespace; it is
      empty exactly when every character of `s` is whitespace (the empty
      string included), which is what `len(text.strip()) == 0` tests. */
  function Strip(s: string): (r: string)
    ensures |r| <= |s|
    ensures r != [] ==> !IsSpace(r[0]) && !IsSpace(r[|r| - 1])
    ensures r == [] <==> AllSpace(s)
  {
    StripTrailing(StripLeading(s))
  }

  // ---------------------------------------------------------------------
  // Validation of `text`

  const MaxTextLength := 5000
  const EmptyTextMessage := "Text parameter is required and cannot be empty"
  const TooLongMessage := "Text too long (max 5000 characters)"

  datatype Validation = Accepted(text: string) | Rejected(message: string)

  /** The two guards in front of everything else: text must be present and
      not all whitespace, and at most 5000 code points long; the emptiness
      guard is tested first. */
  function Validate(text: Option<string>): (v: Validation)
    ensures v.Accepted? <==>
      text.Some? && !AllSpace(text.value) && |text.value| <= MaxTextLength
    ensures v.Accepted? ==> v.text == text.value && 0 < |v.text|
    ensures text.None? || AllSpace(text.value) ==> v == Rejected(EmptyTextMessage)
    ensures text.Some? && !AllSpace(text.value) && |text.value| > MaxTextLength ==>
      v == Rejected(TooLongMessage)
  {
    if text.None? then Rejected(EmptyTextMessage)
    else if |text.value| == 0 || |Strip(text.value)| == 0 then Rejected(EmptyTextMessage)
    else if |text.value| > MaxTextLength then Rejected(TooLongMessage)
    else Accepted(text.value)
  }

  // ---------------------------------------------------------------------
  // Normalisation of the optional settings

  const DefaultLanguageId := "en"
  const DefaultModelType := "english"
  const DefaultStrength := 0.5

  /** Python's `min(a, b)`: the first argument unless the second is smaller. */
  function PyMin(a: real, b: real): real {
    if b < a then b else a
  }

  /** Python's `max(a, b)`: the first argument unless the second is larger. */
  function PyMax(a: real, b: real): real {
    if b > a then b else a
  }

  /** `max(0.0, min(1.0, x))`. */
  function Clamp(x: real): (r: real)
    ensures 0.0 <= r <= 1.0
    ensures 0.0 <= x <= 1.0 ==> r == x
    ensures x < 0.0 ==> r == 0.0
    ensures x > 1.0 ==> r == 1.0
  {
    PyMax(0.0, PyMin(1.0, x))
  }

  /** The settings after defaults and clamping. */
  datatype Params = Params(
    languageId: string,
    modelType: string,
    exaggeration: real,
    cfgWeight: real)

  /** `exaggeration` or `cfg_weight`: the supplied value clamped into [0, 1],
      or 0.5 when absent. */
  function Strength(supplied: Option<real>): (r: real)
    ensures 0.0 <= r <= 1.0
    ensures supplied.None? ==> r == DefaultStrength
    ensures supplied.Some? && 0.0 <= supplied.value <= 1.0 ==> r == supplied.value
    ensures supplied.Some? && supplied.value < 0.0 ==> r == 0.0
    ensures supplied.Some? && supplied.value > 1.0 ==> r == 1.0
  {
    Clamp(supplied.GetOr(DefaultStrength))
  }

  function Normalize(input: Input): (p: Params)
    ensures input.languageId.None? ==> p.languageId == DefaultLanguageId
    ensures input.languageId.Some? ==> p.languageId == input.languageId.value
    ensures input.modelType.None? ==> p.modelType == DefaultModelType
    ensures input.modelType.Some? ==> p.modelType == input.modelType.value
    ensures 0.0 <= p.exaggeration <= 1.0 && 0.0 <= p.cfgWeight <= 1.0
    ensures p.exaggeration == Strength(input.exaggeration)
    ensures p.cfgWeight == Strength(input.cfgWeight)
  {
    Params(
      input.languageId.GetOr(DefaultLanguageId),
      input.modelType.GetOr(DefaultModelType),
      Strength(input.exaggeration),
      Strength(input.cfgWeight))
  }
}
