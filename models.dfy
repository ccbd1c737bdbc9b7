/**
 * The application's enumerations. Each Python enum is a `str` enum, so a
 * member is looked up from its string value (`ModelSize("tiny")`) and the
 * lookup raises `ValueError` for any other string.
 */
module Models {
  import opened Wrappers

  /** The available Whisper model sizes. */
  datatype ModelSize = Tiny | Base | Small | Medium | Large
  {
    function Value(): string
    {
      match this
      case Tiny => "tiny"
      case Base => "base"
      case Small => "small"
      case Medium => "medium"
      case Large => "large"
    }
  }

  /** The export formats; `Value()` is also the file extension. */
  datatype OutputFormat = Txt | Md | Srt | Docx
  {
    function Value(): string
    {
      match this
      case Txt => "txt"
      case Md => "md"
      case Srt => "srt"
      case Docx => "docx"
    }
  }

  /** What the speech engine is asked to do. */
  datatype TranscriptionTask = Transcribe | Translate
  {
    function Value(): string
    {
      match this
      case Transcribe => "transcribe"
      case Translate => "translate"
    }
  }

  /** `ModelSize(value)`: the member with that value, or the ValueError message. */
  function ParseModelSize(value: string): (r: Result<ModelSize, string>)
    ensures r.Success? ==> r.value.Value() == value
    ensures r.Failure? ==> forall m: ModelSize :: m.Value() != value
  {
    if value == "tiny" then Success(Tiny)
    else if value == "base" then Success(Base)
    else if value == "small" then Success(Small)
    else if value == "medium" then Success(Medium)
    else if value == "large" then Success(Large)
    else Failure("'" + value + "' is not a valid ModelSize")
  }

  /** `OutputFormat(value)`: the member with that value, or the ValueError message. */
  function ParseOutputFormat(value: string): (r: Result<OutputFormat, string>)
    ensures r.Success? ==> r.value.Value() == value
    ensures r.Failure? ==> forall f: OutputFormat :: f.Value() != value
  {
    if value == "txt" then Success(Txt)
    else if value == "md" then Success(Md)
    else if value == "srt" then Success(Srt)
    else if value == "docx" then Success(Docx)
    else Failure("'" + value + "' is not a valid OutputFormat")
  }

  /** Every model size is found again from its own value. */
  lemma ModelSizeRoundTrip(m: ModelSize)
    ensures ParseModelSize(m.Value()) == Success(m)
  {
  }

  /** Every output format is found again from its own value. */
  lemma OutputFormatRoundTrip(f: OutputFormat)
    ensures ParseOutputFormat(f.Value()) == Success(f)
  {
  }
}
