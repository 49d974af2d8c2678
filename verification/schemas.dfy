/**
 * The request and response bodies of the voice endpoints, with the
 * constraints and defaults the request body is validated against.
 */
module Schemas {
  import opened Wrappers
  import opened Text
  import opened Schema

  /** `SynthesizeRequest`, once validated. */
  datatype SynthesizeRequest = SynthesizeRequest(text: string, format: string, sampleRate: int)

  /** The defaults of `format` and `sample_rate`. */
  const DefaultFormat := "wav"
  const DefaultSampleRate := 22050

  /** The formats `^(wav|mp3)$` admits, and the sample-rate bounds. */
  const Formats := ["wav", "mp3"]
  const MinSampleRate := 8000
  const MaxSampleRate := 48000

  /** The names of the fields of a request body that break their constraints, in field order. */
  function FieldErrors(text: string, format: string, sampleRate: int): (fields: seq<string>)
    ensures "text" in fields <==> |text| < 1
    ensures "format" in fields <==> format !in Formats
    ensures "sample_rate" in fields <==> !(MinSampleRate <= sampleRate <= MaxSampleRate)
    ensures forall f :: f in fields ==> f in ["text", "format", "sample_rate"]
  {
    (if |text| < 1 then ["text"] else [])
    + (if format !in Formats then ["format"] else [])
    + (if MinSampleRate <= sampleRate <= MaxSampleRate then [] else ["sample_rate"])
  }

  /**
   * Validation of a synthesis request body: the omitted fields take their
   * defaults; the body is accepted exactly when the text has at least one
   * character, the format is "wav" or "mp3" and the sample rate lies in
   * 8000..48000, and otherwise every offending field is reported.
   */
  function ParseSynthesizeRequest(text: string, format: Option<string>, sampleRate: Option<int>)
    : (r: Result<SynthesizeRequest, seq<string>>)
    ensures var f, s := OrElse(format, DefaultFormat), OrElse(sampleRate, DefaultSampleRate);
      && (r.Success? <==> |text| >= 1 && f in Formats && MinSampleRate <= s <= MaxSampleRate)
      && (r.Success? ==> r.value == SynthesizeRequest(text, f, s))
      && (r.Failure? ==> r.error == FieldErrors(text, f, s) && r.error != [])
  {
    var f, s := OrElse(format, DefaultFormat), OrElse(sampleRate, DefaultSampleRate);
    var errors := FieldErrors(text, f, s);
    if errors == [] then Success(SynthesizeRequest(text, f, s)) else Failure(errors)
  }

  /** The defaults satisfy the constraints: a body with only a text is valid. */
  lemma DefaultsAreValid(text: string)
    requires text != []
    ensures ParseSynthesizeRequest(text, None, None) == Success(SynthesizeRequest(text, "wav", 22050))
  {
  }

  /**
   * The schema only counts characters: a text of white space alone is a
   * valid request; only the service refuses it.
   */
  lemma BlankTextIsValid(text: string, format: Option<string>, sampleRate: Option<int>)
    requires text != [] && IsBlank(text)
    requires OrElse(format, DefaultFormat) in Formats
    requires MinSampleRate <= OrElse(sampleRate, DefaultSampleRate) <= MaxSampleRate
    ensures ParseSynthesizeRequest(text, format, sampleRate).Success?
    ensures IsBlank(ParseSynthesizeRequest(text, format, sampleRate).value.text)
  {
  }

  /** `VoiceUploadResponse`. */
  datatype VoiceUploadResponse = VoiceUploadResponse(
    voiceId: string,
    filename: string,
    duration: Option<Duration>,
    sampleRate: Option<int>,
    message: string)

  /** The default of `VoiceUploadResponse.message`. */
  const DefaultUploadMessage := "Voice registered successfully"

  /** `VoiceMetadataResponse`. */
  datatype VoiceMetadataResponse = VoiceMetadataResponse(
    voiceId: string,
    filename: string,
    createdAt: int,
    duration: Option<Duration>,
    sampleRate: Option<int>,
    name: Option<string>,
    description: Option<string>)

  /** `ErrorResponse`; `detail` defaults to `None`. */
  datatype ErrorResponse = ErrorResponse(error: string, detail: Option<string>)
}
