// The response models the detectors share (backend/app/models/detection.py): the models a
// detection can be attributed to.

module DetectionModels {
  import opened Text

  /** `AIModel` */
  datatype AIModel = Gpt4 | Gpt35 | Claude | Llama | Gemini | DallE | Midjourney | StableDiffusion | UnknownModel

  /** The enum's string value. */
  function ModelName(m: AIModel): string
  {
    match m
    case Gpt4 => "gpt-4"
    case Gpt35 => "gpt-3.5"
    case Claude => "claude"
    case Llama => "llama"
    case Gemini => "gemini"
    case DallE => "dall-e"
    case Midjourney => "midjourney"
    case StableDiffusion => "stable-diffusion"
    case UnknownModel => "unknown"
  }

  /**
   * The explanation sentence the detectors build: a head, then "Key indicators: " and the
   * reasons joined with ", ", or the fallback when there is none.
   */
  function Explain(head: string, reasons: seq<string>, fallback: string): (e: string)
    ensures StartsWith(e, head)
    ensures reasons == [] ==> EndsWith(e, "Key indicators: " + fallback + ".")
    ensures reasons != [] ==> EndsWith(e, "Key indicators: " + Join(reasons, ", ") + ".")
  {
    var tail := "Key indicators: " + (if reasons == [] then fallback else Join(reasons, ", ")) + ".";
    assert (head + tail)[..|head|] == head;
    assert (head + tail)[|head + tail| - |tail|..] == tail;
    head + tail
  }
}
