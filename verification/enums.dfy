/** The string enumerations the core works with. Members that share a name
    across enumerations (Ready, Closed, Error) are written qualified. */
module Enums {

  datatype AIModelType = Checkpoint | Embedding | Vae | Lora | ControlNet

  datatype AIModelBase = All | SD | SDXL

  datatype AIModelStatus = Downloading | Ready | Error

  datatype Variant = FP16 | FP32

  /** `str(variant)` of the string enumeration. */
  function VariantValue(v: Variant): (s: string)
    ensures |s| == 4
  {
    match v
    case FP16 => "fp16"
    case FP32 => "fp32"
  }

  datatype PathType = HuggingFace | File

  datatype ControlNetType = Midas | OpenPose | MediaPipe | Canny

  datatype PipeType = Txt2Img | Img2Img

  datatype LongPromptTechnique = Compel | SdEmbed

  datatype FileImageType = Jpg | Png

  /** `str(file_type)` of the string enumeration. */
  function FileTypeValue(t: FileImageType): (s: string)
    ensures |s| == 3
  {
    match t
    case Jpg => "jpg"
    case Png => "png"
  }

  datatype JobStatus = Waiting | Processing | Finished

  /** Persisted lifecycle status of a generator, as the core writes it. */
  datatype GeneratorStatus = Stopped | Starting | Ready | Stopping | Closed

  datatype GeneratorCommandType = Job | Close

  datatype GeneratorEventType = Ready | Error | ImageFinished | JobFinished | Closed
}
