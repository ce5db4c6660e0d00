/** Encoders, bit depths, pixel formats, and a fully decided encode. */
module Plans {
  import opened Optional

  datatype EncoderId = HevcNvenc | Libx265 | Libx264 | Eac3 | Ac3 | Aac | Copy {
    predicate IsVideo() { this in {HevcNvenc, Libx265, Libx264} }
  }

  datatype BitDepth = Eight | Ten | Twelve {
    function Bits(): nat {
      match this
      case Eight => 8
      case Ten => 10
      case Twelve => 12
    }
  }

  datatype PixFmt = Yuv420p | Yuv420p10le | P010le {
    /** Bits per sample of the format. */
    function Bits(): nat { if this == Yuv420p then 8 else 10 }
  }

  function PixFmtFor(e: EncoderId, depth: BitDepth): Option<PixFmt> {
    if !e.IsVideo() then None
    else
      match depth
      case Eight => Some(Yuv420p)
      case Ten => Some(if e == HevcNvenc then P010le else Yuv420p10le)
      case Twelve => None
  }

  datatype EncodePlan = EncodePlan(
    videoCodec: EncoderId,
    audioCodec: EncoderId,
    pixFmt: Option<PixFmt>,
    extraArgs: seq<string>)
}
