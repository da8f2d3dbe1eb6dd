/**
 * The fixed option tables of the capture page and its build-time configuration.
 * Each table is the ordered list the page's selectors iterate; order matters
 * because derivation takes the FIRST entry that qualifies.
 */
module Tables {

  /** A capture resolution, named by its landscape "WIDTHxHEIGHT" value. */
  datatype Resolution = R3840x2160 | R1920x1080 | R1280x720 | R640x480
  {
    function Width(): nat {
      match this
      case R3840x2160 => 3840
      case R1920x1080 => 1920
      case R1280x720 => 1280
      case R640x480 => 640
    }

    function Height(): nat {
      match this
      case R3840x2160 => 2160
      case R1920x1080 => 1080
      case R1280x720 => 720
      case R640x480 => 480
    }
  }

  datatype FrameRate = Fps15 | Fps24 | Fps30 | Fps60
  {
    function Fps(): nat {
      match this
      case Fps15 => 15
      case Fps24 => 24
      case Fps30 => 30
      case Fps60 => 60
    }
  }

  /** A recorder bit rate in bits per second. */
  datatype BitRate = Bps8000000000 | Bps800000000 | Bps8000000 | Bps800000 | Bps8000 | Bps800
  {
    function BitsPerSecond(): nat {
      match this
      case Bps8000000000 => 8000000000
      case Bps800000000 => 800000000
      case Bps8000000 => 8000000
      case Bps800000 => 800000
      case Bps8000 => 8000
      case Bps800 => 800
    }
  }

  /** Highest quality first. */
  const RESOLUTIONS: seq<Resolution> := [R3840x2160, R1920x1080, R1280x720, R640x480]

  /** Largest first. */
  const BIT_RATES: seq<BitRate> := [Bps8000000000, Bps800000000, Bps8000000, Bps800000, Bps8000, Bps800]

  const FRAME_RATES: seq<FrameRate> := [Fps15, Fps24, Fps30, Fps60]

  /** COMPRESSION_RATIO = 0.8, kept as the exact fraction 4/5. */
  const COMPRESSION_NUM: nat := 4
  const COMPRESSION_DEN: nat := 5

  /** The page always requests a portrait (rotated) capture. */
  const IS_PORTRAIT: bool := true

  /** The browser check is fixed once per process; this model fixes it to a non-Safari browser. */
  const IS_SAFARI: bool := false
  const MIME_TYPE: string := if IS_SAFARI then "video/mp4" else "video/webm;codecs=vp8"
  const EXTENSION: string := if IS_SAFARI then ".mp4" else ".webm"

  /** Position of a resolution in RESOLUTIONS: every value appears in the table. */
  function ResolutionRank(r: Resolution): (i: nat)
    ensures i < |RESOLUTIONS| && RESOLUTIONS[i] == r
  {
    match r
    case R3840x2160 => 0
    case R1920x1080 => 1
    case R1280x720 => 2
    case R640x480 => 3
  }

  /** Position of a bit rate in BIT_RATES: every value appears in the table. */
  function BitRateRank(b: BitRate): (i: nat)
    ensures i < |BIT_RATES| && BIT_RATES[i] == b
  {
    match b
    case Bps8000000000 => 0
    case Bps800000000 => 1
    case Bps8000000 => 2
    case Bps800000 => 3
    case Bps8000 => 4
    case Bps800 => 5
  }

  /** RESOLUTIONS is ordered by decreasing width and decreasing height. */
  lemma ResolutionsDescending(i: nat, j: nat)
    requires i <= j < |RESOLUTIONS|
    ensures RESOLUTIONS[j].Width() <= RESOLUTIONS[i].Width()
    ensures RESOLUTIONS[j].Height() <= RESOLUTIONS[i].Height()
  {
  }

  /** BIT_RATES is ordered by decreasing value. */
  lemma BitRatesDescending(i: nat, j: nat)
    requires i <= j < |BIT_RATES|
    ensures BIT_RATES[j].BitsPerSecond() <= BIT_RATES[i].BitsPerSecond()
  {
  }
}
