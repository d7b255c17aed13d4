/** The output-format code table and the enumerations of tts/enums.py. */
module Enums {
  import opened Wrappers

  /** `_SpeechSynthesisOutputFormat`: output-format code to the literal format string sent on the wire. */
  const FormatTable: map<int, string> := map code | 1 <= code <= 38 :: FormatString(code)

  /** The entry of each code in 1..38. */
  function FormatString(code: int): string
    requires 1 <= code <= 38
  {
    match code
    case 1 => "raw-8khz-8bit-mono-mulaw"
    case 2 => "riff-16khz-16kbps-mono-siren"
    case 3 => "audio-16khz-16kbps-mono-siren"
    case 4 => "audio-16khz-32kbitrate-mono-mp3"
    case 5 => "audio-16khz-128kbitrate-mono-mp3"
    case 6 => "audio-16khz-64kbitrate-mono-mp3"
    case 7 => "audio-24khz-48kbitrate-mono-mp3"
    case 8 => "audio-24khz-96kbitrate-mono-mp3"
    case 9 => "audio-24khz-160kbitrate-mono-mp3"
    case 10 => "raw-16khz-16bit-mono-truesilk"
    case 11 => "riff-16khz-16bit-mono-pcm"
    case 12 => "riff-8khz-16bit-mono-pcm"
    case 13 => "riff-24khz-16bit-mono-pcm"
    case 14 => "riff-8khz-8bit-mono-mulaw"
    case 15 => "raw-16khz-16bit-mono-pcm"
    case 16 => "raw-24khz-16bit-mono-pcm"
    case 17 => "raw-8khz-16bit-mono-pcm"
    case 18 => "ogg-16khz-16bit-mono-opus"
    case 19 => "ogg-24khz-16bit-mono-opus"
    case 20 => "raw-48khz-16bit-mono-pcm"
    case 21 => "riff-48khz-16bit-mono-pcm"
    case 22 => "audio-48khz-96kbitrate-mono-mp3"
    case 23 => "audio-48khz-192kbitrate-mono-mp3"
    case 24 => "ogg-48khz-16bit-mono-opus"
    case 25 => "webm-16khz-16bit-mono-opus"
    case 26 => "webm-24khz-16bit-mono-opus"
    case 27 => "raw-24khz-16bit-mono-truesilk"
    case 28 => "raw-8khz-8bit-mono-alaw"
    case 29 => "riff-8khz-8bit-mono-alaw"
    case 30 => "webm-24khz-16bit-24kbps-mono-opus"
    case 31 => "audio-16khz-16bit-32kbps-mono-opus"
    case 32 => "audio-24khz-16bit-48kbps-mono-opus"
    case 33 => "audio-24khz-16bit-24kbps-mono-opus"
    case 34 => "raw-22050hz-16bit-mono-pcm"
    case 35 => "riff-22050hz-16bit-mono-pcm"
    case 36 => "raw-44100hz-16bit-mono-pcm"
    case 37 => "riff-44100hz-16bit-mono-pcm"
    case _ => "amr-wb-16000hz"
  }

  /** `SpeechSynthesisOutputFormat`: one constructor per enum member, in declaration order. */
  datatype OutputFormat =
    Raw8Khz8BitMonoMULaw
    | Riff16Khz16KbpsMonoSiren
    | Audio16Khz16KbpsMonoSiren
    | Audio16Khz32KBitRateMonoMp3
    | Audio16Khz128KBitRateMonoMp3
    | Audio16Khz64KBitRateMonoMp3
    | Audio24Khz48KBitRateMonoMp3
    | Audio24Khz96KBitRateMonoMp3
    | Audio24Khz160KBitRateMonoMp3
    | Raw16Khz16BitMonoTrueSilk
    | Riff16Khz16BitMonoPcm
    | Riff8Khz16BitMonoPcm
    | Riff24Khz16BitMonoPcm
    | Riff8Khz8BitMonoMULaw
    | Raw16Khz16BitMonoPcm
    | Raw24Khz16BitMonoPcm
    | Raw8Khz16BitMonoPcm
    | Ogg16Khz16BitMonoOpus
    | Ogg24Khz16BitMonoOpus
    | Raw48Khz16BitMonoPcm
    | Riff48Khz16BitMonoPcm
    | Audio48Khz96KBitRateMonoMp3
    | Audio48Khz192KBitRateMonoMp3
    | Ogg48Khz16BitMonoOpus
    | Webm16Khz16BitMonoOpus
    | Webm24Khz16BitMonoOpus
    | Raw24Khz16BitMonoTrueSilk
    | Raw8Khz8BitMonoALaw
    | Riff8Khz8BitMonoALaw
    | Webm24Khz16Bit24KbpsMonoOpus
    | Audio16Khz16Bit32KbpsMonoOpus
    | Audio24Khz16Bit48KbpsMonoOpus
    | Audio24Khz16Bit24KbpsMonoOpus
    | Raw22050Hz16BitMonoPcm
    | Riff22050Hz16BitMonoPcm
    | Raw44100Hz16BitMonoPcm
    | Riff44100Hz16BitMonoPcm
    | AmrWb16000Hz
  {
    /** The member's enum value (its format code). */
    function Value(): (v: int)
      ensures 1 <= v <= 38
    {
      match this
      case Raw8Khz8BitMonoMULaw => 1
      case Riff16Khz16KbpsMonoSiren => 2
      case Audio16Khz16KbpsMonoSiren => 3
      case Audio16Khz32KBitRateMonoMp3 => 4
      case Audio16Khz128KBitRateMonoMp3 => 5
      case Audio16Khz64KBitRateMonoMp3 => 6
      case Audio24Khz48KBitRateMonoMp3 => 7
      case Audio24Khz96KBitRateMonoMp3 => 8
      case Audio24Khz160KBitRateMonoMp3 => 9
      case Raw16Khz16BitMonoTrueSilk => 10
      case Riff16Khz16BitMonoPcm => 11
      case Riff8Khz16BitMonoPcm => 12
      case Riff24Khz16BitMonoPcm => 13
      case Riff8Khz8BitMonoMULaw => 14
      case Raw16Khz16BitMonoPcm => 15
      case Raw24Khz16BitMonoPcm => 16
      case Raw8Khz16BitMonoPcm => 17
      case Ogg16Khz16BitMonoOpus => 18
      case Ogg24Khz16BitMonoOpus => 19
      case Raw48Khz16BitMonoPcm => 20
      case Riff48Khz16BitMonoPcm => 21
      case Audio48Khz96KBitRateMonoMp3 => 22
      case Audio48Khz192KBitRateMonoMp3 => 23
      case Ogg48Khz16BitMonoOpus => 24
      case Webm16Khz16BitMonoOpus => 25
      case Webm24Khz16BitMonoOpus => 26
      case Raw24Khz16BitMonoTrueSilk => 27
      case Raw8Khz8BitMonoALaw => 28
      case Riff8Khz8BitMonoALaw => 29
      case Webm24Khz16Bit24KbpsMonoOpus => 30
      case Audio16Khz16Bit32KbpsMonoOpus => 31
      case Audio24Khz16Bit48KbpsMonoOpus => 32
      case Audio24Khz16Bit24KbpsMonoOpus => 33
      case Raw22050Hz16BitMonoPcm => 34
      case Riff22050Hz16BitMonoPcm => 35
      case Raw44100Hz16BitMonoPcm => 36
      case Riff44100Hz16BitMonoPcm => 37
      case AmrWb16000Hz => 38
    }

    /** The format string the member names: its docstring, which in the enum is the table
        entry of its value. */
    function Label(): string {
      FormatString(Value())
    }
  }

  /** `SpeechSynthesisOutputFormat(v)`: lookup of a member by value; None where Python raises ValueError. */
  function OutputFormatOf(v: int): Option<OutputFormat>
  {
    match v
    case 1 => Some(Raw8Khz8BitMonoMULaw)
    case 2 => Some(Riff16Khz16KbpsMonoSiren)
    case 3 => Some(Audio16Khz16KbpsMonoSiren)
    case 4 => Some(Audio16Khz32KBitRateMonoMp3)
    case 5 => Some(Audio16Khz128KBitRateMonoMp3)
    case 6 => Some(Audio16Khz64KBitRateMonoMp3)
    case 7 => Some(Audio24Khz48KBitRateMonoMp3)
    case 8 => Some(Audio24Khz96KBitRateMonoMp3)
    case 9 => Some(Audio24Khz160KBitRateMonoMp3)
    case 10 => Some(Raw16Khz16BitMonoTrueSilk)
    case 11 => Some(Riff16Khz16BitMonoPcm)
    case 12 => Some(Riff8Khz16BitMonoPcm)
    case 13 => Some(Riff24Khz16BitMonoPcm)
    case 14 => Some(Riff8Khz8BitMonoMULaw)
    case 15 => Some(Raw16Khz16BitMonoPcm)
    case 16 => Some(Raw24Khz16BitMonoPcm)
    case 17 => Some(Raw8Khz16BitMonoPcm)
    case 18 => Some(Ogg16Khz16BitMonoOpus)
    case 19 => Some(Ogg24Khz16BitMonoOpus)
    case 20 => Some(Raw48Khz16BitMonoPcm)
    case 21 => Some(Riff48Khz16BitMonoPcm)
    case 22 => Some(Audio48Khz96KBitRateMonoMp3)
    case 23 => Some(Audio48Khz192KBitRateMonoMp3)
    case 24 => Some(Ogg48Khz16BitMonoOpus)
    case 25 => Some(Webm16Khz16BitMonoOpus)
    case 26 => Some(Webm24Khz16BitMonoOpus)
    case 27 => Some(Raw24Khz16BitMonoTrueSilk)
    case 28 => Some(Raw8Khz8BitMonoALaw)
    case 29 => Some(Riff8Khz8BitMonoALaw)
    case 30 => Some(Webm24Khz16Bit24KbpsMonoOpus)
    case 31 => Some(Audio16Khz16Bit32KbpsMonoOpus)
    case 32 => Some(Audio24Khz16Bit48KbpsMonoOpus)
    case 33 => Some(Audio24Khz16Bit24KbpsMonoOpus)
    case 34 => Some(Raw22050Hz16BitMonoPcm)
    case 35 => Some(Riff22050Hz16BitMonoPcm)
    case 36 => Some(Raw44100Hz16BitMonoPcm)
    case 37 => Some(Riff44100Hz16BitMonoPcm)
    case 38 => Some(AmrWb16000Hz)
    case _ => None
  }

  /** The table is total on the codes 1..38 and defined nowhere else. */
  lemma FormatTableDomain()
    ensures forall i :: i in FormatTable <==> 1 <= i <= 38
  {
  }

  /** No two codes share a format string, so code to string is injective. */
  lemma FormatTableInjective()
    ensures forall i, j :: i in FormatTable && j in FormatTable && i != j ==> FormatTable[i] != FormatTable[j]
  {
    forall i, j | i in FormatTable && j in FormatTable && i < j
      ensures FormatTable[i] != FormatTable[j]
    {
      if i <= 5 {
        FormatStringsDistinct1To5(i, j);
      } else if i <= 11 {
        FormatStringsDistinct6To11(i, j);
      } else if i <= 18 {
        FormatStringsDistinct12To18(i, j);
      } else if i <= 26 {
        FormatStringsDistinct19To26(i, j);
      } else if i <= 31 {
        FormatStringsDistinct27To31(i, j);
      } else {
        FormatStringsDistinct32To37(i, j);
      }
    }
  }

  lemma FormatStringsDistinct1To5(i: int, j: int)
    requires 1 <= i <= 5 && i < j <= 38
    ensures FormatString(i) != FormatString(j)
  {
  }

  lemma FormatStringsDistinct6To11(i: int, j: int)
    requires 6 <= i <= 11 && i < j <= 38
    ensures FormatString(i) != FormatString(j)
  {
  }

  lemma FormatStringsDistinct12To18(i: int, j: int)
    requires 12 <= i <= 18 && i < j <= 38
    ensures FormatString(i) != FormatString(j)
  {
  }

  lemma FormatStringsDistinct19To26(i: int, j: int)
    requires 19 <= i <= 26 && i < j <= 38
    ensures FormatString(i) != FormatString(j)
  {
  }

  lemma FormatStringsDistinct27To31(i: int, j: int)
    requires 27 <= i <= 31 && i < j <= 38
    ensures FormatString(i) != FormatString(j)
  {
  }

  lemma FormatStringsDistinct32To37(i: int, j: int)
    requires 32 <= i <= 37 && i < j <= 38
    ensures FormatString(i) != FormatString(j)
  {
  }

  /** Every member's value is a code of the table, and it names that code's string. */
  lemma FormatMemberInTable(f: OutputFormat)
    ensures f.Value() in FormatTable && f.Label() == FormatTable[f.Value()]
  {
  }

  /** Every code of the table names a member, whose format string is that code's. */
  lemma FormatCodeMember(v: int)
    requires v in FormatTable
    ensures OutputFormatOf(v).Some? && OutputFormatOf(v).value.Label() == FormatTable[v]
  {
    OutputFormatOfDomain(v);
    OutputFormatOfFinds(v);
  }

  /** Looking a member up by its own value gives it back; the lookup succeeds exactly on 1..38. */
  lemma OutputFormatOfValue(f: OutputFormat)
    ensures OutputFormatOf(f.Value()) == Some(f)
  {
  }

  /** The member found has the value looked up. */
  lemma OutputFormatOfFinds(v: int)
    ensures OutputFormatOf(v).Some? ==> OutputFormatOf(v).value.Value() == v
  {
  }

  lemma OutputFormatOfDomain(v: int)
    ensures OutputFormatOf(v).Some? <==> v in FormatTable
  {
  }

  /** Distinct members have distinct values. */
  lemma OutputFormatValueInjective(f: OutputFormat, g: OutputFormat)
    ensures f.Value() == g.Value() ==> f == g
  {
    OutputFormatOfValue(f);
    OutputFormatOfValue(g);
  }

  /** `ResultReason`. */
  datatype ResultReason = Canceled | SynthesizingAudio | SynthesizingAudioCompleted | SynthesizingAudioStarted
  {
    function Value(): int {
      match this
      case Canceled => 1
      case SynthesizingAudio => 8
      case SynthesizingAudioCompleted => 9
      case SynthesizingAudioStarted => 12
    }
  }

  /** `CancellationReason`. */
  datatype CancellationReason = Error | CancelledByUser
  {
    function Value(): int {
      match this
      case Error => 1
      case CancelledByUser => 3
    }
  }

  /** `CancellationErrorCode`. */
  datatype CancellationErrorCode =
    | NoError
    | TooManyRequests
    | Forbidden
    | ConnectionFailure
    | ServiceTimeout
    | ServiceError
    | ServiceUnavailable
    | RuntimeError
  {
    function Value(): int {
      match this
      case NoError => 0
      case TooManyRequests => 3
      case Forbidden => 4
      case ConnectionFailure => 5
      case ServiceTimeout => 6
      case ServiceError => 7
      case ServiceUnavailable => 8
      case RuntimeError => 9
    }
  }

  /** `CancellationErrorCode(v)`: lookup by value. */
  function ErrorCodeOf(v: int): (r: Option<CancellationErrorCode>)
    ensures r.Some? ==> r.value.Value() == v
  {
    match v
    case 0 => Some(NoError)
    case 3 => Some(TooManyRequests)
    case 4 => Some(Forbidden)
    case 5 => Some(ConnectionFailure)
    case 6 => Some(ServiceTimeout)
    case 7 => Some(ServiceError)
    case 8 => Some(ServiceUnavailable)
    case 9 => Some(RuntimeError)
    case _ => None
  }

  /** Error codes are pairwise distinct: lookup by value inverts Value. */
  lemma ErrorCodeOfValue(c: CancellationErrorCode)
    ensures ErrorCodeOf(c.Value()) == Some(c)
  {
  }

  lemma ErrorCodeValueInjective(c: CancellationErrorCode, d: CancellationErrorCode)
    ensures c.Value() == d.Value() ==> c == d
  {
    ErrorCodeOfValue(c);
    ErrorCodeOfValue(d);
  }

  /** `CancellationReason` has exactly the values 1 (`Error`) and 3 (`CancelledByUser`). */
  lemma CancellationReasonValues(c: CancellationReason)
    ensures c.Value() == 1 || c.Value() == 3
    ensures c.Value() == 1 <==> c == Error
  {
  }

  /** The `ResultReason` values are pairwise distinct. */
  lemma ResultReasonValueInjective(a: ResultReason, b: ResultReason)
    ensures a.Value() == b.Value() ==> a == b
  {
  }
}
