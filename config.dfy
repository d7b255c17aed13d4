/** `SpeechConfig`: the synthesis settings an application changes through validating
    setters before building a synthesizer. */
module Config {
  import opened Wrappers
  import opened Enums
  import opened Exceptions

  const DefaultVoice: string := "zh-CN-XiaoxiaoNeural"
  const DefaultFormat: string := "audio-24khz-48kbitrate-mono-mp3"

  /** The value a call of the `method` setter stores, or the exception it raises. */
  function MethodFromArg(v: PyValue): (r: Result<int, Exc>)
    ensures r.Success? <==> IsInt(v) && 1 <= IntValue(v) <= 4
    ensures r.Success? ==> 1 <= r.value <= 4 && (v == PyInt(r.value) || (v == PyBool(true) && r.value == 1))
    ensures r.Failure? ==> (r.error.TypeError? <==> !IsInt(v)) && (r.error.ValueError? <==> IsInt(v))
  {
    if !IsInt(v) then Failure(TypeError("wrong type, must be an integer"))
    else
      var n := IntValue(v);
      if n < 1 || n > 4 then Failure(ValueError("method must be between 1 to 4"))
      else Success(n)
  }

  /** The argument of `set_speech_synthesis_output_format`: a member of
      `SpeechSynthesisOutputFormat`, or any other object. */
  datatype FormatArg = FormatMember(format: OutputFormat) | NotAFormat

  /** The format string a call stores, or the exception it raises. */
  function FormatFromArg(arg: FormatArg): (r: Result<string, Exc>)
    ensures r.Success? <==> arg.FormatMember?
    ensures r.Success? ==> r.value in FormatTable.Values && r.value == arg.format.Label()
    ensures r.Failure? ==> r.error == TypeError("wrong type, must be SpeechSynthesisOutputFormat")
  {
    match arg
    case NotAFormat => Failure(TypeError("wrong type, must be SpeechSynthesisOutputFormat"))
    case FormatMember(f) =>
      FormatMemberInTable(f);
      Success(FormatTable[f.Value()])
  }

  class SpeechConfig {
    var language: string
    var voiceName: Option<string>
    var outputFormatString: string
    var connectMethod: int

    /** The setters keep the method in 1..4 and the format string one of the table's. */
    predicate Valid()
      reads this
    {
      1 <= connectMethod <= 4 && outputFormatString in FormatTable.Values
    }

    constructor()
      ensures Valid()
      ensures language == "" && voiceName == Some(DefaultVoice)
      ensures outputFormatString == DefaultFormat && connectMethod == 1
    {
      language := "";
      voiceName := Some(DefaultVoice);
      outputFormatString := DefaultFormat;
      connectMethod := 1;
      assert FormatTable[7] == DefaultFormat;
    }

    /** The `speech_synthesis_language` setter. */
    method SetLanguage(l: string)
      modifies this
      ensures language == l
      ensures voiceName == old(voiceName) && outputFormatString == old(outputFormatString)
      ensures connectMethod == old(connectMethod)
    {
      language := l;
    }

    /** The `speech_synthesis_voice_name` setter; `None` leaves the SSML voice unnamed. */
    method SetVoiceName(voice: Option<string>)
      modifies this
      ensures voiceName == voice
      ensures language == old(language) && outputFormatString == old(outputFormatString)
      ensures connectMethod == old(connectMethod)
    {
      voiceName := voice;
    }

    /** The `method` setter: an exception leaves the configuration unchanged. */
    method SetMethod(v: PyValue) returns (r: Result<(), Exc>)
      requires Valid()
      modifies this
      ensures Valid()
      ensures r.Success? <==> MethodFromArg(v).Success?
      ensures connectMethod == if r.Success? then MethodFromArg(v).value else old(connectMethod)
      ensures r.Failure? ==> r.error == MethodFromArg(v).error
      ensures language == old(language) && voiceName == old(voiceName)
      ensures outputFormatString == old(outputFormatString)
    {
      if !IsInt(v) {
        return Failure(TypeError("wrong type, must be an integer"));
      }
      var n := IntValue(v);
      if n < 1 || n > 4 {
        return Failure(ValueError("method must be between 1 to 4"));
      }
      connectMethod := n;
      return Success(());
    }

    /** `set_speech_synthesis_output_format`: stores the table entry of the member's value. */
    method SetOutputFormat(arg: FormatArg) returns (r: Result<(), Exc>)
      requires Valid()
      modifies this
      ensures Valid()
      ensures r.Success? <==> arg.FormatMember?
      ensures outputFormatString ==
        if arg.FormatMember? then FormatTable[arg.format.Value()] else old(outputFormatString)
      ensures r.Failure? ==> r.error == FormatFromArg(arg).error
      ensures language == old(language) && voiceName == old(voiceName)
      ensures connectMethod == old(connectMethod)
    {
      if arg.NotAFormat? {
        return Failure(TypeError("wrong type, must be SpeechSynthesisOutputFormat"));
      }
      FormatMemberInTable(arg.format);
      outputFormatString := FormatTable[arg.format.Value()];
      return Success(());
    }
  }

  /** The default format is entry 7 of the table, and entry 26 is the only format of the
      third connection method. */
  lemma DefaultFormatEntries()
    ensures OutputFormatOf(7) == Some(Audio24Khz48KBitRateMonoMp3)
    ensures FormatTable[7] == DefaultFormat == Audio24Khz48KBitRateMonoMp3.Label()
    ensures OutputFormatOf(26) == Some(Webm24Khz16BitMonoOpus)
    ensures FormatTable[26] == "webm-24khz-16bit-mono-opus" == Webm24Khz16BitMonoOpus.Label()
  {
    FormatCodeMember(7);
    FormatCodeMember(26);
  }

  /** Setting a format member and reading the string back gives the member's own name. */
  lemma SetFormatNamesMember(f: OutputFormat)
    ensures FormatFromArg(FormatMember(f)) == Success(f.Label())
    ensures OutputFormatOf(f.Value()) == Some(f)
  {
    OutputFormatOfValue(f);
  }
}
