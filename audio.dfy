/** `AudioOutputConfig`: the choice of where synthesized audio goes, or the exception that
    rejects the combination of arguments. */
module AudioOutput {
  import opened Wrappers
  import opened Exceptions

  /** The handler the configuration installs: play on the default speaker, or write a file. */
  datatype Sink = DefaultSpeaker | FileSink(filename: string)

  const NotBoolMessage: string := "use_default_speaker must be a bool"
  const StreamMessage: string := "`stream` has not been implemented"
  const NoTargetMessage: string := "default speaker needs to be explicitly activated"
  const TwoTargetsMessage: string := "only one of filename, stream, and device_name can be given"
  const DeviceMessage: string :=
    "Due to pydub.playback doesn't support choosing device, `device_name` may not be supported."

  /** `AudioOutputConfig(use_default_speaker, filename, stream, device_name)`; `stream` says
      whether a stream object was passed. */
  function AudioOutputConfigOf(useDefaultSpeaker: PyValue, filename: Option<string>, stream: bool,
                               deviceName: Option<string>): (r: Result<Sink, Exc>)
    ensures r == Success(DefaultSpeaker) <==>
      useDefaultSpeaker == PyBool(true) && !stream && filename.None? && deviceName.None?
    ensures (r.Success? && r.value.FileSink?) <==>
      useDefaultSpeaker.PyBool? && !stream && filename.Some? && deviceName.None?
    ensures r.Success? && r.value.FileSink? ==> r.value.filename == filename.value
    ensures (r.Failure? && r.error.NotImplementedError?) <==>
      useDefaultSpeaker.PyBool? && (stream || (filename.None? && deviceName.Some?))
    ensures r.Failure? && !r.error.NotImplementedError? ==> r.error.ValueError?
  {
    if !useDefaultSpeaker.PyBool? then
      Failure(ValueError(NotBoolMessage))
    else if stream then
      Failure(NotImplementedError(StreamMessage))
    else if filename.None? && deviceName.None? then
      if useDefaultSpeaker.b then Success(DefaultSpeaker)
      else Failure(ValueError(NoTargetMessage))
    else if filename.Some? && deviceName.Some? then
      Failure(ValueError(TwoTargetsMessage))
    else if filename.Some? then
      Success(FileSink(filename.value))
    else
      Failure(NotImplementedError(DeviceMessage))
  }

  /** A file name given alone selects the file sink whatever `use_default_speaker` says. */
  lemma FileNameWins(b: bool, filename: string)
    ensures AudioOutputConfigOf(PyBool(b), Some(filename), false, None) == Success(FileSink(filename))
  {
  }

  /** Two targets at once are refused with ValueError. */
  lemma TwoTargetsRefused(b: bool, filename: string, deviceName: string)
    ensures AudioOutputConfigOf(PyBool(b), Some(filename), false, Some(deviceName)).Failure?
    ensures AudioOutputConfigOf(PyBool(b), Some(filename), false, Some(deviceName)).error.ValueError?
  {
  }
}
