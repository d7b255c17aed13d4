/** How a finished synthesis task is reported: the cancellation classifier of
    `SpeechSynthesisCancellationDetails`, the tagging of `SpeechSynthesisResult`, and the
    final wrap in `ResultFuture.get`. */
module Outcome {
  import opened Wrappers
  import opened Enums
  import opened Exceptions
  import opened Receive

  /** What the `exception` property holds: the HTTP status of a rejected handshake, or the
      original exception. */
  datatype CauseValue = StatusCode(code: int) | Cause(exc: Exc)

  /** `SpeechSynthesisCancellationDetails`.  `exception` is `None` where the constructor leaves
      `_exc` unset. */
  datatype CancellationDetails = CancellationDetails(
    reason: CancellationReason,
    errorCode: CancellationErrorCode,
    exception: Option<CauseValue>)

  /** The HTTP statuses with an error code of their own. */
  const StatusErrorCodes: map<int, CancellationErrorCode> :=
    map[429 := TooManyRequests, 403 := Forbidden, 500 := ServiceError, 503 := ServiceUnavailable]

  /** `SpeechSynthesisCancellationDetails(exc)`: an ordered test of the exception's class. */
  function ClassifyCancellation(e: Exc): (d: CancellationDetails)
    ensures d.reason == CancelledByUser <==> e.KeyboardInterrupt?
    ensures d.errorCode == NoError <==> e.KeyboardInterrupt?
    ensures d.reason == Error <==> !e.KeyboardInterrupt?
    ensures d.exception.Some? <==> d.errorCode == RuntimeError
    ensures e.InvalidStatus? ==>
      d.errorCode == (if e.status in StatusErrorCodes then StatusErrorCodes[e.status] else RuntimeError)
    ensures e.InvalidStatus? && d.exception.Some? ==> d.exception.value == StatusCode(e.status)
    ensures !e.InvalidStatus? && d.exception.Some? ==> d.exception.value == Cause(e)
  {
    if e.KeyboardInterrupt? then
      CancellationDetails(CancelledByUser, NoError, None)
    else if e.InvalidStatus? then
      var code := e.status;
      if code == 429 then CancellationDetails(Error, TooManyRequests, None)
      else if code == 403 then CancellationDetails(Error, Forbidden, None)
      else if code == 500 then CancellationDetails(Error, ServiceError, None)
      else if code == 503 then CancellationDetails(Error, ServiceUnavailable, None)
      else CancellationDetails(Error, RuntimeError, Some(StatusCode(code)))
    else if IsHandshakeFailure(e) then
      CancellationDetails(Error, ConnectionFailure, None)
    else if e.TimeoutError? then
      CancellationDetails(Error, ServiceTimeout, None)
    else
      CancellationDetails(Error, RuntimeError, Some(Cause(e)))
  }

  /** A handshake failure without a status is a connection failure, because the subclass
      `InvalidStatus` is tested first; a timeout is a service timeout; every exception of
      another class is a runtime error carrying the exception itself. */
  lemma ClassifyOtherFailures(e: Exc)
    requires !e.KeyboardInterrupt? && !e.InvalidStatus?
    ensures ClassifyCancellation(e).errorCode ==
      if e.InvalidHandshake? then ConnectionFailure
      else if e.TimeoutError? then ServiceTimeout
      else RuntimeError
    ensures ClassifyCancellation(e).exception ==
      if e.InvalidHandshake? || e.TimeoutError? then None else Some(Cause(e))
  {
  }

  /** The four mapped statuses receive four distinct codes, none of them `RuntimeError`. */
  lemma StatusErrorCodesDistinct()
    ensures forall c, c' :: c in StatusErrorCodes && c' in StatusErrorCodes && c != c' ==>
      StatusErrorCodes[c] != StatusErrorCodes[c']
    ensures forall c :: c in StatusErrorCodes ==> StatusErrorCodes[c] !in {NoError, RuntimeError}
  {
  }

  /** `SpeechSynthesisResult`; `audioDuration` stands for the `timedelta` decoded from the
      audio. */
  datatype SynthesisResult = SynthesisResult(
    reason: ResultReason,
    resultId: Option<string>,
    audioDuration: Option<real>,
    audioData: Option<seq<byte>>,
    cancellationDetails: Option<CancellationDetails>)

  /** `SpeechSynthesisResult(ret, exc)`.  `duration` is what decoding `data` yields; with
      neither a return value nor an exception the constructor's `assert` fails. */
  function MakeResult(ret: Option<(string, seq<byte>)>, exc: Option<Exc>, duration: real)
    : (r: Result<SynthesisResult, Exc>)
    ensures r.Failure? <==> exc.None? && ret.None?
    ensures r.Failure? ==> r.error == AssertionError
    ensures exc.Some? ==> r == Success(SynthesisResult(Canceled, None, None, None,
                                                      Some(ClassifyCancellation(exc.value))))
    ensures r.Success? ==> (r.value.reason == Canceled <==> exc.Some?)
    ensures r.Success? ==> (r.value.cancellationDetails.None? <==> r.value.reason == SynthesizingAudioCompleted)
    ensures exc.None? && ret.Some? ==>
      r.Success? && r.value.resultId == Some(ret.value.0) && r.value.audioData == Some(ret.value.1)
      && r.value.audioDuration == Some(duration)
    ensures exc.None? && ret.Some? ==>
      r == Success(SynthesisResult(SynthesizingAudioCompleted, Some(ret.value.0), Some(duration),
                                   Some(ret.value.1), None))
  {
    if exc.Some? then
      Success(SynthesisResult(Canceled, None, None, None, Some(ClassifyCancellation(exc.value))))
    else if ret.None? then
      Failure(AssertionError)
    else
      var (reqId, data) := ret.value;
      Success(SynthesisResult(SynthesizingAudioCompleted, Some(reqId), Some(duration), Some(data), None))
  }

  /** `ResultFuture.get`: the task's value when it finished normally, otherwise its
      exception, passed on to `SpeechSynthesisResult`.  The assertion never fails here, and
      a result is cancelled exactly when the task raised. */
  function ResultOfTask(task: Result<(string, seq<byte>), Exc>, duration: real): (r: SynthesisResult)
    ensures r.reason == Canceled <==> task.Failure?
    ensures task.Failure? ==> r.cancellationDetails == Some(ClassifyCancellation(task.error))
    ensures task.Success? ==> r.resultId == Some(task.value.0) && r.audioData == Some(task.value.1)
    ensures task.Success? ==>
      r.reason == SynthesizingAudioCompleted && r.cancellationDetails.None? && r.audioDuration == Some(duration)
    ensures task.Failure? ==> r.resultId.None? && r.audioData.None? && r.audioDuration.None?
  {
    var result := if task.Success? then MakeResult(Some(task.value), None, duration)
                  else MakeResult(None, Some(task.error), duration);
    result.value
  }
}
