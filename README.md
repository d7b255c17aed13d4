# tts_rebuild in Dafny

A model of the core of `tts_rebuild`, a Python client for a cloud text-to-speech service
that imitates the Azure Speech SDK. The model covers:

- the wire-protocol helpers of `mytts/tts.py`:
  - the authorisation-token cache of `get_token`;
  - the `X-Timestamp` formatter `_getXTime`;
  - the three text frames that `implete` sends;
  - the loop that collects the audio from the server's messages;
  - `implete` as a whole;
- the outcome and configuration layer of `mytts/speech.py`:
  - the cancellation classifier;
  - the result tagging;
  - `SpeechConfig` with its validating setters;
  - `_build_ssml`;
  - the argument rules of `AudioOutputConfig`;
- the output-format table and the enumerations of `tts/enums.py`.

Several things are inputs to the model:

- the network: the fetched page and the sequence of messages the server sends;
- the clock: `time()` readings as reals, `datetime.now()` as a record of fields;
- the request id.

Every operation is a function or a method over those inputs.

Modules, one per file:

| module | file | models |
|---|---|---|
| `Wrappers` | wrappers.dfy | `Option` and `Result` |
| `Seqs` | seqs.dfy | generic sequence searches (`bytes.find`, first match), prefix and suffix removal, and an in-order concatenation |
| `Decimal` | decimal.dfy | `str(n)` and `"%02d" % n` for non-negative integers |
| `Exceptions` | exceptions.dfy | the exception classes involved, and the Python values that `isinstance` inspects |
| `Enums` | enums.dfy | `_SpeechSynthesisOutputFormat`, `SpeechSynthesisOutputFormat`, `ResultReason`, `CancellationReason` and `CancellationErrorCode` |
| `Token` | token.dfy | `get_token`: a `TokenCache` class whose fields are the module globals `token` and `_token_time` |
| `Timestamp` | timestamp.dfy | `_getXTime`, and a reader that splits a timestamp into its fields |
| `Frames` | frames.dfy | the three frames of `implete`, and a reader that parses a frame back |
| `Receive` | receive.dfy | the receive loop: Python's `str()` of a bytes value, the `Path:turn.end` search, and the audio extraction |
| `Implete` | implete.dfy | `implete`: the token, the URL, the frames and the loop, in order |
| `Outcome` | outcome.dfy | `SpeechSynthesisCancellationDetails`, `SpeechSynthesisResult`, and the final wrap in `ResultFuture.get` |
| `Config` | config.dfy | `SpeechConfig`: a class whose setters update its fields in place |
| `Ssml` | ssml.dfy | `_build_ssml`, with the `&`, `<`, `>` escaping of `xml.sax.saxutils.escape`, and a reader that parses the document back |
| `AudioOutput` | audio.dfy | the argument validation of `AudioOutputConfig.__init__` |

Behaviour kept as the code has it:

- `get_token` reuses the cached token while `_token_time - now < EXPIRE_TIME`. This comparison is written backwards, so once a time is recorded, every non-forced call reuses the token as long as the clock does not run backwards.
- `_token_time` is overwritten before the page is fetched. A failed fetch, or a page without a token, therefore leaves a fresh time beside the old token. That token is `None` when nothing was fetched before, and `implete` then fails with a `TypeError` when it builds the URL.
- The timestamp's hour is moved back by one, modulo 24.
- The millisecond field is the first three characters of the unpadded microsecond numeral.
- The frames spell their path lines differently: `Path : ` on the first two and `Path: ` on the third.
- The loop tests each message through `str(response)`:
  - for a bytes value this is Python's `b'...'` representation, with its quote choice and its escapes;
  - the pattern `Path:turn.end` is a regular expression, whose `.` stands for any character except a line break.
- When a binary message lacks the marker `Path:audio\r\n`, `find` returns -1. The slice then starts at index 11, and those bytes are still appended.
- `isinstance(True, int)` holds, so the `method` setter accepts `True` and rejects `False` with `ValueError`. Python stores the bool `True` itself, which compares equal to 1; the model stores the integer 1.
- `InvalidStatus` is tested before its superclass `InvalidHandshake`.
- `_build_ssml` escapes the text but not the voice name, so a voice name holding a double quote ends the `name` attribute early; the document then does not read back, and the round-trip lemmas require a voice name without `"`.

## Model

| member | source | states |
|---|---|---|
| Decimal.NatToString | mytts/tts.py:39 | `str(n)`: a non-empty digit string with the digit count of n and no leading zero unless n is 0 |
| Decimal.NatToStringValue | mytts/tts.py:39 | reading `str(n)` back as a decimal numeral gives n |
| Decimal.NatToStringDropLast | mytts/tts.py:44 | for n ≥ 10, dropping the last digit of `str(n)` gives `str(n // 10)` |
| Decimal.NumDigitsFour | mytts/tts.py:43 | a year in 1000..9999 has four digits |
| Decimal.Pad2 | mytts/tts.py:39 | `"%02d" % n` is a digit string denoting n, two characters long below 10 and `str(n)` from 10 on |
| Decimal.Pad2TwoDigits | mytts/tts.py:39 | below 100, `"%02d"` gives exactly two digits |
| Timestamp.ShiftedHour | mytts/tts.py:37 | `(hr - 1) % 24` lies in 0..23 and is one hour before the real hour |
| Timestamp.MillisField | mytts/tts.py:44 | the millisecond field is one to three digits |
| Timestamp.MillisFieldLeadingDigits | mytts/tts.py:44 | the millisecond field is `str` of the three leading digits of the microseconds, with no zero padding (42 gives `42`, 5000 gives `500`) |
| Timestamp.XTimeParts | mytts/tts.py:42-45 | the seven parts of the timestamp are non-empty digit strings |
| Timestamp.ParseXTimeOfXTime | mytts/tts.py:46 | the timestamp has the shape `Y-M-DTh:m:s.fZ`, and splitting it gives back each padded field |
| Timestamp.XTimeTwoDigitFields | mytts/tts.py:39-45 | for a valid instant, month, day, hour, minute and second are two digits, and month, day, minute and second denote the instant's own fields |
| Timestamp.XTimeHourField | mytts/tts.py:37-43 | the hour field denotes the hour minus one modulo 24; hour 0 gives `23` |
| Timestamp.HourZeroField | mytts/tts.py:37 | hour 0 is written `23` |
| Timestamp.XTimeYearAndFraction | mytts/tts.py:42-44 | a four-digit year passes through unchanged; the fraction is the leading three microsecond digits |
| Timestamp.XTimeNoCR | mytts/tts.py:46 | a timestamp never contains a carriage return, so it cannot break a header line |
| Token.ExtractTokenSound | mytts/tts.py:30-31 | a token found contains no quote, and `token: "` + token + `"` occurs in the page |
| Token.ExtractTokenOf | mytts/tts.py:30-31 | a page holding `token: "T"`, with no earlier `token: "` and no quote in T, yields T: the lazy group stops at the first quote |
| Token.ExtractTokenMissing | mytts/tts.py:31 | a page without `token: "` yields no token: `findall` returns an empty list and `[0]` raises |
| Token.TokenCache.constructor | mytts/tts.py:13-14 | the globals start as `None` |
| Token.TokenCache.GetToken | mytts/tts.py:17-32 | one call updates the globals and returns or raises exactly as the cache rule says |
| Token.ReuseKeepsState | mytts/tts.py:20-24 | with a recorded time, no forced refresh and `_token_time - now < 3550`, the cached token is returned and neither global changes |
| Token.RefreshRecordsTime | mytts/tts.py:25-32 | every call that does not reuse the token (a forced refresh, no recorded time, or `_token_time - now >= 3550`) stores the second clock reading before the fetch. A failed request raises and a page without a match raises `IndexError`, both after the time is stored and with the token unchanged; otherwise the first capture becomes the token |
| Token.CachedWhileFresh | mytts/tts.py:20-24 | across any sequence of non-forced calls for which the reuse comparison holds, every call returns the cached token and the globals never change |
| Token.NeverExpires | mytts/tts.py:22 | if the clock never reads earlier than the recorded time, no non-forced call ever refetches |
| Frames.ParseSerialize | mytts/tts.py:61-74 | a frame reads back as its path line, `X-RequestId`, `X-Timestamp`, `Content-Type`, blank line and body, whatever the body holds |
| Frames.RequestIdOneLine | mytts/tts.py:50 | a request id of 32 upper-case hexadecimal digits holds no carriage return |
| Frames.SpeechConfigFrameRead | mytts/tts.py:60-63 | the first message is `Path : speech.config`, `application/json`, carrying the fixed client description |
| Frames.SynthesisContextFrameRead | mytts/tts.py:65-68 | the second message is `Path : synthesis.context`, `application/json`, with the output format embedded verbatim in its JSON |
| Frames.SsmlFrameRead | mytts/tts.py:71-74 | the third message is `Path: ssml`, `application/ssml+xml`, with the SSML unchanged as its body |
| Frames.OutboundMessagesRead | mytts/tts.py:60-74 | the three messages, in order, all carry the same request id, and each carries its own timestamp |
| Receive.ReprBodyQuotesEscaped | mytts/tts.py:83 | inside `str(bytes)`, the delimiting quote chosen by `repr` (`"` exactly when the data holds `'` and no `"`) occurs in the escaped body only right after a backslash |
| Receive.ReprByte | mytts/tts.py:83 | inside that representation, a byte takes one to four characters, and printable ASCII other than the backslash and the quote stands for itself |
| Receive.ReprPlainAscii | mytts/tts.py:83 | the representation of plain ASCII bytes spells out their text |
| Receive.BinaryStrFormSpells | mytts/tts.py:83 | the string form of a binary message contains, verbatim, any plain ASCII text its bytes hold |
| Receive.BinaryTurnEnd | mytts/tts.py:77-83 | a binary message whose bytes hold `Path:turn.end` ends the loop |
| Receive.TextTurnEnd | mytts/tts.py:77-83 | a text message holding `Path:turn.end` ends the loop |
| Receive.TurnEndInside | mytts/tts.py:77-83 | the pattern is found wherever it occurs in a text |
| Receive.TurnEndDot | mytts/tts.py:77 | the `.` of the pattern matches any character except a line break |
| Receive.ReceiveAudio | mytts/tts.py:77-95 | the loop reads up to and including the first message matching the pattern, and returns the audio gathered before it; with no such message it fails with `ConnectionClosed` after reading everything |
| Receive.ReceiveOutcomeAt | mytts/tts.py:79-94 | when the k-th message is the first to match, k + 1 messages are read and the buffer is the audio of the k messages before it |
| Receive.NothingReadAfterTurnEnd | mytts/tts.py:93-94 | messages after the first matching one change neither the outcome nor the count |
| Receive.ChunkStep | mytts/tts.py:85-90 | each non-matching message extends the buffer by its payload if it is binary, and by nothing if it is text |
| Receive.AudioOfAppend | mytts/tts.py:90 | the buffer is the receipt-order concatenation of the per-message chunks |
| Receive.TextAddsNothing | mytts/tts.py:83-85 | a text message that does not end the loop adds nothing |
| Receive.AudioPayloadAfterMarker | mytts/tts.py:88-90 | a binary message contributes exactly the bytes after its first `Path:audio\r\n` |
| Receive.AudioPayloadWithoutMarker | mytts/tts.py:89-90 | without the marker, `find` gives -1, so the bytes from index 11 on are appended |
| Implete.Endpoint | mytts/tts.py:55-56 | the URL exists exactly when there is a token; concatenating a `None` token raises `TypeError` |
| Implete.EndpointReadsBack | mytts/tts.py:55-56 | the URL is the endpoint followed by the token and `&X-ConnectionId=` with the request id; a token without `&` reads back as the text between `Authorization=` and the first `&`, and the request id as the text after `&X-ConnectionId=` |
| Implete.Implete | mytts/tts.py:49-95 | `implete` updates the token cache as `get_token` does. A token failure or a `None` token ends the session before anything is sent. Otherwise it opens the URL, sends the three frames, and returns the request id it put in every frame together with the loop's audio, or the loop's failure |
| Outcome.ClassifyCancellation | mytts/speech.py:122-150 | `KeyboardInterrupt` is the only exception giving `CancelledByUser` or `NoError`; all others give `Error`. Statuses 429/403/500/503 map to their codes, and any other status to `RuntimeError` carrying the status. `exception` is set exactly for `RuntimeError` |
| Outcome.ClassifyOtherFailures | mytts/speech.py:140-149 | a handshake failure without a status is a connection failure, a timeout is a service timeout, and anything else is a runtime error carrying the exception |
| Outcome.StatusErrorCodesDistinct | mytts/speech.py:127-136 | the four mapped statuses get four distinct codes, none of them `NoError` or `RuntimeError` |
| Outcome.MakeResult | mytts/speech.py:200-218 | with an exception: `Canceled`, every field empty, details present. Otherwise: `SynthesizingAudioCompleted` with the request id, the duration and the data, and no cancellation details. With neither an exception nor a value, the assertion fails |
| Outcome.ResultOfTask | mytts/speech.py:101-111 | a task's result is cancelled exactly when the task raised, and then carries that exception's classification; a finished task gives `SynthesizingAudioCompleted` with its request id, its audio and the duration, and no cancellation details; a failed one has no id, audio or duration |
| Config.MethodFromArg | mytts/speech.py:353-364 | the `method` setter accepts exactly integers (booleans included) in 1..4. A non-integer raises `TypeError`, and an integer outside the range raises `ValueError` |
| Config.FormatFromArg | mytts/speech.py:331-339 | a format member yields the table entry of its value; anything else raises `TypeError` |
| Config.SpeechConfig.constructor | mytts/speech.py:284-288 | the defaults: empty language, voice `zh-CN-XiaoxiaoNeural`, format `audio-24khz-48kbitrate-mono-mp3`, method 1 |
| Config.SpeechConfig.SetLanguage | mytts/speech.py:299-307 | stores the language and nothing else |
| Config.SpeechConfig.SetVoiceName | mytts/speech.py:315-322 | stores the voice and nothing else |
| Config.SpeechConfig.SetMethod | mytts/speech.py:353-364 | stores an accepted method. A rejected one raises and leaves the method unchanged. The method stays in 1..4 and the format stays a table entry |
| Config.SpeechConfig.SetOutputFormat | mytts/speech.py:331-339 | stores `table[format.value]`. A non-member raises `TypeError` and leaves the format unchanged |
| Config.DefaultFormatEntries | mytts/speech.py:287 | the default format is table entry 7. Entry 26, `webm-24khz-16bit-mono-opus`, is the third method's format |
| Config.SetFormatNamesMember | mytts/speech.py:339 | setting a member stores the member's own format string, and looking up its value gives the member back |
| Ssml.Escape | mytts/speech.py:460 | escaping leaves no `<` or `>` and never shortens the text |
| Ssml.UnescapeEscape | mytts/speech.py:460 | escaping loses nothing: undoing the three entities gives the text back |
| Ssml.EscapePlain | mytts/speech.py:460 | text without `&`, `<` and `>` is left as it is |
| Ssml.ParseVoiceOpenOf | mytts/speech.py:458 | for a voice name without a double quote, the voice element is `<voice name="V">` for a configured voice and `<voice>` otherwise, and reads back as such |
| Ssml.ParseBuildSsml | mytts/speech.py:451-462 | the document is the fixed `<speak ...> ` prefix, the voice element, the escaped text and `</voice></speak>`, and, for a voice name without a double quote, it reads back into the voice and the original text |
| AudioOutput.AudioOutputConfigOf | mytts/speech.py:382-417 | a non-bool `use_default_speaker` raises `ValueError`; otherwise a stream raises `NotImplementedError`. With no target: the default speaker when `use_default_speaker` is true, otherwise `ValueError`. `filename` alone selects the file sink, whatever the flag. Two targets raise `ValueError`. A device name alone raises `NotImplementedError` |
| AudioOutput.FileNameWins | mytts/speech.py:401-406 | a file name given alone selects the file sink |
| AudioOutput.TwoTargetsRefused | mytts/speech.py:397-399 | a file name and a device name together raise `ValueError` |
| Enums.FormatTableDomain | tts/enums.py:3-42 | the table's keys are exactly 1..38 |
| Enums.FormatTableInjective | tts/enums.py:3-42 | the 38 format strings are pairwise distinct |
| Enums.OutputFormat.Value | tts/enums.py:45-248 | every member's value lies in 1..38 |
| Enums.FormatMemberInTable | tts/enums.py:45-248 | every member's value is a table key, and the member names that key's string |
| Enums.FormatCodeMember | tts/enums.py:3-42 | every table key is the value of a member naming that key's string |
| Enums.OutputFormatOfValue | tts/enums.py:45-248 | looking a member up by its own value gives it back |
| Enums.OutputFormatOfFinds | tts/enums.py:45-248 | a member found by value has that value |
| Enums.OutputFormatOfDomain | tts/enums.py:45-248 | lookup by value succeeds exactly on the table's keys |
| Enums.OutputFormatValueInjective | tts/enums.py:45-248 | distinct members have distinct values |
| Enums.ResultReasonValueInjective | tts/enums.py:252-272 | the `ResultReason` values are pairwise distinct |
| Enums.CancellationReasonValues | tts/enums.py:277-290 | `CancellationReason` has exactly the values 1 (`Error`) and 3 (`CancelledByUser`) |
| Enums.ErrorCodeOf | tts/enums.py:295-339 | lookup of a `CancellationErrorCode` by value finds a member with that value |
| Enums.ErrorCodeOfValue | tts/enums.py:295-339 | looking an error code up by its value gives it back (`NoError` is 0 and `RuntimeError` is 9) |
| Enums.ErrorCodeValueInjective | tts/enums.py:295-339 | the error-code values are pairwise distinct |

## Left out

- Network I/O:
  - `requests.get` becomes the fetched page, with `None` for a failed request;
  - the websocket connect, send and receive become the sequence of messages the server sends;
  - a connection that the server closes before `Path:turn.end` is the end of that sequence, raising `ConnectionClosed`.
- Implete.Implete: failures of the websocket handshake itself (`InvalidStatus`, `InvalidHandshake`, timeouts) are not produced here. They enter the model only as inputs to `ClassifyCancellation`.
- `uuid.uuid4()`, `time()` and `datetime.now()` are parameters. The request-id format is a precondition only where a header must stay on one line.
- `ResultFuture`, `_waiter`, the event-loop flags and the thread and task callbacks are concurrency and event-loop lifecycle. Only the final wrap of `ResultFuture.get` is modelled (Outcome.ResultOfTask).
- Outcome.MakeResult: the duration is an opaque input. pydub's decoding of it, and a decoding failure that would raise inside the constructor, are foreign audio calls.
- Playback on the speaker, and the file writing of the chosen sink, are I/O. Only the sink choice is modelled.
- Config.SpeechConfig.SetMethod: for the argument `True` the model stores the integer 1, where Python stores the bool `True`; the two compare equal, but reading `method` back gives `True` in Python.
- Outcome.ClassifyCancellation: `exception` is `None` where the constructor leaves `_exc` unset. Reading that property in Python raises `AttributeError` instead.
- AudioOutput.AudioOutputConfigOf: the `ValueError` for a non-bool `use_default_speaker` does not include the formatted argument in its message. The `elif stream` branch and the final `else` cannot be reached, since a stream raised earlier, so they are absent.
- Enums.OutputFormat.Label: the first docstring line of each member is taken to be the table entry of its value. The two agree in tts/enums.py, and the docstrings are not kept as a second copy of the 38 strings.
- Receive.ReceiveAudio: the `try`/`except` around the audio extraction is absent. Slicing bytes cannot raise, so the handler never runs. Its printed message is output only.
- The stubs that only raise `NotImplementedError` (`stop_speaking_async`, `get_voices_async`, `properties`, `error_details`), the commented-out event signals, and the rich/debug printing are not modelled.
- mytts/speech.py:488-493 calls `implete` with four arguments, but it takes two. That call is not part of this model, which takes `implete` as defined at mytts/tts.py:49.
- The root `speech.py` (a ctypes wrapper over an SDK library) is not part of this model, and neither are the scripts `test.py` and `test_tts.py`.
- `xml.sax.saxutils.escape` is modelled only by its default replacement of `&`, `<` and `>`.
