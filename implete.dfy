/** `implete(SSML_text, opt_fmt)`: one synthesis session.  It fetches the token through the
    cache, opens the websocket at a URL built from the token and the request id, sends the
    three frames and collects the audio.  The request id, the clock readings, the fetched
    page and the messages the server sends are inputs. */
module Implete {
  import opened Wrappers
  import opened Seqs
  import opened Exceptions
  import opened Token
  import Timestamp
  import Frames
  import opened Receive

  const EndpointHead: string :=
    "wss://eastus.tts.speech.microsoft.com/cognitiveservices/websocket/v1?Authorization="
  const ConnectionIdField: string := "&X-ConnectionId="
  const NoneConcatMessage: string := "can only concatenate str (not \"NoneType\") to str"

  /** The websocket URL; `None` as the token is the `TypeError` of `str + None`. */
  function Endpoint(authToken: Option<string>, requestId: string): (r: Result<string, Exc>)
    ensures r.Success? <==> authToken.Some?
    ensures r.Success? ==> r.value == EndpointHead + authToken.value + ConnectionIdField + requestId
    ensures r.Failure? ==> r.error.TypeError?
  {
    match authToken
    case None => Failure(TypeError(NoneConcatMessage))
    case Some(t) => Success(EndpointHead + t + ConnectionIdField + requestId)
  }

  /** Reads a URL back into the token, up to the first `&`, and the request id after
      `&X-ConnectionId=`. */
  function ParseEndpoint(url: string): Option<(string, string)> {
    var rest :- StripPrefix(url, EndpointHead);
    var amp :- FirstOccurrence(rest, "&");
    var requestId :- StripPrefix(rest[amp..], ConnectionIdField);
    Some((rest[..amp], requestId))
  }

  /** A token without `&` can be read back from the URL, together with the request id. */
  lemma EndpointReadsBack(t: string, requestId: string)
    requires '&' !in t
    ensures Endpoint(Some(t), requestId).Success?
    ensures ParseEndpoint(Endpoint(Some(t), requestId).value) == Some((t, requestId))
  {
    var tail := "X-ConnectionId=" + requestId;
    var rest := t + "&" + tail;
    assert ConnectionIdField + requestId == "&" + tail;
    assert Endpoint(Some(t), requestId).value == EndpointHead + rest;
    StripPrefixOf(EndpointHead, rest);
    forall j | 0 <= j < |t|
      ensures !OccursAt(rest, "&", j)
    {
      assert rest[j] == t[j];
      assert rest[j..j + 1] == [t[j]];
    }
    FirstOccurrenceAfterPrefix(t, "&", tail);
    assert rest[|t|..] == ConnectionIdField + requestId;
    StripPrefixOf(ConnectionIdField, requestId);
    assert rest[..|t|] == t;
  }

  /** The session.  `now` and `fetchTime` are the clock readings of `get_token` and `page` the
      page it fetches; `t1`, `t2` and `t3` are the readings taken for the three frames.  It
      returns the outcome, the URL opened, the messages sent and how many were received. */
  method Implete(cache: TokenCache, ssml: string, outputFormat: string, requestId: string,
                 now: real, fetchTime: real, page: Option<string>,
                 t1: Timestamp.DateTime, t2: Timestamp.DateTime, t3: Timestamp.DateTime,
                 incoming: seq<Message>)
    returns (r: Result<(string, seq<byte>), Exc>, url: Option<string>, sent: seq<string>, received: nat)
    modifies cache
    ensures var (s', tokenResult) := TokenStep(old(cache.State()), false, now, fetchTime, page);
      && cache.State() == s'
      && (tokenResult.Failure? ==>
            r == Failure(tokenResult.error) && url == None && sent == [] && received == 0)
      && (tokenResult.Success? ==> Endpoint(tokenResult.value, requestId).Failure? ==>
            r == Failure(Endpoint(tokenResult.value, requestId).error) && url == None && sent == []
            && received == 0)
      && (tokenResult.Success? ==> Endpoint(tokenResult.value, requestId).Success? ==>
            && url == Some(Endpoint(tokenResult.value, requestId).value)
            && sent == Frames.OutboundMessages(requestId, t1, t2, t3, outputFormat, ssml)
            && received == ReceiveOutcome(incoming).1
            && r == match ReceiveOutcome(incoming).0
                    case Success(audio) => Success((requestId, audio))
                    case Failure(e) => Failure(e))
  {
    var authToken := cache.GetToken(false, now, fetchTime, page);
    if authToken.Failure? {
      return Failure(authToken.error), None, [], 0;
    }
    var endpoint := Endpoint(authToken.value, requestId);
    if endpoint.Failure? {
      return Failure(endpoint.error), None, [], 0;
    }
    url := Some(endpoint.value);
    sent := Frames.OutboundMessages(requestId, t1, t2, t3, outputFormat, ssml);
    var audio;
    audio, received := ReceiveAudio(incoming);
    if audio.Failure? {
      return Failure(audio.error), url, sent, received;
    }
    r := Success((requestId, audio.value));
  }
}
