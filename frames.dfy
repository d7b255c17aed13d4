/** The three text frames `implete` sends (mytts/tts.py): a path line, the X-RequestId,
    X-Timestamp and Content-Type headers, a blank line, then the body. */
module Frames {
  import opened Wrappers
  import opened Seqs
  import Timestamp

  const CRLF: string := "\r\n"

  /** One outbound frame. The path line is kept whole because its spelling differs between
      frames (`Path : ` on the first two, `Path: ` on the third). */
  datatype Frame = Frame(pathLine: string, requestId: string, timestamp: string, contentType: string, body: string)

  /** Each line followed by CRLF, concatenated. */
  function Lines(ls: seq<string>): string {
    if ls == [] then [] else ls[0] + CRLF + Lines(ls[1..])
  }

  /** The header block of a frame; the empty last line is the blank line before the body. */
  function HeaderLines(f: Frame): seq<string> {
    [f.pathLine, "X-RequestId: " + f.requestId, "X-Timestamp: " + f.timestamp,
     "Content-Type: " + f.contentType, ""]
  }

  /** The frame's text as sent on the websocket. */
  function Serialize(f: Frame): string {
    Lines(HeaderLines(f)) + f.body
  }

  /** The first line of s (up to the first CRLF) and what follows that CRLF. */
  function SplitLine(s: string): (r: Option<(string, string)>)
    ensures r.Some? ==> |r.value.1| < |s|
  {
    var k :- FirstOccurrence(s, CRLF);
    Some((s[..k], s[k + 2..]))
  }

  /** The first n lines of s and the text after them. */
  function SplitLines(s: string, n: nat): (r: Option<(seq<string>, string)>)
    ensures r.Some? ==> |r.value.0| == n
  {
    if n == 0 then Some(([], s))
    else
      var first :- SplitLine(s);
      var more :- SplitLines(first.1, n - 1);
      Some(([first.0] + more.0, more.1))
  }

  /** Reads a frame back: five lines (the last one blank) with the expected header names, then the body. */
  function ParseFrame(s: string): Option<Frame> {
    var split :- SplitLines(s, 5);
    var ls := split.0;
    var requestId :- StripPrefix(ls[1], "X-RequestId: ");
    var timestamp :- StripPrefix(ls[2], "X-Timestamp: ");
    var contentType :- StripPrefix(ls[3], "Content-Type: ");
    if ls[4] == [] then Some(Frame(ls[0], requestId, timestamp, contentType, split.1)) else None
  }

  predicate NoCR(s: string) {
    '\r' !in s
  }

  /** Header values that cannot end their line early. */
  predicate HeadersOneLine(f: Frame) {
    NoCR(f.pathLine) && NoCR(f.requestId) && NoCR(f.timestamp) && NoCR(f.contentType)
  }

  lemma SplitLineOf(a: string, rest: string)
    requires NoCR(a)
    ensures SplitLine(a + CRLF + rest) == Some((a, rest))
  {
    var s := a + CRLF + rest;
    forall j | 0 <= j < |a| ensures !OccursAt(s, CRLF, j) {
      assert s[j] == a[j];
    }
    FirstOccurrenceAfterPrefix(a, CRLF, rest);
    assert s[..|a|] == a && s[|a| + 2..] == rest;
  }

  lemma {:induction false} SplitLinesOf(ls: seq<string>, body: string)
    requires forall i :: 0 <= i < |ls| ==> NoCR(ls[i])
    ensures SplitLines(Lines(ls) + body, |ls|) == Some((ls, body))
  {
    if ls == [] {
      assert Lines(ls) + body == body;
    } else {
      var rest := Lines(ls[1..]) + body;
      assert Lines(ls) + body == ls[0] + CRLF + rest;
      SplitLineOf(ls[0], rest);
      SplitLinesOf(ls[1..], body);
      assert [ls[0]] + ls[1..] == ls;
    }
  }

  lemma HeaderLinesOneLine(f: Frame)
    requires HeadersOneLine(f)
    ensures forall i :: 0 <= i < |HeaderLines(f)| ==> NoCR(HeaderLines(f)[i])
  {
    var ls := HeaderLines(f);
    assert NoCR(ls[1]) && NoCR(ls[2]) && NoCR(ls[3]) && NoCR(ls[4]);
  }

  /** Reading a serialized frame gives the frame back, whatever its body holds. */
  lemma ParseSerialize(f: Frame)
    requires HeadersOneLine(f)
    ensures ParseFrame(Serialize(f)) == Some(f)
  {
    var ls := HeaderLines(f);
    HeaderLinesOneLine(f);
    SplitLinesOf(ls, f.body);
    StripPrefixOf("X-RequestId: ", f.requestId);
    StripPrefixOf("X-Timestamp: ", f.timestamp);
    StripPrefixOf("Content-Type: ", f.contentType);
  }

  /** `uuid.uuid4().hex.upper()`: 32 upper-case hexadecimal digits. */
  predicate IsRequestId(s: string) {
    |s| == 32 && forall i :: 0 <= i < |s| ==> s[i] in "0123456789ABCDEF"
  }

  /** The body of the `speech.config` frame: a fixed JSON description of the client. */
  const SpeechConfigPayload: string :=
    "{\"context\":{\"system\":{\"name\":\"SpeechSDK\",\"version\":\"1.12.1-rc.1\",\"build\":\"JavaScript\","
    + "\"lang\":\"JavaScript\",\"os\":{\"platform\":\"Browser/Linux x86_64\","
    + "\"name\":\"Mozilla/5.0 (X11; Linux x86_64; rv:78.0) Gecko/20100101 Firefox/78.0\","
    + "\"version\":\"5.0 (X11)\"}}}}"

  /** The JSON of the `synthesis.context` frame around the output format, which `%s` inserts verbatim. */
  const ContextPayloadHead: string :=
    "{\"synthesis\":{\"audio\":{\"metadataOptions\":{\"sentenceBoundaryEnabled\":false,"
    + "\"wordBoundaryEnabled\":false},\"outputFormat\":\""
  const ContextPayloadTail: string := "\"}}}"

  function SpeechConfigFrame(requestId: string, timestamp: string): Frame {
    Frame("Path : speech.config", requestId, timestamp, "application/json", SpeechConfigPayload)
  }

  function SynthesisContextFrame(requestId: string, timestamp: string, outputFormat: string): Frame {
    Frame("Path : synthesis.context", requestId, timestamp, "application/json",
          ContextPayloadHead + outputFormat + ContextPayloadTail)
  }

  function SsmlFrame(requestId: string, timestamp: string, ssml: string): Frame {
    Frame("Path: ssml", requestId, timestamp, "application/ssml+xml", ssml)
  }

  /** The three messages `implete` sends, in order; each takes its own clock reading. */
  function OutboundMessages(requestId: string, t1: Timestamp.DateTime, t2: Timestamp.DateTime,
                            t3: Timestamp.DateTime, outputFormat: string, ssml: string): seq<string>
  {
    [Serialize(SpeechConfigFrame(requestId, Timestamp.XTime(t1))),
     Serialize(SynthesisContextFrame(requestId, Timestamp.XTime(t2), outputFormat)),
     Serialize(SsmlFrame(requestId, Timestamp.XTime(t3), ssml))]
  }

  lemma RequestIdOneLine(requestId: string)
    requires IsRequestId(requestId)
    ensures NoCR(requestId)
  {
    forall i | 0 <= i < |requestId|
      ensures requestId[i] != '\r'
    {
      assert requestId[i] in "0123456789ABCDEF";
    }
  }

  lemma SpeechConfigFrameRead(requestId: string, timestamp: string)
    requires NoCR(requestId) && NoCR(timestamp)
    ensures ParseFrame(Serialize(SpeechConfigFrame(requestId, timestamp)))
         == Some(Frame("Path : speech.config", requestId, timestamp, "application/json", SpeechConfigPayload))
  {
    ParseSerialize(SpeechConfigFrame(requestId, timestamp));
  }

  lemma SynthesisContextFrameRead(requestId: string, timestamp: string, outputFormat: string)
    requires NoCR(requestId) && NoCR(timestamp)
    ensures ParseFrame(Serialize(SynthesisContextFrame(requestId, timestamp, outputFormat)))
         == Some(Frame("Path : synthesis.context", requestId, timestamp, "application/json",
                       ContextPayloadHead + outputFormat + ContextPayloadTail))
  {
    ParseSerialize(SynthesisContextFrame(requestId, timestamp, outputFormat));
  }

  lemma SsmlFrameRead(requestId: string, timestamp: string, ssml: string)
    requires NoCR(requestId) && NoCR(timestamp)
    ensures ParseFrame(Serialize(SsmlFrame(requestId, timestamp, ssml)))
         == Some(Frame("Path: ssml", requestId, timestamp, "application/ssml+xml", ssml))
  {
    ParseSerialize(SsmlFrame(requestId, timestamp, ssml));
  }

  /** Read back, the three messages carry the same request id and their own timestamps; the first
      two are JSON frames with the `Path : ` spelling, the second embedding the output format
      verbatim; the third has the `Path: ` spelling and carries the SSML unchanged. */
  lemma OutboundMessagesRead(requestId: string, t1: Timestamp.DateTime, t2: Timestamp.DateTime,
                             t3: Timestamp.DateTime, outputFormat: string, ssml: string)
    requires IsRequestId(requestId)
    ensures var ms := OutboundMessages(requestId, t1, t2, t3, outputFormat, ssml);
      && |ms| == 3
      && ParseFrame(ms[0]) == Some(Frame("Path : speech.config", requestId, Timestamp.XTime(t1),
                                         "application/json", SpeechConfigPayload))
      && ParseFrame(ms[1]) == Some(Frame("Path : synthesis.context", requestId, Timestamp.XTime(t2),
                                         "application/json", ContextPayloadHead + outputFormat + ContextPayloadTail))
      && ParseFrame(ms[2]) == Some(Frame("Path: ssml", requestId, Timestamp.XTime(t3),
                                         "application/ssml+xml", ssml))
  {
    RequestIdOneLine(requestId);
    Timestamp.XTimeNoCR(t1);
    Timestamp.XTimeNoCR(t2);
    Timestamp.XTimeNoCR(t3);
    SpeechConfigFrameRead(requestId, Timestamp.XTime(t1));
    SynthesisContextFrameRead(requestId, Timestamp.XTime(t2), outputFormat);
    SsmlFrameRead(requestId, Timestamp.XTime(t3), ssml);
  }
}
