/** The receive loop of `implete`: messages are read one at a time until one whose string
    form matches the regular expression `Path:turn.end`; before that, every binary message
    contributes the bytes that follow its first `Path:audio\r\n` marker. */
module Receive {
  import opened Wrappers
  import opened Seqs
  import opened Exceptions

  newtype byte = x: int | 0 <= x < 256

  /** A websocket message: text (`str`) or binary (`bytes`). */
  datatype Message = Text(text: string) | Binary(data: seq<byte>)

  // ----- str(response) -----

  function HexDigit(n: int): char
    requires 0 <= n < 16
  {
    "0123456789abcdef"[n]
  }

  /** The quote Python's `repr` puts around a bytes value: a double quote only when the
      data holds a single quote and no double quote. */
  function ReprQuote(data: seq<byte>): (q: char)
    ensures q == '"' <==> (39 as byte in data && 34 as byte !in data)
  {
    if 39 as byte in data && 34 as byte !in data then '"' else '\''
  }

  /** The text that stands for one byte inside `repr`, with quote `q`. */
  function ReprByte(b: byte, q: char): (s: string)
    ensures 1 <= |s| <= 4
    ensures 32 <= b < 127 && b as int != 92 && b as int != q as int ==> s == [b as int as char]
  {
    if b as int == 92 then "\\\\"
    else if b as int == q as int then ['\\', q]
    else if b == 9 then "\\t"
    else if b == 10 then "\\n"
    else if b == 13 then "\\r"
    else if b < 32 || b >= 127 then ['\\', 'x', HexDigit(b as int / 16), HexDigit(b as int % 16)]
    else [b as int as char]
  }

  /** `ReprByte` with the quote fixed, as a function of the byte. */
  function ByteRepr(q: char): byte -> string {
    b => ReprByte(b, q)
  }

  /** The bytes of a `repr`, between its quotes. */
  function ReprBody(data: seq<byte>, q: char): string {
    ConcatMap(data, ByteRepr(q))
  }

  /** `str(response)`: a text message is itself, a binary one is its `b'...'` representation. */
  function StrForm(m: Message): string {
    match m
    case Text(t) => t
    case Binary(d) => var q := ReprQuote(d); ['b', q] + ReprBody(d, q) + [q]
  }

  // ----- re.search('Path:turn.end', ...) -----

  /** The pattern matches at index `i`: `Path:turn`, any character but a newline, `end`. */
  predicate TurnEndAt(s: string, i: int) {
    0 <= i && i + 13 <= |s|
    && s[i] == 'P' && s[i + 1] == 'a' && s[i + 2] == 't' && s[i + 3] == 'h' && s[i + 4] == ':'
    && s[i + 5] == 't' && s[i + 6] == 'u' && s[i + 7] == 'r' && s[i + 8] == 'n'
    && s[i + 9] != '\n'
    && s[i + 10] == 'e' && s[i + 11] == 'n' && s[i + 12] == 'd'
  }

  predicate ContainsTurnEnd(s: string) {
    exists i | 0 <= i <= |s| - 13 :: TurnEndAt(s, i)
  }

  /** The message that ends the loop. */
  predicate IsTurnEnd(m: Message) {
    ContainsTurnEnd(StrForm(m))
  }

  /** The index of the first message that ends the loop, if any. */
  function FirstTurnEnd(ms: seq<Message>): Option<nat> {
    FirstIndex(ms, IsTurnEnd)
  }

  // ----- audio extraction -----

  /** The bytes `Path:audio\r\n`. */
  const AudioMarker: seq<byte> := [80, 97, 116, 104, 58, 97, 117, 100, 105, 111, 13, 10]

  /** `response[response.find(needle) + len(needle):]`, with Python's clamped slicing. */
  function AudioPayload(data: seq<byte>): seq<byte> {
    var start := Find(data, AudioMarker) + |AudioMarker|;
    if start <= |data| then data[start..] else []
  }

  /** What one message adds to the audio buffer when it does not end the loop. */
  function Chunk(m: Message): seq<byte> {
    match m
    case Text(_) => []
    case Binary(d) => AudioPayload(d)
  }

  /** The buffer after the messages `ms`, none of which ends the loop. */
  function AudioOf(ms: seq<Message>): seq<byte> {
    ConcatMap(ms, Chunk)
  }

  /** What the loop over the messages the server sends yields: the audio buffer and how many
      messages were read, or `ConnectionClosed` after all of them when none matches
      `Path:turn.end` (the stream ends before the sentinel). */
  function ReceiveOutcome(incoming: seq<Message>): (Result<seq<byte>, Exc>, nat) {
    match FirstTurnEnd(incoming)
    case Some(k) => (Success(AudioOf(incoming[..k])), k + 1)
    case None => (Failure(ConnectionClosed), |incoming|)
  }

  /** The receive loop of `implete`, reading the messages in order. */
  method ReceiveAudio(incoming: seq<Message>) returns (r: Result<seq<byte>, Exc>, received: nat)
    ensures (r, received) == ReceiveOutcome(incoming)
  {
    var audioStream: seq<byte> := [];
    var i := 0;
    while i < |incoming|
      invariant 0 <= i <= |incoming|
      invariant FirstTurnEnd(incoming[..i]).None?
      invariant audioStream == AudioOf(incoming[..i])
    {
      var response := incoming[i];
      FirstIndexExtend(incoming, IsTurnEnd, i);
      if IsTurnEnd(response) {
        return Success(audioStream), i + 1;
      }
      ChunkStep(incoming, i);
      if response.Binary? {
        audioStream := audioStream + AudioPayload(response.data);
      }
      i := i + 1;
    }
    assert incoming[..i] == incoming;
    return Failure(ConnectionClosed), i;
  }

  /** The buffer grows by one message's chunk: a binary message's payload, or nothing. */
  lemma ChunkStep(ms: seq<Message>, i: nat)
    requires i < |ms|
    ensures ms[i].Binary? ==> AudioOf(ms[..i + 1]) == AudioOf(ms[..i]) + AudioPayload(ms[i].data)
    ensures ms[i].Text? ==> AudioOf(ms[..i + 1]) == AudioOf(ms[..i])
  {
    ConcatMapSnoc(ms, Chunk, i);
  }

  // ----- properties -----

  /** The buffer is the receipt-order concatenation of the chunks. */
  lemma AudioOfAppend(a: seq<Message>, b: seq<Message>)
    ensures AudioOf(a + b) == AudioOf(a) + AudioOf(b)
  {
    ConcatMapAppend(a, b, Chunk);
  }

  /** Messages after the one that ends the loop are never read: they change neither the
      buffer nor the count. */
  lemma NothingReadAfterTurnEnd(incoming: seq<Message>, later: seq<Message>)
    requires FirstTurnEnd(incoming).Some?
    ensures ReceiveOutcome(incoming + later) == ReceiveOutcome(incoming)
  {
    var k := FirstTurnEnd(incoming).value;
    FirstIndexAppend(incoming, later, IsTurnEnd);
    ReceiveOutcomeAt(incoming, k);
    ReceiveOutcomeAt(incoming + later, k);
    assert (incoming + later)[..k] == incoming[..k];
  }

  lemma ReceiveOutcomeAt(ms: seq<Message>, k: nat)
    requires FirstTurnEnd(ms) == Some(k)
    ensures k < |ms| && ReceiveOutcome(ms) == (Success(AudioOf(ms[..k])), k + 1)
  {
  }

  /** A text message that does not end the loop adds nothing. */
  lemma TextAddsNothing(ms: seq<Message>, t: string)
    ensures AudioOf(ms + [Text(t)]) == AudioOf(ms)
  {
    assert (ms + [Text(t)])[..|ms|] == ms;
  }

  /** The marker found first, the payload is exactly what follows it. */
  lemma AudioPayloadAfterMarker(header: seq<byte>, chunk: seq<byte>)
    requires forall j :: 0 <= j < |header| ==> !OccursAt(header + AudioMarker + chunk, AudioMarker, j)
    ensures AudioPayload(header + AudioMarker + chunk) == chunk
  {
    FirstOccurrenceAfterPrefix(header, AudioMarker, chunk);
    var s := header + AudioMarker + chunk;
    assert s[|header| + 12..] == chunk;
  }

  /** Without the marker, `find` gives -1 and the payload starts at index 11. */
  lemma AudioPayloadWithoutMarker(data: seq<byte>)
    requires forall j :: !OccursAt(data, AudioMarker, j)
    ensures AudioPayload(data) == if |data| >= 11 then data[11..] else []
  {
  }

  lemma ReprBodyAppend(a: seq<byte>, b: seq<byte>, q: char)
    ensures ReprBody(a + b, q) == ReprBody(a, q) + ReprBody(b, q)
  {
    ConcatMapAppend(a, b, ByteRepr(q));
  }

  /** Every occurrence of the quote `q` in `s` follows a backslash. */
  predicate QuotesEscaped(s: string, q: char) {
    forall i :: 0 <= i < |s| && s[i] == q ==> 0 < i && s[i - 1] == '\\'
  }

  lemma ReprByteQuotesEscaped(b: byte, q: char)
    requires q == '"' || q == '\''
    ensures QuotesEscaped(ReprByte(b, q), q)
    ensures ReprByte(b, q)[0] != q
  {
    if b < 32 || b >= 127 {
      assert HexDigit(b as int / 16) != q && HexDigit(b as int % 16) != q;
    }
  }

  /** Inside `repr`, the quote that delimits the literal occurs only escaped, so the
      closing quote is the first unescaped one. */
  lemma {:induction false} ReprBodyQuotesEscaped(data: seq<byte>, q: char)
    requires q == '"' || q == '\''
    ensures QuotesEscaped(ReprBody(data, q), q)
    decreases |data|
  {
    if |data| > 0 {
      var init := data[..|data| - 1];
      var last := data[|data| - 1];
      ReprBodyQuotesEscaped(init, q);
      ReprByteQuotesEscaped(last, q);
      var a := ReprBody(init, q);
      var b := ReprByte(last, q);
      assert ReprBody(data, q) == a + b;
      forall i | 0 <= i < |a + b| && (a + b)[i] == q
        ensures 0 < i && (a + b)[i - 1] == '\\'
      {
        if i < |a| {
          assert a[i] == q;
        } else {
          assert b[i - |a|] == q;
        }
      }
    }
  }

  /** Printable ASCII that `repr` leaves as it is with either quote. */
  predicate PlainAscii(s: string) {
    forall k :: 0 <= k < |s| ==> 32 <= s[k] as int < 127 && s[k] !in "\\'\""
  }

  /** The ASCII encoding of such text. */
  function AsciiBytes(s: string): (b: seq<byte>)
    requires PlainAscii(s)
    ensures |b| == |s| && forall k :: 0 <= k < |s| ==> b[k] as int == s[k] as int
  {
    if |s| == 0 then [] else AsciiBytes(s[..|s| - 1]) + [s[|s| - 1] as int as byte]
  }

  /** `repr` of plain ASCII bytes spells out the text. */
  lemma {:induction false} ReprPlainAscii(s: string, q: char)
    requires PlainAscii(s) && (q == '\'' || q == '"')
    ensures ReprBody(AsciiBytes(s), q) == s
    decreases |s|
  {
    if |s| > 0 {
      var init, c := s[..|s| - 1], s[|s| - 1];
      var x := c as int as byte;
      assert AsciiBytes(s) == AsciiBytes(init) + [x];
      ReprPlainAscii(init, q);
      ReprBodyAppend(AsciiBytes(init), [x], q);
      assert [x][..0] == [];
      assert ReprBody([x], q) == [c];
      assert init + [c] == s;
    }
  }

  /** The pattern anywhere in a text is found. */
  lemma TurnEndInside(pre: string, post: string)
    ensures ContainsTurnEnd(pre + "Path:turn.end" + post)
  {
    var s := pre + "Path:turn.end" + post;
    var i := |pre|;
    assert s[i..i + 13] == "Path:turn.end";
    var w := s[i..i + 13];
    assert forall k :: 0 <= k < 13 ==> s[i + k] == w[k];
    assert TurnEndAt(s, i);
  }

  /** The string form of a binary message spells out any plain ASCII run it holds. */
  lemma BinaryStrFormSpells(before: seq<byte>, t: string, after: seq<byte>)
    requires PlainAscii(t)
    ensures var d := before + AsciiBytes(t) + after;
      var q := ReprQuote(d);
      StrForm(Binary(d)) == (['b', q] + ReprBody(before, q)) + t + (ReprBody(after, q) + [q])
  {
    var pat := AsciiBytes(t);
    var d := before + pat + after;
    var q := ReprQuote(d);
    ReprBodyAppend(before + pat, after, q);
    ReprBodyAppend(before, pat, q);
    ReprPlainAscii(t, q);
    assert StrForm(Binary(d)) == ['b', q] + ReprBody(d, q) + [q];
    RegroupMiddle(['b', q], ReprBody(before, q), t, ReprBody(after, q), [q]);
  }

  /** The text of the end-of-turn marker. */
  const TurnEndText: string := "Path:turn.end"

  /** A binary message whose bytes hold `Path:turn.end` ends the loop, through its
      `b'...'` string form. */
  lemma BinaryTurnEnd(before: seq<byte>, after: seq<byte>)
    ensures IsTurnEnd(Binary(before + AsciiBytes(TurnEndText) + after))
  {
    var d := before + AsciiBytes(TurnEndText) + after;
    var q := ReprQuote(d);
    BinaryStrFormSpells(before, TurnEndText, after);
    TurnEndInside(['b', q] + ReprBody(before, q), ReprBody(after, q) + [q]);
  }

  /** A text message holding `Path:turn.end` ends the loop. */
  lemma TextTurnEnd(pre: string, post: string)
    ensures IsTurnEnd(Text(pre + TurnEndText + post))
  {
    TurnEndInside(pre, post);
  }

  /** The `.` of the pattern stands for any character but a line break. */
  lemma TurnEndDot(c: char)
    ensures ContainsTurnEnd("Path:turn" + [c] + "end") <==> c != '\n'
  {
    var s := "Path:turn" + [c] + "end";
    if c != '\n' {
      assert TurnEndAt(s, 0);
    }
  }
}
