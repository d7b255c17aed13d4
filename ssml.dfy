/** `SpeechSynthesizer._build_ssml`: the SSML document wrapped around plain text, with the
    text escaped the way `xml.sax.saxutils.escape` does by default (`&`, `<` and `>`). */
module Ssml {
  import opened Wrappers
  import opened Seqs

  // ----- escape -----

  function EscapeChar(c: char): string {
    if c == '&' then "&amp;"
    else if c == '<' then "&lt;"
    else if c == '>' then "&gt;"
    else [c]
  }

  /** `escape(text)`. */
  function Escape(s: string): (r: string)
    ensures |r| >= |s|
    ensures '<' !in r && '>' !in r
    decreases |s|
  {
    if |s| == 0 then "" else EscapeChar(s[0]) + Escape(s[1..])
  }

  /** The inverse of `Escape`: the three entities become their characters again. */
  function Unescape(s: string): string
    decreases |s|
  {
    if |s| == 0 then ""
    else if "&amp;" <= s then "&" + Unescape(s[5..])
    else if "&lt;" <= s then "<" + Unescape(s[4..])
    else if "&gt;" <= s then ">" + Unescape(s[4..])
    else [s[0]] + Unescape(s[1..])
  }

  lemma UnescapeEscapeChar(c: char, rest: string)
    ensures Unescape(EscapeChar(c) + rest) == [c] + Unescape(rest)
  {
    var s := EscapeChar(c) + rest;
    if c == '&' {
      assert "&amp;" <= s && s[5..] == rest;
    } else if c == '<' {
      assert s[1] == 'l';
      assert !("&amp;" <= s) && "&lt;" <= s && s[4..] == rest;
    } else if c == '>' {
      assert s[1] == 'g';
      assert !("&amp;" <= s) && !("&lt;" <= s) && "&gt;" <= s && s[4..] == rest;
    } else {
      assert s[0] == c && s[1..] == rest;
    }
  }

  /** Escaping loses nothing. */
  lemma {:induction false} UnescapeEscape(s: string)
    ensures Unescape(Escape(s)) == s
    decreases |s|
  {
    if |s| > 0 {
      UnescapeEscapeChar(s[0], Escape(s[1..]));
      UnescapeEscape(s[1..]);
      assert [s[0]] + s[1..] == s;
    }
  }

  /** Text without the three special characters is left as it is. */
  lemma {:induction false} EscapePlain(s: string)
    requires '&' !in s && '<' !in s && '>' !in s
    ensures Escape(s) == s
    decreases |s|
  {
    if |s| > 0 {
      EscapePlain(s[1..]);
      assert [s[0]] + s[1..] == s;
    }
  }

  // ----- _build_ssml -----

  /** The fixed opening `<speak ...>` element, followed by a space. */
  const SpeakOpen: string :=
    "<speak xmlns=\"http://www.w3.org/2001/10/synthesis\" xmlns:mstts=\"http://www.w3.org/2001/mstts\" "
    + "xmlns:emo=\"http://www.w3.org/2009/10/emotionml\" version=\"1.0\" xml:lang=\"en-US\"> "

  const Close: string := "</voice></speak>"

  /** The opening `voice` element: named when a voice is configured. */
  function VoiceOpen(voice: Option<string>): string {
    match voice
    case Some(v) => "<voice name=\"" + v + "\">"
    case None => "<voice>"
  }

  /** `_build_ssml(text)` with the configured voice name. */
  function BuildSsml(voice: Option<string>, text: string): string {
    SpeakOpen + VoiceOpen(voice) + Escape(text) + Close
  }

  /** Reads a voice element back: `<voice>`, or `<voice name="V">` with no quote in V. */
  function ParseVoiceOpen(s: string): Option<(Option<string>, string)> {
    if "<voice>" <= s then Some((None, s[7..]))
    else
      var rest :- StripPrefix(s, "<voice name=\"");
      var close :- FirstOccurrence(rest, "\"");
      var after :- StripPrefix(rest[close..], "\">");
      Some((Some(rest[..close]), after))
  }

  /** Reads a built document back into the voice and the original text. */
  function ParseSsml(s: string): Option<(Option<string>, string)> {
    var afterSpeak :- StripPrefix(s, SpeakOpen);
    var (voice, rest) :- ParseVoiceOpen(afterSpeak);
    var body :- StripSuffix(rest, Close);
    Some((voice, Unescape(body)))
  }

  lemma ParseNamedVoiceOf(v: string, rest: string)
    requires '"' !in v
    ensures ParseVoiceOpen(VoiceOpen(Some(v)) + rest) == Some((Some(v), rest))
  {
    var s := VoiceOpen(Some(v)) + rest;
    var named := v + "\"" + (">" + rest);
    assert s[6] == ' ';
    assert s == "<voice name=\"" + named;
    StripPrefixOf("<voice name=\"", named);
    forall j | 0 <= j < |v|
      ensures !OccursAt(named, "\"", j)
    {
      assert named[j] == v[j];
    }
    FirstOccurrenceAfterPrefix(v, "\"", ">" + rest);
    assert named[|v|..] == "\">" + rest;
    StripPrefixOf("\">", rest);
    assert named[..|v|] == v;
  }

  lemma ParseVoiceOpenOf(voice: Option<string>, rest: string)
    requires voice.Some? ==> '"' !in voice.value
    ensures ParseVoiceOpen(VoiceOpen(voice) + rest) == Some((voice, rest))
  {
    if voice.Some? {
      ParseNamedVoiceOf(voice.value, rest);
    } else {
      var s := VoiceOpen(voice) + rest;
      assert "<voice>" <= s && s[7..] == rest;
    }
  }

  /** A document of the built shape reads back into its voice and its unescaped body. */
  lemma ParseSsmlOf(voice: Option<string>, body: string)
    requires voice.Some? ==> '"' !in voice.value
    ensures ParseSsml(SpeakOpen + (VoiceOpen(voice) + (body + Close))) == Some((voice, Unescape(body)))
  {
    StripPrefixOf(SpeakOpen, VoiceOpen(voice) + (body + Close));
    ParseVoiceOpenOf(voice, body + Close);
    StripSuffixOf(body, Close);
  }

  /** The document names the voice it was built with, and carries the text escaped, so
      that it reads back unchanged. */
  lemma ParseBuildSsml(voice: Option<string>, text: string)
    requires voice.Some? ==> '"' !in voice.value
    ensures ParseSsml(BuildSsml(voice, text)) == Some((voice, text))
  {
    var body := Escape(text);
    RegroupRight(SpeakOpen, VoiceOpen(voice), body, Close);
    ParseSsmlOf(voice, body);
    UnescapeEscape(text);
  }
}
