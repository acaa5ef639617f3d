/**
 * VoiceService: the end-of-call keyword check and the TwiML documents of the
 * three voice responses. A document is its sequence of verbs; rendering it as
 * XML is the twilio library's business and is not modelled.
 */
module Voice {
  import opened Text

  /** The two settings every spoken verb carries. */
  datatype VoiceSettings = VoiceSettings(language: string, voice: string)

  /** The TwiML verbs the service emits. A Gather holds the verbs it plays while listening. */
  datatype Verb =
    | Say(text: string, language: string, voice: string)
    | Pause(length: int)
    | Gather(input: string, action: string, httpMethod: string, language: string,
             speechTimeout: string, timeout: int, nested: seq<Verb>)
    | Hangup

  const EndKeywords: seq<string> := ["ende", "beenden", "stop", "tschuss", "auf wiederhoeren"]

  const WelcomeText: string :=
    "Willkommen. Du hast ungelesene Nachrichten. Ich lese dir jetzt eine Zusammenfassung vor."
  const IncomingPrompt: string :=
    "Du kannst jetzt Rueckfragen stellen, zum Beispiel: Erzaehl mir mehr ueber Nachricht 2."
  const NoQuestionText: string := "Ich habe keine Rueckfrage gehoert. Auf Wiederhoeren."
  const ShortGoodbye: string := "Auf Wiederhoeren."
  const FollowupPrompt: string :=
    "Wenn du noch etwas wissen willst, stelle jetzt eine weitere Frage. Sage Ende, um aufzulegen."
  const NoInputText: string := "Keine weitere Eingabe erkannt. Auf Wiederhoeren."
  const DefaultGoodbye: string := "Alles klar. Auf Wiederhoeren."

  /**
   * should_end: the call ends when some keyword occurs anywhere in the
   * lowered text. The source strips the text first; StripKeepsKeywords shows
   * that stripping never changes the answer.
   */
  function ShouldEnd(text: string): (end: bool)
    ensures end <==> exists k :: k in EndKeywords && exists i :: OccursAt(Lower(text), k, i)
  {
    var value := Strip(Lower(text));
    StripKeepsKeywords(Lower(text));
    exists k :: k in EndKeywords && Contains(value, k)
  }

  lemma OccursFromSlice(s: string, a: nat, n: nat, k: string, i: int)
    requires a + n <= |s| && OccursAt(s[a..a + n], k, i)
    ensures OccursAt(s, k, a + i)
  {
    forall j | 0 <= j < |k| ensures s[a + i + j] == k[j] {
      assert s[a..a + n][i..i + |k|][j] == k[j];
    }
  }

  lemma OccursIntoSlice(s: string, a: nat, n: nat, k: string, i: int)
    requires a + n <= |s| && OccursAt(s, k, i)
    requires k != [] && !IsSpace(k[0]) && !IsSpace(k[|k| - 1])
    requires forall j :: 0 <= j < a ==> IsSpace(s[j])
    requires forall j :: a + n <= j < |s| ==> IsSpace(s[j])
    ensures OccursAt(s[a..a + n], k, i - a)
  {
    assert s[i] == s[i..i + |k|][0] == k[0];
    assert s[i + |k| - 1] == s[i..i + |k|][|k| - 1] == k[|k| - 1];
    assert a <= i && i + |k| <= a + n;
    forall j | 0 <= j < |k| ensures s[a..a + n][i - a + j] == k[j] {
      assert s[i..i + |k|][j] == k[j];
    }
  }

  /** Strip(s) is the slice of s between two runs of whitespace. */
  lemma StripBounds(s: string) returns (a: nat)
    ensures a + |Strip(s)| <= |s| && Strip(s) == s[a..a + |Strip(s)|]
    ensures forall j :: 0 <= j < a ==> IsSpace(s[j])
    ensures forall j :: a + |Strip(s)| <= j < |s| ==> IsSpace(s[j])
  {
    var l := StripLeft(s);
    var r := StripRight(l);
    a := |s| - |l|;
    assert Strip(s) == r;
    PrefixOfSuffix(s, a, l, r);
  }

  /** A prefix r of the suffix l = s[a..], followed in l by whitespace only. */
  lemma PrefixOfSuffix(s: string, a: nat, l: string, r: string)
    requires a <= |s| && l == s[a..]
    requires |r| <= |l| && r == l[..|r|]
    requires forall k :: |r| <= k < |l| ==> IsSpace(l[k])
    ensures a + |r| <= |s| && r == s[a..a + |r|]
    ensures forall j :: a + |r| <= j < |s| ==> IsSpace(s[j])
  {
    forall j | a + |r| <= j < |s| ensures IsSpace(s[j]) {
      assert s[j] == l[j - a];
    }
  }

  /**
   * An occurrence of a word that neither starts nor ends with whitespace is
   * unaffected by stripping.
   */
  lemma OccursInStripped(s: string, k: string)
    requires k != [] && !IsSpace(k[0]) && !IsSpace(k[|k| - 1])
    ensures (exists i :: OccursAt(Strip(s), k, i)) <==> (exists i :: OccursAt(s, k, i))
  {
    var a := StripBounds(s);
    OccursInPadded(s, a, Strip(s), k);
  }

  /** The occurrences in a slice of s framed by whitespace are those in s. */
  lemma OccursInPadded(s: string, a: nat, r: string, k: string)
    requires a + |r| <= |s| && r == s[a..a + |r|]
    requires forall j :: 0 <= j < a ==> IsSpace(s[j])
    requires forall j :: a + |r| <= j < |s| ==> IsSpace(s[j])
    requires k != [] && !IsSpace(k[0]) && !IsSpace(k[|k| - 1])
    ensures (exists i :: OccursAt(r, k, i)) <==> (exists i :: OccursAt(s, k, i))
  {
    if i :| OccursAt(r, k, i) {
      OccursFromSlice(s, a, |r|, k, i);
      assert OccursAt(s, k, a + i);
    }
    if i :| OccursAt(s, k, i) {
      OccursIntoSlice(s, a, |r|, k, i);
      assert OccursAt(r, k, i - a);
    }
  }

  /** Stripping surrounding whitespace neither adds nor removes a keyword occurrence. */
  lemma StripKeepsKeywords(s: string)
    ensures forall k :: k in EndKeywords ==>
      ((exists i :: OccursAt(Strip(s), k, i)) <==> (exists i :: OccursAt(s, k, i)))
  {
    forall k | k in EndKeywords
      ensures (exists i :: OccursAt(Strip(s), k, i)) <==> (exists i :: OccursAt(s, k, i))
    {
      KeywordIgnoresStrip(s, k);
    }
  }

  lemma KeywordIgnoresStrip(s: string, k: string)
    requires k in EndKeywords
    ensures (exists i :: OccursAt(Strip(s), k, i)) <==> (exists i :: OccursAt(s, k, i))
  {
    KeywordsUnpadded();
    OccursInStripped(s, k);
  }

  /** No keyword starts or ends with whitespace. */
  lemma KeywordsUnpadded()
    ensures forall k :: k in EndKeywords ==> k != [] && !IsSpace(k[0]) && !IsSpace(k[|k| - 1])
  {
    forall k | k in EndKeywords ensures k != [] && !IsSpace(k[0]) && !IsSpace(k[|k| - 1]) {
      assert k == "ende" || k == "beenden" || k == "stop" || k == "tschuss" || k == "auf wiederhoeren";
    }
  }

  /**
   * The check matches substrings, not words: "ende" inside another word ends
   * the call as well.
   */
  lemma EndsOnEmbeddedKeyword()
    ensures ShouldEnd("Kalender")
  {
    KalenderLowered();
    KalenderHasEnde();
    var k := EndKeywords[0];
    assert k in EndKeywords && OccursAt(Lower("Kalender"), k, 3);
  }

  lemma KalenderLowered()
    ensures Lower("Kalender") == "kalender"
  {
    var low := Lower("Kalender");
    assert forall i :: 0 <= i < 8 ==> low[i] == "kalender"[i];
  }

  lemma KalenderHasEnde()
    ensures OccursAt("kalender", "ende", 3)
  {
    var word := "kalender";
    assert word[3..7] == "ende";
  }

  /** The mutable TwiML document the service fills verb by verb. */
  class VoiceResponse {
    var verbs: seq<Verb>

    constructor ()
      ensures verbs == []
    {
      verbs := [];
    }

    method AddSay(text: string, settings: VoiceSettings)
      modifies this
      ensures verbs == old(verbs) + [Say(text, settings.language, settings.voice)]
    {
      verbs := verbs + [Say(text, settings.language, settings.voice)];
    }

    method AddPause(length: int)
      modifies this
      ensures verbs == old(verbs) + [Pause(length)]
    {
      verbs := verbs + [Pause(length)];
    }

    method Append(v: Verb)
      modifies this
      ensures verbs == old(verbs) + [v]
    {
      verbs := verbs + [v];
    }

    method AddHangup()
      modifies this
      ensures verbs == old(verbs) + [Hangup]
    {
      verbs := verbs + [Hangup];
    }
  }

  /** _followup_gather with its prompt: listen for speech and POST it to actionUrl. */
  function FollowupGather(actionUrl: string, prompt: string, settings: VoiceSettings): (g: Verb)
    ensures g.Gather? && g.input == "speech" && g.action == actionUrl && g.httpMethod == "POST"
    ensures g.nested == [Say(prompt, settings.language, settings.voice)]
  {
    Gather("speech", actionUrl, "POST", settings.language, "auto", 5,
           [Say(prompt, settings.language, settings.voice)])
  }

  predicate HasGather(doc: seq<Verb>) {
    exists i :: 0 <= i < |doc| && doc[i].Gather?
  }

  /** The verbs incoming_response emits. */
  function IncomingDoc(summary: string, hasMessages: bool, actionUrl: string, settings: VoiceSettings)
    : (doc: seq<Verb>)
    ensures doc != [] && doc[|doc| - 1] == Hangup
    ensures HasGather(doc) <==> hasMessages
    ensures hasMessages ==> |doc| == 6 && doc[2] == Say(summary, settings.language, settings.voice)
                            && doc[3] == FollowupGather(actionUrl, IncomingPrompt, settings)
    ensures !hasMessages ==> |doc| == 3 && doc[0] == Say(summary, settings.language, settings.voice)
  {
    if hasMessages then
      var doc := [Say(WelcomeText, settings.language, settings.voice),
                  Pause(1),
                  Say(summary, settings.language, settings.voice),
                  FollowupGather(actionUrl, IncomingPrompt, settings),
                  Say(NoQuestionText, settings.language, settings.voice),
                  Hangup];
      assert doc[3].Gather?;
      doc
    else
      [Say(summary, settings.language, settings.voice),
       Say(ShortGoodbye, settings.language, settings.voice),
       Hangup]
  }

  /** The verbs followup_response emits. */
  function FollowupDoc(answer: string, actionUrl: string, settings: VoiceSettings): (doc: seq<Verb>)
    ensures |doc| == 4 && doc[|doc| - 1] == Hangup
    ensures doc[0] == Say(answer, settings.language, settings.voice)
    ensures HasGather(doc) && doc[1] == FollowupGather(actionUrl, FollowupPrompt, settings)
  {
    var doc := [Say(answer, settings.language, settings.voice),
                FollowupGather(actionUrl, FollowupPrompt, settings),
                Say(NoInputText, settings.language, settings.voice),
                Hangup];
    assert doc[1].Gather?;
    doc
  }

  /** The verbs goodbye_response emits. */
  function GoodbyeDoc(text: string, settings: VoiceSettings): (doc: seq<Verb>)
    ensures doc == [Say(text, settings.language, settings.voice), Hangup]
    ensures !HasGather(doc)
  {
    [Say(text, settings.language, settings.voice), Hangup]
  }

  /** incoming_response */
  method IncomingResponse(summary: string, hasMessages: bool, actionUrl: string, settings: VoiceSettings)
    returns (doc: seq<Verb>)
    ensures doc == IncomingDoc(summary, hasMessages, actionUrl, settings)
  {
    var response := new VoiceResponse();
    if hasMessages {
      response.AddSay(WelcomeText, settings);
      response.AddPause(1);
      response.AddSay(summary, settings);
      var gather := FollowupGather(actionUrl, IncomingPrompt, settings);
      response.Append(gather);
      response.AddSay(NoQuestionText, settings);
      response.AddHangup();
      return response.verbs;
    }
    response.AddSay(summary, settings);
    response.AddSay(ShortGoodbye, settings);
    response.AddHangup();
    doc := response.verbs;
  }

  /** followup_response */
  method FollowupResponse(answer: string, actionUrl: string, settings: VoiceSettings) returns (doc: seq<Verb>)
    ensures doc == FollowupDoc(answer, actionUrl, settings)
  {
    var response := new VoiceResponse();
    response.AddSay(answer, settings);
    var gather := FollowupGather(actionUrl, FollowupPrompt, settings);
    response.Append(gather);
    response.AddSay(NoInputText, settings);
    response.AddHangup();
    doc := response.verbs;
  }

  /** goodbye_response; the caller passes DefaultGoodbye where Python uses the default argument. */
  method GoodbyeResponse(text: string, settings: VoiceSettings) returns (doc: seq<Verb>)
    ensures doc == GoodbyeDoc(text, settings)
  {
    var response := new VoiceResponse();
    response.AddSay(text, settings);
    response.AddHangup();
    doc := response.verbs;
  }

  /** Every document the service builds ends the call. */
  lemma EveryResponseHangsUp(summary: string, hasMessages: bool, answer: string, text: string,
                             actionUrl: string, settings: VoiceSettings)
    ensures IncomingDoc(summary, hasMessages, actionUrl, settings)[|IncomingDoc(summary, hasMessages, actionUrl, settings)| - 1] == Hangup
    ensures FollowupDoc(answer, actionUrl, settings)[3] == Hangup
    ensures GoodbyeDoc(text, settings)[1] == Hangup
  {
  }
}
