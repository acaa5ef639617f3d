/**
 * LLMService: the guard branches of summarize_messages and answer_followup
 * and the deterministic fallbacks used when no model is configured, the
 * model call raises, or its reply is blank.
 *
 * The model call itself is an oracle: `hasClient` says whether an API key was
 * configured, and `reply` is what the call produced. `stamp` stands for
 * strftime("%d.%m.%Y %H:%M") of a message's timestamp.
 */
module Llm {
  import opened Wrappers
  import opened Text
  import opened Models

  /** The outcome of one call to the language model. */
  datatype ModelReply = Replied(text: string) | Raised

  const NoMessagesSummary: string := "Aktuell liegen keine ungelesenen Nachrichten vor."
  const NoContextMessages: string := "Es sind aktuell keine Nachrichten im Kontext dieses Anrufs vorhanden."
  const RepeatPrefix: string := "Ich wiederhole die Zusammenfassung: "
  const DefaultHint: string :=
    "Ich kann dazu nur auf Basis der vorhandenen Nachrichten antworten. Bitte nenne eine Nachrichtsnummer."

  /** The model's answer is used only when a client exists, the call returned, and the stripped text is not empty. */
  predicate Usable(hasClient: bool, reply: ModelReply) {
    hasClient && reply.Replied? && Strip(reply.text) != ""
  }

  /** The preview of a message text: newlines become spaces, and more than 120 characters become 117 plus "...". */
  function Preview(text: string): (p: string)
    ensures |p| <= 120 && '\n' !in p
    ensures |text| <= 120 ==> p == ReplaceNewlines(text)
    ensures |text| > 120 ==> |p| == 120 && p == ReplaceNewlines(text)[..117] + "..."
  {
    var preview := ReplaceNewlines(text);
    if |preview| > 120 then preview[..117] + "..." else preview
  }

  /** One line of the fallback summary, numbered by `index`. */
  function SummarySegment(index: int, m: TelegramMessage, stamp: int -> string): (seg: string)
    ensures StartsWith(seg, "Nachricht " + IntToDecimal(index) + ": " + m.sender + " -> ")
    ensures EndsWith(seg, " -> " + Preview(m.text) + ".")
  {
    var head := "Nachricht " + IntToDecimal(index) + ": " + m.sender + " -> ";
    var tail := " -> " + Preview(m.text) + ".";
    var seg := head + stamp(m.timestamp) + tail;
    assert seg[..|head|] == head;
    assert seg[|seg| - |tail|..] == tail;
    seg
  }

  /** The segments of the fallback summary: one per message, in input order, numbered from 1. */
  function SummarySegments(ms: seq<TelegramMessage>, stamp: int -> string): (segs: seq<string>)
    ensures |segs| == |ms|
    ensures forall i :: 0 <= i < |ms| ==> segs[i] == SummarySegment(i + 1, ms[i], stamp)
  {
    seq(|ms|, i requires 0 <= i < |ms| => SummarySegment(i + 1, ms[i], stamp))
  }

  /** The text _fallback_summary returns: the segments joined by single spaces. */
  function FallbackSummaryText(ms: seq<TelegramMessage>, stamp: int -> string): string {
    Join(" ", SummarySegments(ms, stamp))
  }

  /** _fallback_summary: the loop that collects one line per message, then the join. */
  method FallbackSummary(ms: seq<TelegramMessage>, stamp: int -> string) returns (summary: string)
    ensures summary == FallbackSummaryText(ms, stamp)
  {
    var lines: seq<string> := [];
    ghost var segs := SummarySegments(ms, stamp);
    for index := 0 to |ms|
      invariant lines == segs[..index]
    {
      assert segs[..index + 1] == segs[..index] + [segs[index]];
      lines := lines + [SummarySegment(index + 1, ms[index], stamp)];
    }
    assert lines == segs;
    summary := Join(" ", lines);
  }

  lemma {:induction false} JoinStartsWithFirst(sep: string, parts: seq<string>)
    requires parts != []
    ensures StartsWith(Join(sep, parts), parts[0])
  {
    if |parts| > 1 {
      var init := parts[..|parts| - 1];
      JoinStartsWithFirst(sep, init);
      var j := Join(sep, init);
      assert Join(sep, parts) == j + (sep + parts[|parts| - 1]);
      assert (j + (sep + parts[|parts| - 1]))[..|parts[0]|] == j[..|parts[0]|];
    }
  }

  lemma JoinEndsWithLast(sep: string, parts: seq<string>)
    requires parts != []
    ensures EndsWith(Join(sep, parts), parts[|parts| - 1])
  {
    var j := Join(sep, parts);
    if |parts| > 1 {
      var last := parts[|parts| - 1];
      assert j == (Join(sep, parts[..|parts| - 1]) + sep) + last;
      assert j[|j| - |last|..] == last;
    }
  }

  /** With at least one message, the fallback summary opens with message 1. */
  lemma FallbackSummaryOpens(ms: seq<TelegramMessage>, stamp: int -> string)
    requires ms != []
    ensures StartsWith(FallbackSummaryText(ms, stamp), "Nachricht 1: " + ms[0].sender + " -> ")
  {
    var segs := SummarySegments(ms, stamp);
    JoinStartsWithFirst(" ", segs);
    assert IntToDecimal(1) == "1";
    PrefixOfPrefix(FallbackSummaryText(ms, stamp), segs[0], "Nachricht 1: " + ms[0].sender + " -> ");
  }

  /** With at least one message, the fallback summary closes with the preview of the last one. */
  lemma FallbackSummaryCloses(ms: seq<TelegramMessage>, stamp: int -> string)
    requires ms != []
    ensures EndsWith(FallbackSummaryText(ms, stamp), " -> " + Preview(ms[|ms| - 1].text) + ".")
  {
    var segs := SummarySegments(ms, stamp);
    JoinEndsWithLast(" ", segs);
    SuffixOfSuffix(FallbackSummaryText(ms, stamp), segs[|segs| - 1], " -> " + Preview(ms[|ms| - 1].text) + ".");
  }

  lemma PrefixOfPrefix(s: string, t: string, u: string)
    requires StartsWith(s, t) && StartsWith(t, u)
    ensures StartsWith(s, u)
  {
    assert s[..|u|] == s[..|t|][..|u|];
  }

  lemma SuffixOfSuffix(s: string, t: string, u: string)
    requires EndsWith(s, t) && EndsWith(t, u)
    ensures EndsWith(s, u)
  {
    assert s[|s| - |u|..] == s[|s| - |t|..][|t| - |u|..];
  }

  /**
   * summarize_messages: the fixed text for no messages (whether or not a
   * client exists), the model's stripped answer when usable, the fallback
   * otherwise.
   */
  function SummarizeMessages(ms: seq<TelegramMessage>, hasClient: bool, reply: ModelReply,
                             stamp: int -> string): (summary: string)
    ensures ms == [] ==> summary == NoMessagesSummary
    ensures ms != [] && Usable(hasClient, reply) ==> summary == Strip(reply.text)
    ensures ms != [] && !Usable(hasClient, reply) ==> summary == FallbackSummaryText(ms, stamp)
    ensures summary != []
  {
    if ms == [] then NoMessagesSummary
    else if Usable(hasClient, reply) then Strip(reply.text)
    else
      FallbackSummaryOpens(ms, stamp);
      FallbackSummaryText(ms, stamp)
  }

  // ---- _fallback_followup: re.search(r"(?:nachricht|nummer)\s*(\d+)", question.lower())

  /** The end of the run of whitespace starting at i. */
  function SpaceRun(s: string, i: nat): (j: nat)
    requires i <= |s|
    ensures i <= j <= |s| && (j == |s| || !IsSpace(s[j]))
    ensures forall k :: i <= k < j ==> IsSpace(s[k])
    decreases |s| - i
  {
    if i < |s| && IsSpace(s[i]) then SpaceRun(s, i + 1) else i
  }

  /** The end of the run of digits starting at i. */
  function DigitRun(s: string, i: nat): (j: nat)
    requires i <= |s|
    ensures i <= j <= |s| && (j == |s| || !IsDigit(s[j]))
    ensures AllDigits(s[i..j])
    decreases |s| - i
  {
    if i < |s| && IsDigit(s[i]) then DigitRun(s, i + 1) else i
  }

  /** `\s*(\d+)` at position p: the value of the greedy digit group, if there is one. */
  function DigitsAfter(s: string, p: nat): Option<nat>
    requires p <= |s|
  {
    var a := SpaceRun(s, p);
    var b := DigitRun(s, a);
    if a == b then None else Some(ParseNat(s[a..b]))
  }

  /** The whole pattern matched at position i: the number it captures. */
  function NumberAt(s: string, i: nat): Option<nat> {
    if OccursAt(s, "nachricht", i) then DigitsAfter(s, i + 9)
    else if OccursAt(s, "nummer", i) then DigitsAfter(s, i + 6)
    else None
  }

  /** re.search from position `from`: the number captured by the leftmost match. */
  function FirstNumberRef(s: string, from: nat): (r: Option<nat>)
    ensures r.None? <==> forall i :: from <= i <= |s| ==> NumberAt(s, i).None?
    ensures r.Some? ==> exists i :: && from <= i <= |s| && r == NumberAt(s, i)
                                    && forall j :: from <= j < i ==> NumberAt(s, j).None?
    decreases |s| - from
  {
    if from > |s| then None
    else if NumberAt(s, from).Some? then NumberAt(s, from)
    else
      FirstNumberRef(s, from + 1)
  }

  /** The answer quoting message n: its number and sender first, its full text last. */
  function QuoteMessage(n: nat, m: TelegramMessage, stamp: int -> string): (answer: string)
    ensures StartsWith(answer, "Nachricht " + IntToDecimal(n) + " von " + m.sender + " um ")
    ensures EndsWith(answer, ": " + m.text)
  {
    var head := "Nachricht " + IntToDecimal(n) + " von " + m.sender + " um ";
    var tail := ": " + m.text;
    var answer := head + stamp(m.timestamp) + tail;
    assert answer[..|head|] == head;
    assert answer[|answer| - |tail|..] == tail;
    answer
  }

  /** The answer for a reference to a message that does not exist: the number asked for, then the count. */
  function MissingMessage(n: nat, count: nat): (answer: string)
    ensures StartsWith(answer, "Ich finde Nachricht " + IntToDecimal(n) + " nicht.")
    ensures EndsWith(answer, " Es liegen nur " + IntToDecimal(count) + " Nachrichten vor.")
  {
    var head := "Ich finde Nachricht " + IntToDecimal(n) + " nicht.";
    var tail := " Es liegen nur " + IntToDecimal(count) + " Nachrichten vor.";
    var answer := head + tail;
    assert answer[..|head|] == head;
    assert answer[|answer| - |tail|..] == tail;
    answer
  }

  const RepeatKeywords: seq<string> := ["wiederhol", "zusammenfass", "nochmal"]

  /** Some keyword asking for the summary again occurs somewhere in the lowered question. */
  function AsksForRepeat(q: string): (asks: bool)
    ensures asks <==> exists k :: k in RepeatKeywords && exists i :: OccursAt(q, k, i)
  {
    exists k :: k in RepeatKeywords && Contains(q, k)
  }

  /**
   * _fallback_followup: a message reference is answered first (the quoted
   * message, or a not-found notice with the count); otherwise a repeat
   * request repeats the summary; otherwise the hint text.
   */
  function FallbackFollowup(question: string, ms: seq<TelegramMessage>, summary: string,
                            stamp: int -> string): (answer: string)
    ensures answer != []
    ensures FirstNumberRef(Lower(question), 0).Some? ==>
              var n := FirstNumberRef(Lower(question), 0).value;
              answer == if 1 <= n <= |ms| then QuoteMessage(n, ms[n - 1], stamp) else MissingMessage(n, |ms|)
    ensures FirstNumberRef(Lower(question), 0).None? && AsksForRepeat(Lower(question)) ==>
              answer == RepeatPrefix + summary
    ensures FirstNumberRef(Lower(question), 0).None? && !AsksForRepeat(Lower(question)) ==>
              answer == DefaultHint
  {
    var q := Lower(question);
    match FirstNumberRef(q, 0)
    case Some(n) =>
      if 1 <= n <= |ms| then QuoteMessage(n, ms[n - 1], stamp) else MissingMessage(n, |ms|)
    case None =>
      if AsksForRepeat(q) then RepeatPrefix + summary else DefaultHint
  }

  /** Lowering leaves lower-case letters, digits and spaces alone. */
  lemma LowerOfLowered(s: string)
    requires forall i :: 0 <= i < |s| ==> s[i] == ' ' || IsDigit(s[i]) || 'a' <= s[i] <= 'z'
    ensures Lower(s) == s
  {
  }

  /** The lowered question "Nachricht n" references message n. */
  lemma NumberRefOfDecimal(n: nat)
    ensures FirstNumberRef(Lower("Nachricht " + NatToDecimal(n)), 0) == Some(n)
  {
    var d := NatToDecimal(n);
    var question := "Nachricht " + d;
    var q := "nachricht " + d;
    assert Lower(question) == q by {
      assert forall i :: 0 <= i < |question| ==> LowerChar(question[i]) == q[i];
    }
    assert OccursAt(q, "nachricht", 0) by {
      assert q[..9] == "nachricht";
    }
    assert SpaceRun(q, 10) == 10 by {
      assert q[10] == d[0];
    }
    assert SpaceRun(q, 9) == 10 by {
      assert IsSpace(q[9]);
    }
    assert q[10..] == d;
    DigitRunToEnd(q, 10);
    ParseNatOfDecimal(n);
    assert q[10..|q|] == d;
    assert DigitsAfter(q, 9) == Some(n);
  }

  /**
   * A question "Nachricht n" with 1 <= n <= the number of messages is
   * answered by quoting message n, with its sender and text.
   */
  lemma QuotesReferencedMessage(n: nat, ms: seq<TelegramMessage>, summary: string, stamp: int -> string)
    requires 1 <= n <= |ms|
    ensures FallbackFollowup("Nachricht " + NatToDecimal(n), ms, summary, stamp) == QuoteMessage(n, ms[n - 1], stamp)
  {
    var question := "Nachricht " + NatToDecimal(n);
    NumberRefOfDecimal(n);
    ReferenceStep(question, n, ms, summary, stamp);
  }

  /** FallbackFollowup's reference case, stated for an arbitrary question (keeps callers' proofs small). */
  lemma ReferenceStep(question: string, n: nat, ms: seq<TelegramMessage>, summary: string,
                      stamp: int -> string)
    requires FirstNumberRef(Lower(question), 0) == Some(n)
    ensures FallbackFollowup(question, ms, summary, stamp)
              == if 1 <= n <= |ms| then QuoteMessage(n, ms[n - 1], stamp) else MissingMessage(n, |ms|)
  {
  }

  lemma {:induction false} DigitRunToEnd(s: string, i: nat)
    requires i <= |s| && AllDigits(s[i..])
    ensures DigitRun(s, i) == |s|
    decreases |s| - i
  {
    if i < |s| {
      assert IsDigit(s[i..][0]);
      assert s[i + 1..] == s[i..][1..];
      DigitRunToEnd(s, i + 1);
    }
  }

  /**
   * A question "Nachricht n" with n beyond the number of messages gets the
   * not-found notice naming n and the count.
   */
  lemma ReportsMissingMessage(n: nat, ms: seq<TelegramMessage>, summary: string, stamp: int -> string)
    requires n > |ms|
    ensures FallbackFollowup("Nachricht " + NatToDecimal(n), ms, summary, stamp) == MissingMessage(n, |ms|)
  {
    var question := "Nachricht " + NatToDecimal(n);
    NumberRefOfDecimal(n);
    ReferenceStep(question, n, ms, summary, stamp);
  }

  /**
   * answer_followup: the fixed text when the call has no messages, the
   * model's stripped answer when usable, the fallback otherwise. The
   * conversation history only shapes the prompt and is left to the oracle.
   */
  function AnswerFollowup(question: string, ms: seq<TelegramMessage>, summary: string,
                          hasClient: bool, reply: ModelReply, stamp: int -> string): (answer: string)
    ensures ms == [] ==> answer == NoContextMessages
    ensures ms != [] && Usable(hasClient, reply) ==> answer == Strip(reply.text)
    ensures ms != [] && !Usable(hasClient, reply) ==> answer == FallbackFollowup(question, ms, summary, stamp)
    ensures answer != []
  {
    if ms == [] then NoContextMessages
    else if Usable(hasClient, reply) then Strip(reply.text)
    else FallbackFollowup(question, ms, summary, stamp)
  }
}
