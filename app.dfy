/**
 * The two Twilio webhooks of create_app as a state machine over the store.
 *
 * incoming: check the signature, sweep stale contexts, replay an existing
 * context, otherwise sync Telegram, list and summarise the unread messages,
 * save the call context and mark those messages read.
 *
 * followup: check the signature, re-prompt on empty speech, say goodbye on
 * an end keyword, refuse calls without a context, stop at the turn limit,
 * otherwise answer and record the caller's and the assistant's turn.
 *
 * The Telegram pages, the language model's reply, the signature validator,
 * the time formatter and the clock are parameters.
 */
module App {
  import opened Wrappers
  import opened Text
  import opened Models
  import opened Store
  import opened Telegram
  import opened Llm
  import opened Voice
  import opened Security

  datatype Settings = Settings(
    security: SecuritySettings,
    voice: VoiceSettings,
    botToken: Option<string>,
    allowedChatId: Option<int>,
    hasOpenAiKey: bool,
    maxMessagesPerCall: int,
    maxFollowupTurns: int,
    ttlMinutes: int)

  /** A webhook's reply: 403 without a body, or a TwiML document. */
  datatype HttpResponse = Forbidden | Xml(verbs: seq<Verb>)

  /** Which branch an incoming webhook took. */
  datatype IncomingPath = Rejected | Replayed | Degraded | Fresh

  /** Which branch a followup webhook took. */
  datatype FollowupPath = Refused | Reprompted | SaidGoodbye | NoContext | LimitReached | Answered

  const FollowupRoute: string := "/twilio/voice/followup"
  const UnavailableSummary: string :=
    "Der Abruf der Messenger-Nachrichten ist aktuell nicht verfuegbar. Bitte versuche es spaeter erneut."
  const NotUnderstood: string := "Ich habe dich nicht verstanden. Bitte formuliere die Frage noch einmal."
  const NoContextAnswer: string := "Fuer diesen Anruf liegt kein Kontext vor. Starte bitte einen neuen Anruf."
  const LimitReachedText: string := "Wir haben die maximale Anzahl an Rueckfragen erreicht. Auf Wiederhoeren."

  /** str(form.get(key, default)): the last field's value, the default when there is no such field. */
  function FormText(form: Form, key: string, default: string): (text: string)
    ensures key !in FieldNames(form) ==> text == default
    ensures key in FieldNames(form) && FormGet(form, key).Some? ==> text == FormGet(form, key).value
  {
    if key !in FieldNames(form) then default
    else match FormGet(form, key)
      case Some(v) => v
      case None => "None"
  }

  function CallSid(form: Form): string {
    FormText(form, "CallSid", "unknown-call")
  }

  function SpeechResult(form: Form): string {
    Strip(FormText(form, "SpeechResult", ""))
  }

  function FollowupUrl(req: Request, settings: Settings): string {
    BuildPublicUrl(req, settings.security, Some(FollowupRoute))
  }

  /** [msg.id for msg in messages] */
  function IdsOf(ms: seq<TelegramMessage>): (ids: seq<int>)
    ensures |ids| == |ms| && forall i :: 0 <= i < |ms| ==> ids[i] == ms[i].id
  {
    seq(|ms|, i requires 0 <= i < |ms| => ms[i].id)
  }

  /** The contexts left after incoming's sweep at `now`. */
  function Swept(contexts: map<string, ContextRow>, settings: Settings, now: int): map<string, ContextRow> {
    Sweep(contexts, Cutoff(now, settings.ttlMinutes))
  }

  /** Every conversation has an even number of turns and at most two per allowed followup. */
  predicate ConversationsBounded(contexts: map<string, ContextRow>, maxTurns: int) {
    forall sid :: sid in contexts ==>
      |contexts[sid].conversationJson| % 2 == 0 && |contexts[sid].conversationJson| <= 2 * maxTurns
  }

  /** Below the limit, a conversation of even length has room for one more question and answer. */
  lemma RoomForTwoTurns(n: nat, maxTurns: int)
    requires n % 2 == 0 && n < 2 * maxTurns
    ensures (n + 2) % 2 == 0 && n + 2 <= 2 * maxTurns
  {
  }

  /** A sweep keeps the bound, and so does a fresh context, whose conversation is empty. */
  lemma BoundedAfterSave(contexts: map<string, ContextRow>, cutoff: int, sid: string, row: ContextRow, maxTurns: int)
    requires ConversationsBounded(contexts, maxTurns) && maxTurns >= 0 && row.conversationJson == []
    ensures ConversationsBounded(Sweep(contexts, cutoff), maxTurns)
    ensures ConversationsBounded(Sweep(contexts, cutoff)[sid := row], maxTurns)
  {
  }

  /**
   * The tail of a successful incoming: list the unread messages, summarise
   * them, save the call context, mark exactly the listed messages read, and
   * announce the summary.
   */
  method SummarizeAndSave(store: SqliteStore, settings: Settings, callSid: string, followupUrl: string,
                          reply: ModelReply, stamp: int -> string, now: int)
    returns (twiml: seq<Verb>)
    requires store.Valid()
    modifies store`messages, store`contexts
    ensures store.Valid()
    ensures var listed := UnreadMessages(old(store.messages), settings.maxMessagesPerCall, settings.allowedChatId);
            var summary := SummarizeMessages(listed, settings.hasOpenAiKey, reply, stamp);
            && store.contexts == old(store.contexts)[callSid := FreshContext(summary, listed, now)]
            && store.messages == MarkRead(old(store.messages), IdsOf(listed))
            && twiml == IncomingDoc(summary, listed != [], followupUrl, settings.voice)
  {
    var unread := store.ListUnreadMessages(settings.maxMessagesPerCall, settings.allowedChatId);
    var summary := SummarizeMessages(unread, settings.hasOpenAiKey, reply, stamp);

    store.SaveCallContext(callSid, summary, unread, now);
    store.MarkMessagesRead(IdsOf(unread));

    twiml := IncomingResponse(summary, unread != [], followupUrl, settings.voice);
  }

  /**
   * incoming after the sweep: replay a stored context, or sync Telegram and
   * either degrade on a failed sync or summarise and save.
   */
  method ReplayOrSummarize(store: SqliteStore, settings: Settings, callSid: string, followupUrl: string,
                           pages: seq<Page>, reply: ModelReply, stamp: int -> string, now: int)
    returns (twiml: seq<Verb>, ghost path: IncomingPath, ghost synced: seq<MessageRow>, ghost requested: seq<int>)
    requires store.Valid()
    modifies store`messages, store`nextId, store`offsetRow, store`contexts
    ensures store.Valid() && !path.Rejected?
    ensures store.contexts.Keys <= old(store.contexts).Keys + {callSid}
    ensures path.Replayed? <==> callSid in old(store.contexts)
    ensures path.Replayed? ==>
              var row := old(store.contexts)[callSid];
              && MessagesDecode(row.messagesJson)
              && twiml == IncomingDoc(row.summary, DecodeMessages(row.messagesJson) != [], followupUrl, settings.voice)
              && store.contexts == old(store.contexts)
              && store.messages == old(store.messages) && store.offsetRow == old(store.offsetRow)
    ensures path.Degraded? ==>
              && Truthy(settings.botToken)
              && twiml == IncomingDoc(UnavailableSummary, false, followupUrl, settings.voice)
              && store.contexts == old(store.contexts)
              && store.offsetRow == old(store.offsetRow)
              && |old(store.messages)| <= |store.messages|
              && store.messages[..|old(store.messages)|] == old(store.messages)
              && SyncFailed(pages, old(store.offsetRow), old(store.messages), store.messages, requested)
    ensures path.Fresh? ==>
              var listed := UnreadMessages(synced, settings.maxMessagesPerCall, settings.allowedChatId);
              var summary := SummarizeMessages(listed, settings.hasOpenAiKey, reply, stamp);
              && |old(store.messages)| <= |synced| && synced[..|old(store.messages)|] == old(store.messages)
              && SyncSucceeded(pages, settings.botToken, old(store.offsetRow), old(store.messages), synced,
                               store.offsetRow, requested)
              && store.contexts == old(store.contexts)[callSid := FreshContext(summary, listed, now)]
              && store.messages == MarkRead(synced, IdsOf(listed))
              && twiml == IncomingDoc(summary, listed != [], followupUrl, settings.voice)
  {
    synced := store.messages;
    var existing := store.GetCallContext(callSid);
    if existing.Some? {
      twiml := IncomingResponse(existing.value.summary, existing.value.messages != [], followupUrl, settings.voice);
      return twiml, Replayed, synced, [];
    }

    var outcome;
    outcome, requested := SyncUpdates(store, settings.botToken, pages);
    synced := store.messages;
    if outcome.Err? {
      twiml := IncomingResponse(UnavailableSummary, false, followupUrl, settings.voice);
      return twiml, Degraded, synced, requested;
    }
    twiml := SummarizeAndSave(store, settings, callSid, followupUrl, reply, stamp, now);
    path := Fresh;
  }

  /** twilio_voice_incoming */
  method Incoming(store: SqliteStore, settings: Settings, req: Request, form: Form, validator: Validator,
                  pages: seq<Page>, reply: ModelReply, stamp: int -> string, now: int)
    returns (resp: HttpResponse, ghost path: IncomingPath, ghost synced: seq<MessageRow>, ghost requested: seq<int>)
    requires store.Valid()
    modifies store`messages, store`nextId, store`offsetRow, store`contexts
    ensures store.Valid()
    ensures path.Rejected? <==> !SignatureAccepted(req, form, settings.security, validator)
    ensures path.Rejected? ==> resp == Forbidden && unchanged(store)
    ensures !path.Rejected? ==> store.contexts.Keys <= Swept(old(store.contexts), settings, now).Keys + {CallSid(form)}
    ensures path.Replayed? <==> !path.Rejected? && CallSid(form) in Swept(old(store.contexts), settings, now)
    ensures path.Replayed? ==>
              var row := Swept(old(store.contexts), settings, now)[CallSid(form)];
              && MessagesDecode(row.messagesJson)
              && resp == Xml(IncomingDoc(row.summary, DecodeMessages(row.messagesJson) != [],
                                         FollowupUrl(req, settings), settings.voice))
              && store.contexts == Swept(old(store.contexts), settings, now)
              && store.messages == old(store.messages) && store.offsetRow == old(store.offsetRow)
    ensures path.Degraded? ==>
              && Truthy(settings.botToken)
              && resp == Xml(IncomingDoc(UnavailableSummary, false, FollowupUrl(req, settings), settings.voice))
              && store.contexts == Swept(old(store.contexts), settings, now)
              && store.offsetRow == old(store.offsetRow)
              && |old(store.messages)| <= |store.messages|
              && store.messages[..|old(store.messages)|] == old(store.messages)
              && SyncFailed(pages, old(store.offsetRow), old(store.messages), store.messages, requested)
    ensures path.Fresh? ==>
              var listed := UnreadMessages(synced, settings.maxMessagesPerCall, settings.allowedChatId);
              var summary := SummarizeMessages(listed, settings.hasOpenAiKey, reply, stamp);
              && |old(store.messages)| <= |synced| && synced[..|old(store.messages)|] == old(store.messages)
              && SyncSucceeded(pages, settings.botToken, old(store.offsetRow), old(store.messages), synced,
                               store.offsetRow, requested)
              && store.contexts == Swept(old(store.contexts), settings, now)[CallSid(form) := FreshContext(summary, listed, now)]
              && store.messages == MarkRead(synced, IdsOf(listed))
              && resp == Xml(IncomingDoc(summary, listed != [], FollowupUrl(req, settings), settings.voice))
    ensures OffsetValue(old(store.offsetRow)) <= OffsetValue(store.offsetRow)
    ensures ConversationsBounded(old(store.contexts), settings.maxFollowupTurns) && settings.maxFollowupTurns >= 0 ==>
              ConversationsBounded(store.contexts, settings.maxFollowupTurns)
  {
    synced := store.messages;
    var ok := ValidateTwilioSignature(req, form, settings.security, validator);
    if !ok {
      return Forbidden, Rejected, synced, [];
    }
    var callSid := CallSid(form);
    var followupUrl := FollowupUrl(req, settings);

    ghost var bounded := ConversationsBounded(store.contexts, settings.maxFollowupTurns) && settings.maxFollowupTurns >= 0;
    var _ := store.CleanupStaleCallContexts(settings.ttlMinutes, now);
    var twiml;
    twiml, path, synced, requested := ReplayOrSummarize(store, settings, callSid, followupUrl, pages, reply, stamp, now);
    resp := Xml(twiml);
    if path.Fresh? {
      SyncNeverLowersOffset(pages, settings.botToken, old(store.offsetRow), old(store.messages), synced,
                            store.offsetRow, requested);
    }
    if bounded {
      var row := if path.Fresh? then
                   var listed := UnreadMessages(synced, settings.maxMessagesPerCall, settings.allowedChatId);
                   FreshContext(SummarizeMessages(listed, settings.hasOpenAiKey, reply, stamp), listed, now)
                 else ContextRow("", [], [], now);
      BoundedAfterSave(old(store.contexts), Cutoff(now, settings.ttlMinutes), callSid, row, settings.maxFollowupTurns);
    }
  }

  /** Every stored context decodes, as the store's invariant guarantees. */
  predicate AllDecode(contexts: map<string, ContextRow>) {
    forall sid :: sid in contexts ==> ContextDecodes(contexts[sid])
  }

  /** What the followup handler reads off the request before it touches the store. */
  datatype FollowupRequest = FollowupRequest(accepted: bool, callSid: string, speech: string, url: string)

  /** The signature verdict, the call id, the stripped speech and the followup URL of a request. */
  function ReadFollowup(settings: Settings, req: Request, form: Form, validator: Validator): (q: FollowupRequest)
    ensures q.accepted == SignatureAccepted(req, form, settings.security, validator)
    ensures q.callSid == CallSid(form) && q.speech == SpeechResult(form) && q.url == FollowupUrl(req, settings)
  {
    FollowupRequest(SignatureAccepted(req, form, settings.security, validator), CallSid(form), SpeechResult(form),
                    FollowupUrl(req, settings))
  }

  /** What a followup webhook replies, which branch it takes, and the contexts it leaves. */
  datatype FollowupResult = FollowupResult(resp: HttpResponse, path: FollowupPath, contexts: map<string, ContextRow>)

  /**
   * The followup webhook as a function of the stored contexts: the checks in
   * the handler's order, with the end keyword checked before the lookup.
   */
  function FollowupSpec(contexts: map<string, ContextRow>, settings: Settings, q: FollowupRequest,
                        reply: ModelReply, stamp: int -> string): (r: FollowupResult)
    requires AllDecode(contexts)
    ensures r.contexts.Keys == contexts.Keys
    ensures forall sid :: sid in contexts && sid != q.callSid ==> r.contexts[sid] == contexts[sid]
  {
    if !q.accepted then FollowupResult(Forbidden, Refused, contexts)
    else if q.speech == "" then FollowupResult(Xml(FollowupDoc(NotUnderstood, q.url, settings.voice)), Reprompted, contexts)
    else if ShouldEnd(q.speech) then FollowupResult(Xml(GoodbyeDoc(DefaultGoodbye, settings.voice)), SaidGoodbye, contexts)
    else if q.callSid !in contexts then
      FollowupResult(Xml(FollowupDoc(NoContextAnswer, q.url, settings.voice)), NoContext, contexts)
    else
      var context := ContextOf(q.callSid, contexts[q.callSid]);
      if |context.conversation| >= settings.maxFollowupTurns * 2 then
        FollowupResult(Xml(GoodbyeDoc(LimitReachedText, settings.voice)), LimitReached, contexts)
      else
        var answer := AnswerFollowup(q.speech, context.messages, context.summary, settings.hasOpenAiKey, reply, stamp);
        FollowupResult(Xml(FollowupDoc(answer, q.url, settings.voice)), Answered,
                       contexts[q.callSid := WithTurns(contexts[q.callSid], q.speech, answer)])
  }

  /**
   * Only an answered followup changes the store; a failed signature is a 403,
   * empty speech is re-prompted, an end keyword says goodbye whether or not
   * the call has a context, and a call without a context is told so.
   */
  lemma FollowupGates(contexts: map<string, ContextRow>, settings: Settings, q: FollowupRequest,
                      reply: ModelReply, stamp: int -> string)
    requires AllDecode(contexts)
    ensures var r := FollowupSpec(contexts, settings, q, reply, stamp);
            && (!r.path.Answered? ==> r.contexts == contexts)
            && (r.path.Refused? <==> !q.accepted)
            && (r.path.Refused? <==> r.resp == Forbidden)
            && (r.path.Reprompted? <==> q.accepted && q.speech == "")
            && (r.path.SaidGoodbye? <==> q.accepted && q.speech != "" && ShouldEnd(q.speech))
            && (r.path.NoContext? <==> q.accepted && q.speech != "" && !ShouldEnd(q.speech) && q.callSid !in contexts)
            && (r.path.LimitReached? ==> q.callSid in contexts
                                         && |contexts[q.callSid].conversationJson| >= 2 * settings.maxFollowupTurns)
            && (r.path.Reprompted? ==> r.resp == Xml(FollowupDoc(NotUnderstood, q.url, settings.voice)))
            && (r.path.SaidGoodbye? ==> r.resp == Xml(GoodbyeDoc(DefaultGoodbye, settings.voice)))
            && (r.path.NoContext? ==> r.resp == Xml(FollowupDoc(NoContextAnswer, q.url, settings.voice)))
            && (r.path.LimitReached? ==> r.resp == Xml(GoodbyeDoc(LimitReachedText, settings.voice)))
  {
  }

  /**
   * An answered followup appends exactly two turns to its own call's
   * conversation, the caller's question and then the assistant's answer,
   * speaks that answer, and leaves every other call's context alone.
   */
  lemma {:induction false} FollowupAppendsTwoTurns(contexts: map<string, ContextRow>, settings: Settings,
                                                   q: FollowupRequest, reply: ModelReply, stamp: int -> string)
    requires AllDecode(contexts)
    requires FollowupSpec(contexts, settings, q, reply, stamp).path.Answered?
    ensures var r := FollowupSpec(contexts, settings, q, reply, stamp);
            && q.callSid in contexts && r.contexts.Keys == contexts.Keys
            && (forall other :: other in contexts && other != q.callSid ==> r.contexts[other] == contexts[other])
            && AllDecode(r.contexts)
            && var before := ContextOf(q.callSid, contexts[q.callSid]);
               var answer := AnswerFollowup(q.speech, before.messages, before.summary,
                                            settings.hasOpenAiKey, reply, stamp);
               && |before.conversation| < 2 * settings.maxFollowupTurns
               && r.resp == Xml(FollowupDoc(answer, q.url, settings.voice))
               && ContextOf(q.callSid, r.contexts[q.callSid])
                  == before.(conversation := before.conversation
                                               + [ConversationTurn("caller", q.speech),
                                                  ConversationTurn("assistant", answer)])
  {
    var r := FollowupSpec(contexts, settings, q, reply, stamp);
    var sid := q.callSid;
    var row := contexts[sid];
    var before := ContextOf(sid, row);
    var answer := AnswerFollowup(q.speech, before.messages, before.summary, settings.hasOpenAiKey, reply, stamp);
    var caller := ConversationTurn("caller", q.speech);
    var assistant := ConversationTurn("assistant", answer);
    AppendedTurnReadsBack(row.conversationJson, caller);
    AppendedTurnReadsBack(row.conversationJson + [TurnToDict(caller)], assistant);
    assert row.conversationJson + [TurnToDict(caller)] + [TurnToDict(assistant)]
        == WithTurns(row, q.speech, answer).conversationJson;
    assert r.contexts == contexts[sid := WithTurns(row, q.speech, answer)];
  }

  /** A followup keeps every conversation even and within the turn limit. */
  lemma FollowupKeepsBound(contexts: map<string, ContextRow>, settings: Settings, q: FollowupRequest,
                           reply: ModelReply, stamp: int -> string)
    requires AllDecode(contexts)
    requires ConversationsBounded(contexts, settings.maxFollowupTurns)
    ensures ConversationsBounded(FollowupSpec(contexts, settings, q, reply, stamp).contexts, settings.maxFollowupTurns)
  {
    var r := FollowupSpec(contexts, settings, q, reply, stamp);
    if r.path.Answered? {
      var row := contexts[q.callSid];
      var before := ContextOf(q.callSid, row);
      var answer := AnswerFollowup(q.speech, before.messages, before.summary, settings.hasOpenAiKey, reply, stamp);
      assert |before.conversation| < settings.maxFollowupTurns * 2;
      assert r.contexts == contexts[q.callSid := WithTurns(row, q.speech, answer)];
      BoundedAfterTwoTurns(contexts, q.callSid, q.speech, answer, settings.maxFollowupTurns);
    }
  }

  /** One more question and answer in a conversation below the limit keeps every conversation bounded. */
  lemma BoundedAfterTwoTurns(contexts: map<string, ContextRow>, sid: string, question: string, answer: string,
                             maxTurns: int)
    requires ConversationsBounded(contexts, maxTurns) && sid in contexts
    requires |contexts[sid].conversationJson| < 2 * maxTurns
    ensures ConversationsBounded(contexts[sid := WithTurns(contexts[sid], question, answer)], maxTurns)
  {
    RoomForTwoTurns(|contexts[sid].conversationJson|, maxTurns);
  }

  /** twilio_voice_followup */
  method Followup(store: SqliteStore, settings: Settings, req: Request, form: Form, validator: Validator,
                  reply: ModelReply, stamp: int -> string)
    returns (resp: HttpResponse)
    requires store.Valid()
    modifies store`contexts
    ensures store.Valid()
    ensures AllDecode(old(store.contexts))
    ensures var r := FollowupSpec(old(store.contexts), settings, ReadFollowup(settings, req, form, validator), reply, stamp);
            resp == r.resp && store.contexts == r.contexts
  {
    ghost var q := ReadFollowup(settings, req, form, validator);
    ghost var contexts := store.contexts;
    var ok := ValidateTwilioSignature(req, form, settings.security, validator);
    if !ok {
      return Forbidden;
    }
    var callSid := CallSid(form);
    var speech := SpeechResult(form);
    var followupUrl := FollowupUrl(req, settings);
    if speech == "" {
      var twiml := FollowupResponse(NotUnderstood, followupUrl, settings.voice);
      return Xml(twiml);
    }
    if ShouldEnd(speech) {
      var twiml := GoodbyeResponse(DefaultGoodbye, settings.voice);
      return Xml(twiml);
    }
    var context := store.GetCallContext(callSid);
    if context.None? {
      var twiml := FollowupResponse(NoContextAnswer, followupUrl, settings.voice);
      return Xml(twiml);
    }
    if |context.value.conversation| >= settings.maxFollowupTurns * 2 {
      var twiml := GoodbyeResponse(LimitReachedText, settings.voice);
      return Xml(twiml);
    }
    var twiml := AnswerAndRecord(store, settings, callSid, speech, context.value, followupUrl, reply, stamp);
    resp := Xml(twiml);
    assert FollowupSpec(contexts, settings, q, reply, stamp)
        == FollowupResult(resp, Answered, store.contexts) by {
      assert q == FollowupRequest(true, callSid, speech, followupUrl);
      assert context.value == ContextOf(callSid, contexts[callSid]);
    }
  }

  /** The row after a followup recorded the caller's question and the assistant's answer. */
  function WithTurns(row: ContextRow, question: string, answer: string): ContextRow {
    row.(conversationJson := row.conversationJson
           + [TurnToDict(ConversationTurn("caller", question)), TurnToDict(ConversationTurn("assistant", answer))])
  }

  /**
   * The tail of an answered followup: record the caller's turn, answer,
   * record the assistant's turn, speak the answer.
   */
  method AnswerAndRecord(store: SqliteStore, settings: Settings, callSid: string, speech: string,
                         context: CallContext, followupUrl: string, reply: ModelReply, stamp: int -> string)
    returns (twiml: seq<Verb>)
    requires store.Valid() && callSid in store.contexts
    modifies store`contexts
    ensures store.Valid()
    ensures var answer := AnswerFollowup(speech, context.messages, context.summary, settings.hasOpenAiKey, reply, stamp);
            && store.contexts == old(store.contexts)[callSid := WithTurns(old(store.contexts)[callSid], speech, answer)]
            && twiml == FollowupDoc(answer, followupUrl, settings.voice)
  {
    ghost var row := store.contexts[callSid];
    var _ := store.AppendConversationTurn(callSid, "caller", speech);
    var answer := AnswerFollowup(speech, context.messages, context.summary, settings.hasOpenAiKey, reply, stamp);
    var _ := store.AppendConversationTurn(callSid, "assistant", answer);
    assert store.contexts[callSid] == WithTurns(row, speech, answer);
    twiml := FollowupResponse(answer, followupUrl, settings.voice);
  }

  /**
   * The same incoming webhook delivered twice within the TTL: when the first
   * delivery saved a context, the second finds it and replies with the same
   * document, without syncing, saving or marking anything.
   */
  method IncomingTwice(store: SqliteStore, settings: Settings, req: Request, form: Form, validator: Validator,
                       pages: seq<Page>, reply: ModelReply, stamp: int -> string, now: int, later: int)
    returns (first: HttpResponse, second: HttpResponse, ghost firstPath: IncomingPath, ghost secondPath: IncomingPath)
    requires store.Valid()
    requires later <= now + settings.ttlMinutes * 60
    modifies store`messages, store`nextId, store`offsetRow, store`contexts
    ensures store.Valid()
    ensures firstPath.Fresh? ==> secondPath.Replayed? && second == first
  {
    ghost var s1, s2, r1, r2;
    first, firstPath, s1, r1 := Incoming(store, settings, req, form, validator, pages, reply, stamp, now);
    ghost var contexts1 := store.contexts;
    second, secondPath, s2, r2 := Incoming(store, settings, req, form, validator, pages, reply, stamp, later);
    if firstPath.Fresh? {
      var sid := CallSid(form);
      var listed := UnreadMessages(s1, settings.maxMessagesPerCall, settings.allowedChatId);
      var summary := SummarizeMessages(listed, settings.hasOpenAiKey, reply, stamp);
      assert contexts1[sid] == FreshContext(summary, listed, now);
      assert sid in Swept(contexts1, settings, later);
      assert Swept(contexts1, settings, later)[sid] == FreshContext(summary, listed, now);
    }
  }
}
