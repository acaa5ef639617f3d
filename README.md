# AI Messenger Voicemail — a verified model of its core

The service collects Telegram text messages into a SQLite store. When the
user calls, a Twilio voice webhook reads them a summary of the unread
messages. The caller can then ask follow-up questions by voice until they say
an end keyword or reach the turn limit.

This project models the core of that service in Dafny:

- `SqliteStore` (store.dfy) is a class over three tables:
  - the polling offset row;
  - the message table, deduplicated by Telegram update id, with a read flag;
  - the call contexts, keyed by call SID.
- `sync_updates` (telegram.dfy) polls Telegram from the stored offset until it
  gets an empty batch. It stores every usable text message once and then
  persists the highest update id it saw.
- The LLM service (llm.dfy) has guard branches and deterministic fallbacks:
  - the numbered fallback summary;
  - the follow-up fallback that resolves "Nachricht n" with the leftmost match
    of the same regular expression the source uses.
- The voice service (voice.dfy) holds the end-keyword test and the three TwiML
  documents, built verb by verb on a `VoiceResponse` object.
- The signature gate (security.dfy) includes the public URL that Twilio signed
  and the form parameters handed to the validator.
- The two webhooks (app.dfy) are methods over the store. The followup webhook
  is specified by a function of the stored contexts (`FollowupSpec`).

Python's string built-ins that the core relies on are in text.dfy:

- `strip`, `lower`, substring `in`;
- `str(int)` and `int(str)`;
- `replace`, `rstrip("/")`, `join`.

The dictionary forms of the records are in models.dfy. Instants are whole
seconds since the epoch.

Parameters stand for the outside world. The store's invariant `Valid` keeps:

- ids unique and below the autoincrement counter;
- update ids unique;
- every stored call context decodable.

| outside world | parameter |
|---|---|
| Telegram's answers | a script of pages: past its end, Telegram answers with an empty batch |
| the language model | a `ModelReply` plus whether a client is configured |
| Twilio's HMAC check | a `Validator` function |
| the strftime rendering | a `stamp` function |
| the clock | `now` |

## Model

| member | source | states |
|---|---|---|
| Models.MessageToDict | src/ai_messenger_voicemail/models.py:18-21 | the dictionary has exactly the six dataclass keys |
| Models.MessageRoundTrip | src/ai_messenger_voicemail/models.py:18-32 | from_dict(to_dict(m)) gives back m, timestamp included |
| Models.TurnToDict | src/ai_messenger_voicemail/models.py:40-41 | exactly the keys role and text, holding the turn's role and text |
| Models.TurnRoundTrip | src/ai_messenger_voicemail/store.py:203-206 | a turn written by to_dict is rebuilt unchanged by the store's reader |
| Models.AsPromptLine | src/ai_messenger_voicemail/models.py:14-16 | the line starts with "index. sender \| ", ends with " \| text", and its length is the parts plus the separators |
| Text.Strip | src/ai_messenger_voicemail/services/telegram_service.py:65 | the result is empty exactly when the text is all whitespace; otherwise it starts and ends with non-whitespace; text already stripped is unchanged |
| Text.Lower | src/ai_messenger_voicemail/services/voice_service.py:11 | lowering keeps the length |
| Text.Contains | src/ai_messenger_voicemail/services/voice_service.py:13 | `k in s` holds exactly when k occurs in s at some index |
| Text.NatToDecimal | src/ai_messenger_voicemail/services/llm_service.py:118 | str(n) is non-empty digits without a leading zero |
| Text.IntToDecimal | src/ai_messenger_voicemail/services/llm_service.py:118 | str(i) is non-empty and neither starts nor ends with whitespace |
| Text.ParseNatOfDecimal | src/ai_messenger_voicemail/services/llm_service.py:124 | reading the digits of str(n) gives n |
| Text.DecimalRoundTrip | src/ai_messenger_voicemail/store.py:75 | parsing str(i) gives back i, negatives included |
| Text.PyInt | src/ai_messenger_voicemail/models.py:26-28 | int() accepts exactly an optional sign and at least one digit between surrounding whitespace; a negative result comes from a leading "-" |
| Text.PyIntOfDecimal | src/ai_messenger_voicemail/store.py:82 | int(str(i)) == i, so the offset stored as text reads back unchanged |
| Text.ReplaceNewlines | src/ai_messenger_voicemail/services/llm_service.py:115 | replace("\n", " ") keeps the length and leaves no newline |
| Text.RStripSlash | src/ai_messenger_voicemail/security.py:10 | the result is a prefix, only slashes were removed, and it does not end in a slash |
| Store.DecodeMessages | src/ai_messenger_voicemail/store.py:202 | one message per stored dictionary |
| Store.EncodeMessages | src/ai_messenger_voicemail/store.py:176 | the messages_json column decodes back to exactly the saved messages |
| Store.DecodeTurns | src/ai_messenger_voicemail/store.py:203-206 | one turn per stored dictionary |
| Store.AppendedTurnReadsBack | src/ai_messenger_voicemail/store.py:218-228 | appending a turn's dictionary appends exactly that turn to what is read back |
| Store.SavedContextReadsBack | src/ai_messenger_voicemail/store.py:155-208 | a freshly saved context reads back with the saved summary and messages and no turns |
| Store.Sweep | src/ai_messenger_voicemail/store.py:230-236 | the remaining contexts are exactly those created at or after the cutoff, unchanged |
| Store.SweepCount | src/ai_messenger_voicemail/store.py:237 | the deleted count equals the number of stale contexts and the drop in table size |
| Store.ExpiryWindow | src/ai_messenger_voicemail/store.py:230-236 | a context survives the sweep exactly when now is within ttl minutes of its creation |
| Store.FilterUnread | src/ai_messenger_voicemail/store.py:117-124 | the WHERE clause: exactly the unread rows of the allowed chat |
| Store.SortByTsDescSpec | src/ai_messenger_voicemail/store.py:125 | ORDER BY ts DESC yields the same rows (as a multiset), newest first |
| Store.LimitSpec | src/ai_messenger_voicemail/store.py:125 | LIMIT keeps a prefix of min(limit, length) rows, all of them for a negative limit; of a newest-first sequence it keeps the newest |
| Store.SelectUnreadSpec | src/ai_messenger_voicemail/store.py:117-129 | the query returns selectable rows newest first: min(limit, number selectable) of them, every selectable row when fewer than the limit are returned or the limit is negative, and no skipped row is newer than a returned one |
| Store.RowsToMessages | src/ai_messenger_voicemail/store.py:131-143 | one message per row |
| Store.UnreadMessagesSpec | src/ai_messenger_voicemail/store.py:111-143 | the listing holds only unread messages of the allowed chat, newest first, min(limit, number unread) of them; a listing shorter than the limit holds every unread message of the chat; no unread message left out is newer than one listed |
| Store.MarkRead | src/ai_messenger_voicemail/store.py:150-153 | the table keeps its size |
| Store.MarkReadSpec | src/ai_messenger_voicemail/store.py:145-153 | exactly the listed ids leave the unread set; update ids and message content are unchanged; an empty list changes nothing |
| Store.SqliteStore.constructor | src/ai_messenger_voicemail/store.py:26-62 | a new database has empty tables and the offset row holding 0 |
| Store.SqliteStore.GetTelegramOffset | src/ai_messenger_voicemail/store.py:68-75 | the stored offset, or 0 when the row is missing |
| Store.SqliteStore.SetTelegramOffset | src/ai_messenger_voicemail/store.py:77-83 | the offset row holds the new value, whatever it was before |
| Store.SqliteStore.StoreMessage | src/ai_messenger_voicemail/store.py:85-109 | inserted exactly when the update id is new; a new row is unread with the next id; a duplicate changes nothing |
| Store.AppendRowKeepsKeys | src/ai_messenger_voicemail/store.py:95-109 | inserting a row with the next id and a new update id keeps id and update id unique and adds exactly that update id |
| Store.SqliteStore.ListUnreadMessages | src/ai_messenger_voicemail/store.py:111-143 | the loop builds exactly the listing of the query |
| Store.SqliteStore.MarkMessagesRead | src/ai_messenger_voicemail/store.py:145-153 | the rows become MarkRead of the ids; an empty list returns early with nothing changed |
| Store.SqliteStore.SaveCallContext | src/ai_messenger_voicemail/store.py:155-180 | the upsert replaces the call's row with a fresh context (new summary, messages and creation time, no turns) |
| Store.SqliteStore.GetCallContext | src/ai_messenger_voicemail/store.py:182-208 | None for an unknown call, else the decoded stored row |
| Store.SqliteStore.AppendConversationTurn | src/ai_messenger_voicemail/store.py:210-228 | an unknown call gives [] and no change; otherwise exactly one turn is appended to that row and the whole conversation is returned |
| Store.SqliteStore.CleanupStaleCallContexts | src/ai_messenger_voicemail/store.py:230-237 | the table becomes the sweep at now minus ttl, and the result is the number of rows deleted |
| Telegram.SenderName | src/ai_messenger_voicemail/services/telegram_service.py:69-81 | the username if non-empty, else the non-empty first and last names joined by a space, else "Unbekannt"; never empty |
| Telegram.Accept | src/ai_messenger_voicemail/services/telegram_service.py:50-92 | an update is stored exactly when its id is positive, it has a message with a text key and a non-zero chat id, and the stripped text is not empty; the stored fields come from it |
| Telegram.SeenMaxBounds | src/ai_messenger_voicemail/services/telegram_service.py:25-55 | the maximum never drops below the starting offset, covers every positive id seen, and is the start or one of those ids |
| Telegram.SyncNeverLowersOffset | src/ai_messenger_voicemail/services/telegram_service.py:25-98 | a successful sync never lowers the stored offset |
| Telegram.AcceptedIdsSeen | src/ai_messenger_voicemail/services/telegram_service.py:50-55 | every stored update id is positive and at most the maximum persisted afterwards |
| Telegram.SyncUpdate | src/ai_messenger_voicemail/services/telegram_service.py:49-94 | one update raises the maximum only by a larger positive id and adds at most the accepted candidate as an unread row |
| Telegram.SyncBatch | src/ai_messenger_voicemail/services/telegram_service.py:49-94 | after a batch, the stored update ids are the old ones plus the accepted ones, old rows are kept, every new row is an unread accepted candidate, and the maximum is the running maximum over the batch |
| Telegram.SeenMaxConcat | src/ai_messenger_voicemail/services/telegram_service.py:49-55 | walking two runs of updates one after the other gives the same maximum as walking them together |
| Telegram.PageError | src/ai_messenger_voicemail/services/telegram_service.py:37-47 | a page fails exactly when it is not a batch of updates; a transport failure reads "Telegram API nicht erreichbar: " and the transport message, ok false reads "Telegram API Fehler: " and the description or "Unknown Telegram error" |
| Telegram.OffsetsSpec | src/ai_messenger_voicemail/services/telegram_service.py:30-55 | request p carries offset 1 + the highest positive id among all updates of the pages before it |
| Telegram.SyncPage | src/ai_messenger_voicemail/services/telegram_service.py:45-94 | syncing page i extends the walk by that page: rows and maximum become those of the first i + 1 pages |
| Telegram.PollPage | src/ai_messenger_voicemail/services/telegram_service.py:30-96 | one request: the loop goes on exactly when the page is a non-empty batch, which is synced; otherwise it stops with the page's error ("Telegram API nicht erreichbar: " and the transport message, or "Telegram API Fehler: " and the description or "Unknown Telegram error"), none for an empty batch |
| Telegram.PollPages | src/ai_messenger_voicemail/services/telegram_service.py:30-96 | request p carries offset 1 + the highest id seen before it; every page before the last request was a non-empty batch; the loop ends on an empty batch (no failure) or the first failed page (its PageError); rows and maximum are those of the walk over the earlier pages |
| Telegram.SyncUpdates | src/ai_messenger_voicemail/services/telegram_service.py:17-99 | no token: 0 and no change; success: the offset becomes the highest id seen and the result is the number of new rows; failure: the reason is the failed page's error, the offset row is unchanged, and rows already stored remain |
| Llm.Preview | src/ai_messenger_voicemail/services/llm_service.py:115-117 | at most 120 characters without newlines; longer text becomes its first 117 characters plus "..." |
| Llm.SummarySegment | src/ai_messenger_voicemail/services/llm_service.py:118 | the line starts "Nachricht i: sender -> " and ends " -> preview." |
| Llm.FallbackSummary | src/ai_messenger_voicemail/services/llm_service.py:111-119 | the loop produces the segments joined by single spaces |
| Llm.JoinStartsWithFirst | src/ai_messenger_voicemail/services/llm_service.py:119 | a join starts with its first part |
| Llm.JoinEndsWithLast | src/ai_messenger_voicemail/services/llm_service.py:119 | a join ends with its last part |
| Llm.FallbackSummaryOpens | src/ai_messenger_voicemail/services/llm_service.py:111-119 | with messages, the fallback summary opens with "Nachricht 1: " and the first sender |
| Llm.FallbackSummaryCloses | src/ai_messenger_voicemail/services/llm_service.py:111-119 | with messages, the fallback summary closes with the preview of the last message |
| Llm.SummarizeMessages | src/ai_messenger_voicemail/services/llm_service.py:18-58 | the fixed text without messages; the model's stripped reply when a client exists, the call returns and the reply is not blank; otherwise the fallback; never empty |
| Llm.FirstNumberRef | src/ai_messenger_voicemail/services/llm_service.py:122-124 | re.search semantics: no match exactly when the pattern matches nowhere, else the number captured at the leftmost match |
| Llm.QuoteMessage | src/ai_messenger_voicemail/services/llm_service.py:126-128 | the answer starts "Nachricht n von sender um " and ends with ": " and the full message text |
| Llm.MissingMessage | src/ai_messenger_voicemail/services/llm_service.py:129 | the answer names the number asked for ("Ich finde Nachricht n nicht.") and ends with the message count |
| Llm.AsksForRepeat | src/ai_messenger_voicemail/services/llm_service.py:131 | true exactly when "wiederhol", "zusammenfass" or "nochmal" occurs somewhere in the lowered question |
| Llm.FallbackFollowup | src/ai_messenger_voicemail/services/llm_service.py:121-134 | the first "nachricht"/"nummer" reference n is answered first: message n quoted when 1 <= n <= count, else the not-found notice; without one, a repeat keyword repeats the summary, else the hint text; never empty |
| Llm.NumberRefOfDecimal | src/ai_messenger_voicemail/services/llm_service.py:122-124 | the lowered question "Nachricht n" references message n |
| Llm.QuotesReferencedMessage | src/ai_messenger_voicemail/services/llm_service.py:122-128 | "Nachricht n" with 1 <= n <= count is answered by quoting message n |
| Llm.ReportsMissingMessage | src/ai_messenger_voicemail/services/llm_service.py:122-129 | "Nachricht n" beyond the count gets the not-found notice naming n and the count |
| Llm.AnswerFollowup | src/ai_messenger_voicemail/services/llm_service.py:60-109 | the fixed text without messages; the model's stripped reply when usable; otherwise the fallback; never empty |
| Voice.ShouldEnd | src/ai_messenger_voicemail/services/voice_service.py:10-13 | the call ends exactly when some end keyword occurs anywhere in the lowered text; stripping never changes the answer |
| Voice.OccursInStripped | src/ai_messenger_voicemail/services/voice_service.py:11 | stripping does not change whether a keyword occurs |
| Voice.StripBounds | src/ai_messenger_voicemail/services/voice_service.py:11 | the stripped text is the slice of the text between a leading and a trailing run of whitespace |
| Voice.EndsOnEmbeddedKeyword | src/ai_messenger_voicemail/services/voice_service.py:13 | a keyword inside another word ("Kalender") also ends the call |
| Voice.VoiceResponse.constructor | src/ai_messenger_voicemail/services/voice_service.py:16 | a new document has no verbs |
| Voice.VoiceResponse.AddSay | src/ai_messenger_voicemail/services/voice_service.py:18-22 | appends one Say with the configured language and voice |
| Voice.VoiceResponse.AddPause | src/ai_messenger_voicemail/services/voice_service.py:23 | appends one Pause |
| Voice.VoiceResponse.Append | src/ai_messenger_voicemail/services/voice_service.py:36 | appends the given verb |
| Voice.VoiceResponse.AddHangup | src/ai_messenger_voicemail/services/voice_service.py:42 | appends one Hangup |
| Voice.FollowupGather | src/ai_messenger_voicemail/services/voice_service.py:91-99 | a speech Gather POSTing to the action URL and holding the prompt |
| Voice.IncomingDoc | src/ai_messenger_voicemail/services/voice_service.py:15-56 | ends in a hangup; gathers a question exactly when there are messages; speaks the summary |
| Voice.FollowupDoc | src/ai_messenger_voicemail/services/voice_service.py:58-79 | speaks the answer, gathers the next question, ends in a hangup |
| Voice.GoodbyeDoc | src/ai_messenger_voicemail/services/voice_service.py:81-89 | speaks the text and hangs up, with no gather |
| Voice.IncomingResponse | src/ai_messenger_voicemail/services/voice_service.py:15-56 | the verbs added one by one form IncomingDoc |
| Voice.FollowupResponse | src/ai_messenger_voicemail/services/voice_service.py:58-79 | the verbs added one by one form FollowupDoc |
| Voice.GoodbyeResponse | src/ai_messenger_voicemail/services/voice_service.py:81-89 | the verbs added one by one form GoodbyeDoc |
| Voice.EveryResponseHangsUp | src/ai_messenger_voicemail/services/voice_service.py:42-88 | every document ends the call |
| Security.ResolvePublicBaseUrl | src/ai_messenger_voicemail/security.py:8-14 | the configured base without trailing slashes; otherwise the forwarded or own scheme followed by "://" |
| Security.DerivedHost | src/ai_messenger_voicemail/security.py:12-14 | the host is the first non-empty of the forwarded host, the host header and the URL's netloc |
| Security.ConfiguredBaseIgnoresRequest | src/ai_messenger_voicemail/security.py:9-10 | with a configured base, the request does not matter |
| Security.TargetPath | src/ai_messenger_voicemail/security.py:19-21 | the given or the request's path, always with a leading "/" |
| Security.BuildPublicUrl | src/ai_messenger_voicemail/security.py:17-26 | base + path, plus "?query" only when no path was passed and the query is not empty |
| Security.FormGet | src/ai_messenger_voicemail/security.py:43 | the value of the last field with that name; None when there is none |
| Security.RepeatedFieldTakesLast | src/ai_messenger_voicemail/security.py:43 | a field sent twice reads as its second value |
| Security.FormParamsSpec | src/ai_messenger_voicemail/security.py:41-46 | every parameter name is a field name; a name is a parameter exactly when its last field has a value, and the parameter is that value |
| Security.CollectParams | src/ai_messenger_voicemail/security.py:41-46 | the loop builds exactly FormParams |
| Security.SignatureAccepted | src/ai_messenger_voicemail/security.py:29-48 | accepted when validation is off; refused without a token or signature; otherwise the validator's verdict on the signed URL and parameters |
| Security.ValidateTwilioSignature | src/ai_messenger_voicemail/security.py:29-48 | returns exactly SignatureAccepted |
| App.FormText | src/ai_messenger_voicemail/app.py:109-110 | the default when the field is absent, else the last field's value |
| App.BoundedAfterSave | src/ai_messenger_voicemail/app.py:61-92 | the sweep and a fresh context keep every conversation within the turn bound |
| App.SummarizeAndSave | src/ai_messenger_voicemail/app.py:74-100 | saves a fresh context with the summary of the listing, marks exactly the listed ids read, and announces the summary |
| App.ReplayOrSummarize | src/ai_messenger_voicemail/app.py:62-100 | replays a stored context without syncing; a failed sync stores exactly the accepted updates of the pages before the failed one and gives the unavailable notice without saving; a successful sync stores the accepted updates and moves the offset to the highest id seen (no token: nothing changes), then summarise and save |
| App.Incoming | src/ai_messenger_voicemail/app.py:52-100 | 403 with no change exactly when the signature fails; then a sweep, and a replay, degraded or fresh reply with the sync effects as above; the stored offset never decreases; conversations stay within the bound |
| App.ReadFollowup | src/ai_messenger_voicemail/app.py:105-111 | the signature verdict, the call SID, the stripped speech and the followup URL |
| App.FollowupGates | src/ai_messenger_voicemail/app.py:103-140 | only an answered followup changes the store; each earlier branch is taken exactly under its condition, in the handler's order, with its fixed reply |
| App.FollowupAppendsTwoTurns | src/ai_messenger_voicemail/app.py:134-156 | an answered followup was below the limit, appends the caller's then the assistant's turn to its own call only, and speaks the answer |
| App.FollowupKeepsBound | src/ai_messenger_voicemail/app.py:134-150 | a followup keeps every conversation even and within twice max_followup_turns |
| App.FollowupSpec | src/ai_messenger_voicemail/app.py:102-156 | a followup never creates or deletes a call context and never touches another call's context |
| App.Followup | src/ai_messenger_voicemail/app.py:102-156 | the reply and new contexts are those of FollowupSpec on the stored contexts |
| App.AnswerAndRecord | src/ai_messenger_voicemail/app.py:142-156 | records the question, answers, records the answer, and speaks it |
| App.IncomingTwice | src/ai_messenger_voicemail/app.py:62-70 | a redelivered incoming webhook within the TTL, after a fresh first delivery, replays the same document |

## Left out

- `/healthz`, `/readyz`, `/telegram/sync` and `ping` are not modelled. They only report status and do not change state the model keeps.
- Settings loading and validation (config.py) are not part of this model; the handlers do not rely on the documented bounds.
- HTTP, JSON text and XML rendering are not modelled. The Telegram exchange is a script of pages, and the request body's poll limit and timeout are not modelled. JSON columns are kept as dictionaries. TwiML is kept as a sequence of verbs.
- The HMAC computation of twilio's RequestValidator is not modelled. It is a parameter.
- The language model call and its prompts are not modelled; `ModelReply.Raised` stands for a call that raises, and the kind and text of the exception are not modelled. The conversation history only shapes the prompt and is not modelled.
- datetime and strftime are not modelled. An instant is whole seconds, and strftime is the `stamp` parameter. isoformat is a decimal rendering with a proved inverse. A round trip says nothing about order: ORDER BY ts and the `created_at < cutoff` test compare ISO strings as text, which agrees with chronological order for strings of one format. The model compares the instants themselves.
- ISO strings of mixed formats (with and without microseconds, or with different UTC offsets) are not modelled. Their text order can differ from their chronological order.
- Text.Lower covers ASCII and Latin-1 capitals only. The regex class `\d` is ASCII digits only. Python's Unicode tables are not modelled.
- Text.PyInt: underscores between digits are not accepted, although Python's int() accepts them.
- App.ReplayOrSummarize: listing and summarising never raise in the model, so only a failed sync reaches the degraded branch.
- App.FormText: the value of a field is a string or missing. str() of an upload or another non-string value is not modelled; a field without a value reads as "None".
- App.Incoming: one `now` serves both the sweep and the save of the fresh context. The source reads the clock twice (store.py:161 and store.py:231), so the instants may differ by the time the handler takes.
- Telegram.PageError: a "description" that is present but null renders as "None" in the source; the model knows only a present text or an absent key. A reply body that is not JSON is not modelled.
- Store.SortByTsDescSpec: rows with equal timestamps keep table order. SQLite leaves their order unspecified.
- Concurrency between webhook requests and SQLite transactions is not modelled. Each method runs alone.
- Logging is not modelled.
