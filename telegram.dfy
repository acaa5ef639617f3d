/**
 * TelegramService.sync_updates: poll getUpdates from the stored offset until
 * Telegram answers with an empty batch, store every usable text message once,
 * then persist the highest update id seen.
 *
 * The HTTP exchange is replaced by a script of pages: page i is the answer
 * to the i-th getUpdates request, and past the end of the script Telegram
 * answers with an empty batch. The method reports the offsets it requested,
 * so the contract can say which offset every request carried.
 */
module Telegram {
  import opened Wrappers
  import opened Text
  import opened Store

  /** The "from" object of a message; a missing field is None. */
  datatype Sender = Sender(username: Option<string>, firstName: Option<string>, lastName: Option<string>)

  /**
   * A message object: `text` is None when the key is missing, `chatId` is 0
   * when the chat or its id is missing, `date` is 0 when missing.
   */
  datatype Message = Message(text: Option<string>, chatId: int, from: Sender, date: int)

  /** One update; `message` is None when it is missing or not an object. */
  datatype Update = Update(updateId: int, message: Option<Message>)

  /** The answer to one getUpdates request. */
  datatype Page =
    | Updates(updates: seq<Update>)   // ok: true, with the result list
    | NotOk(description: Option<string>)  // ok: false, with the description field if present
    | HttpFailure(reason: string)          // transport error or non-2xx status, with its message

  /** What sync_updates hands to store_message for one accepted update. */
  datatype Candidate = Candidate(updateId: int, chatId: int, sender: string, date: int, text: string)

  /** username, else the non-empty first and last names joined by a space, else "Unbekannt". */
  function SenderName(from: Sender): (name: string)
    ensures name != ""
    ensures Truthy(from.username) ==> name == from.username.value
    ensures !Truthy(from.username) && Truthy(from.firstName) && Truthy(from.lastName) ==>
              name == from.firstName.value + " " + from.lastName.value
    ensures !Truthy(from.username) && Truthy(from.firstName) && !Truthy(from.lastName) ==>
              name == from.firstName.value
    ensures !Truthy(from.username) && !Truthy(from.firstName) && Truthy(from.lastName) ==>
              name == from.lastName.value
    ensures !Truthy(from.username) && !Truthy(from.firstName) && !Truthy(from.lastName) ==>
              name == "Unbekannt"
  {
    if Truthy(from.username) then from.username.value
    else
      var parts := (if Truthy(from.firstName) then [from.firstName.value] else [])
                 + (if Truthy(from.lastName) then [from.lastName.value] else []);
      var joined := Join(" ", parts);
      assert |parts| == 2 ==> joined == Join(" ", parts[..1]) + " " + parts[1] && parts[..1] == [parts[0]];
      if joined != "" then joined else "Unbekannt"
  }

  /**
   * The filters of the update loop: a positive update id, a message object
   * with a text key, a non-zero chat id and a text that is not blank. The
   * stored text is the stripped one.
   */
  function Accept(u: Update): (c: Option<Candidate>)
    ensures c.Some? <==> && u.updateId > 0 && u.message.Some? && u.message.value.text.Some?
                         && u.message.value.chatId != 0 && Strip(u.message.value.text.value) != ""
    ensures c.Some? ==> && c.value.updateId == u.updateId
                        && c.value.chatId == u.message.value.chatId
                        && c.value.text == Strip(u.message.value.text.value)
                        && c.value.text != "" && !IsSpace(c.value.text[0])
                        && c.value.sender == SenderName(u.message.value.from)
                        && c.value.date == u.message.value.date
  {
    if u.updateId <= 0 || u.message.None? || u.message.value.text.None? then None
    else
      var m := u.message.value;
      var text := Strip(m.text.value);
      if m.chatId == 0 || text == "" then None
      else Some(Candidate(u.updateId, m.chatId, SenderName(m.from), m.date, text))
  }

  /** The answer to request i of the script; an empty batch past its end. */
  function FetchAt(pages: seq<Page>, i: nat): Page {
    if i < |pages| then pages[i] else Updates([])
  }

  /** The updates of a page; a failed page has none. */
  function UpdatesOf(page: Page): seq<Update> {
    if page.Updates? then page.updates else []
  }

  /** All updates of the first n pages, in order. */
  function Walked(pages: seq<Page>, n: nat): seq<Update>
    requires n <= |pages|
  {
    if n == 0 then [] else Walked(pages, n - 1) + UpdatesOf(pages[n - 1])
  }

  /** max_update_id after walking over us, starting from start: positive ids only. */
  function SeenMax(start: int, us: seq<Update>): int {
    if us == [] then start
    else
      var m := SeenMax(start, us[..|us| - 1]);
      var id := us[|us| - 1].updateId;
      if id > 0 && id > m then id else m
  }

  /** Walking a + b from start is walking b from where a left off. */
  lemma {:induction false} SeenMaxConcat(start: int, a: seq<Update>, b: seq<Update>)
    ensures SeenMax(start, a + b) == SeenMax(SeenMax(start, a), b)
  {
    if b != [] {
      var b' := b[..|b| - 1];
      assert (a + b)[..|a + b| - 1] == a + b';
      assert (a + b)[|a + b| - 1] == b[|b| - 1];
      SeenMaxConcat(start, a, b');
    } else {
      assert a + b == a;
    }
  }

  /** One more batch of the walk, in the terms of SeenMaxConcat. */
  lemma SeenMaxStep(start: int, done: seq<Update>, batch: seq<Update>, prev: int, m: int, walked: seq<Update>)
    requires prev == SeenMax(start, done) && m == SeenMax(prev, batch) && walked == done + batch
    ensures m == SeenMax(start, walked)
  {
    SeenMaxConcat(start, done, batch);
  }

  /** The offsets of the first n getUpdates requests: one more than the highest id seen before each. */
  function Offsets(start: int, pages: seq<Page>, n: nat): (offsets: seq<int>)
    requires n <= |pages| + 1
    ensures |offsets| == n
  {
    if n == 0 then [] else Offsets(start, pages, n - 1) + [SeenMax(start, Walked(pages, n - 1)) + 1]
  }

  lemma {:induction false} OffsetsAt(start: int, pages: seq<Page>, n: nat, p: nat)
    requires p < n <= |pages| + 1
    ensures Offsets(start, pages, n)[p] == SeenMax(start, Walked(pages, p)) + 1
  {
    var prev := Offsets(start, pages, n - 1);
    var last := SeenMax(start, Walked(pages, n - 1)) + 1;
    assert Offsets(start, pages, n) == prev + [last];
    if p < n - 1 {
      OffsetsAt(start, pages, n - 1, p);
      assert (prev + [last])[p] == prev[p];
    } else {
      assert (prev + [last])[p] == last;
    }
  }

  /** Request p carries the offset 1 + the highest update id of the pages before it. */
  lemma OffsetsSpec(start: int, pages: seq<Page>, n: nat)
    requires n <= |pages| + 1
    ensures forall p :: 0 <= p < n ==> Offsets(start, pages, n)[p] == SeenMax(start, Walked(pages, p)) + 1
  {
    forall p | 0 <= p < n ensures Offsets(start, pages, n)[p] == SeenMax(start, Walked(pages, p)) + 1 {
      OffsetsAt(start, pages, n, p);
    }
  }

  /** The first n pages were all non-empty batches. */
  predicate BatchesBefore(pages: seq<Page>, n: nat)
    requires n <= |pages|
  {
    forall p :: 0 <= p < n ==> pages[p].Updates? && pages[p].updates != []
  }

  /** The update ids handed to store_message while walking over us. */
  function AcceptedIds(us: seq<Update>): set<int> {
    if us == [] then {}
    else AcceptedIds(us[..|us| - 1]) + (if Accept(us[|us| - 1]).Some? then {us[|us| - 1].updateId} else {})
  }

  /** The candidates handed to store_message while walking over us. */
  function AcceptedCands(us: seq<Update>): set<Candidate> {
    if us == [] then {}
    else AcceptedCands(us[..|us| - 1]) + (if Accept(us[|us| - 1]).Some? then {Accept(us[|us| - 1]).value} else {})
  }

  function CandidateOf(r: MessageRow): Candidate {
    Candidate(r.telegramUpdateId, r.chatId, r.sender, r.ts, r.text)
  }

  /**
   * The stored offset never goes down, it covers every positive id seen, and
   * it is either the starting offset or one of those ids.
   */
  lemma {:induction false} SeenMaxBounds(start: int, us: seq<Update>)
    ensures SeenMax(start, us) >= start
    ensures forall u :: u in us && u.updateId > 0 ==> u.updateId <= SeenMax(start, us)
    ensures SeenMax(start, us) == start || exists u :: u in us && u.updateId > 0 && u.updateId == SeenMax(start, us)
  {
    if us != [] {
      var init := us[..|us| - 1];
      SeenMaxBounds(start, init);
      assert us == init + [us[|us| - 1]];
      if SeenMax(start, us) != start && SeenMax(start, us) == SeenMax(start, init) {
        var u :| u in init && u.updateId > 0 && u.updateId == SeenMax(start, init);
        assert u in us;
      }
    }
  }

  /** Every update id the walk stores is a positive id it has seen. */
  lemma {:induction false} AcceptedIdsSeen(start: int, us: seq<Update>)
    ensures forall id :: id in AcceptedIds(us) ==> 0 < id <= SeenMax(start, us)
  {
    if us != [] {
      var init := us[..|us| - 1];
      AcceptedIdsSeen(start, init);
      SeenMaxBounds(start, us);
      assert us[|us| - 1] in us;
      forall id | id in AcceptedIds(init) ensures id <= SeenMax(start, us) {
        assert SeenMax(start, init) <= SeenMax(start, us);
      }
    }
  }

  /**
   * Relates the message table before and after the walk over us: the old rows
   * are kept as a prefix, the stored update ids grow by exactly the accepted
   * ones, and every new row is an unread accepted candidate.
   */
  ghost predicate StoredFrom(before: seq<MessageRow>, after: seq<MessageRow>, us: seq<Update>) {
    && |before| <= |after| && after[..|before|] == before
    && UpdateIds(after) == UpdateIds(before) + AcceptedIds(us)
    && forall k :: |before| <= k < |after| ==>
         !after[k].isRead && CandidateOf(after[k]) in AcceptedCands(us)
  }

  /**
   * The effect of one update on the message table: the old rows are kept as
   * a prefix, the stored update ids grow by the update's id exactly when it
   * is accepted, and any new row is its unread candidate.
   */
  ghost predicate StoredOne(mid: seq<MessageRow>, after: seq<MessageRow>, u: Update) {
    && |mid| <= |after| && after[..|mid|] == mid
    && UpdateIds(after) == UpdateIds(mid) + (if Accept(u).Some? then {u.updateId} else {})
    && forall k :: |mid| <= k < |after| ==>
         !after[k].isRead && Accept(u).Some? && CandidateOf(after[k]) == Accept(u).value
  }

  /** A walk followed by the effect of one more update is the walk over one more update. */
  lemma StoredFromStep(before: seq<MessageRow>, mid: seq<MessageRow>, after: seq<MessageRow>,
                       us: seq<Update>, u: Update)
    requires StoredFrom(before, mid, us) && StoredOne(mid, after, u)
    ensures StoredFrom(before, after, us + [u])
  {
    var us' := us + [u];
    assert us'[..|us'| - 1] == us;
    assert AcceptedIds(us') == AcceptedIds(us) + (if Accept(u).Some? then {u.updateId} else {});
    forall k | |before| <= k < |after|
      ensures !after[k].isRead && CandidateOf(after[k]) in AcceptedCands(us')
    {
      if k < |mid| {
        assert after[k] == mid[k];
      }
    }
    assert after[..|before|] == mid[..|before|];
  }

  /** One pass of the update loop's body: raise the maximum, filter, store. */
  method SyncUpdate(store: SqliteStore, u: Update, maxUpdateId: int) returns (newMax: int, added: nat)
    requires store.Valid()
    modifies store`messages, store`nextId
    ensures store.Valid()
    ensures newMax == (if u.updateId > 0 && u.updateId > maxUpdateId then u.updateId else maxUpdateId)
    ensures StoredOne(old(store.messages), store.messages, u)
    ensures added == |store.messages| - |old(store.messages)|
  {
    newMax, added := maxUpdateId, 0;
    var updateId := u.updateId;
    if updateId <= 0 {
      return;
    }
    newMax := if updateId > maxUpdateId then updateId else maxUpdateId;
    if u.message.None? || u.message.value.text.None? {
      return;
    }
    var message := u.message.value;
    var chatId := message.chatId;
    var text := Strip(message.text.value);
    if chatId == 0 || text == "" {
      return;
    }
    var sender := SenderName(message.from);
    var inserted := store.StoreMessage(updateId, chatId, sender, message.date, text);
    if inserted {
      added := 1;
    }
  }

  /** One pass of the update loop's body, seen as one more update of the walk over `seen`. */
  method SyncStep(store: SqliteStore, u: Update, ghost seen: seq<Update>, ghost before: seq<MessageRow>,
                  maxUpdateId: int)
    returns (newMax: int, added: nat)
    requires store.Valid() && StoredFrom(before, store.messages, seen)
    modifies store`messages, store`nextId
    ensures store.Valid() && StoredFrom(before, store.messages, seen + [u])
    ensures newMax == (if u.updateId > 0 && u.updateId > maxUpdateId then u.updateId else maxUpdateId)
    ensures |old(store.messages)| <= |store.messages| && added == |store.messages| - |old(store.messages)|
  {
    ghost var mid := store.messages;
    newMax, added := SyncUpdate(store, u, maxUpdateId);
    StoredFromStep(before, mid, store.messages, seen, u);
  }

  /** The for loop over one non-empty batch of updates. */
  method SyncBatch(store: SqliteStore, updates: seq<Update>, ghost done: seq<Update>,
                   ghost before: seq<MessageRow>, maxUpdateId: int)
    returns (newMax: int, added: nat)
    requires store.Valid() && StoredFrom(before, store.messages, done)
    modifies store`messages, store`nextId
    ensures store.Valid() && StoredFrom(before, store.messages, done + updates)
    ensures newMax == SeenMax(maxUpdateId, updates)
    ensures added == |store.messages| - |old(store.messages)|
  {
    newMax, added := maxUpdateId, 0;
    assert done + updates[..0] == done;
    for j := 0 to |updates|
      invariant store.Valid() && StoredFrom(before, store.messages, done + updates[..j])
      invariant newMax == SeenMax(maxUpdateId, updates[..j])
      invariant |old(store.messages)| <= |store.messages|
      invariant added == |store.messages| - |old(store.messages)|
    {
      ghost var seen := done + updates[..j];
      assert done + updates[..j + 1] == seen + [updates[j]];
      assert updates[..j + 1][..j] == updates[..j];
      var more;
      newMax, more := SyncStep(store, updates[j], seen, before, newMax);
      added := added + more;
    }
    assert updates[..|updates|] == updates;
  }

  /** The for loop over the batch of page i, seen as one more page of the walk. */
  method SyncPage(store: SqliteStore, pages: seq<Page>, i: nat, ghost start: int, ghost before: seq<MessageRow>,
                  maxUpdateId: int)
    returns (newMax: int, added: nat)
    requires i < |pages| && pages[i].Updates?
    requires store.Valid() && StoredFrom(before, store.messages, Walked(pages, i))
    requires maxUpdateId == SeenMax(start, Walked(pages, i))
    modifies store`messages, store`nextId
    ensures store.Valid() && StoredFrom(before, store.messages, Walked(pages, i + 1))
    ensures newMax == SeenMax(start, Walked(pages, i + 1))
    ensures added == |store.messages| - |old(store.messages)|
  {
    ghost var done := Walked(pages, i);
    assert Walked(pages, i + 1) == done + pages[i].updates;
    newMax, added := SyncBatch(store, pages[i].updates, done, before, maxUpdateId);
    SeenMaxStep(start, done, pages[i].updates, maxUpdateId, newMax, Walked(pages, i + 1));
  }

  /** The description used when an ok false answer carries none. */
  const UnknownError: string := "Unknown Telegram error"

  /**
   * The error a getUpdates answer raises: the transport error with its
   * message, or ok false with the description ("Unknown Telegram error"
   * when it is missing); a batch raises nothing.
   */
  function PageError(page: Page): (error: Option<string>)
    ensures error.None? <==> page.Updates?
    ensures page.HttpFailure? ==> error == Some("Telegram API nicht erreichbar: " + page.reason)
    ensures page.NotOk? && page.description.Some? ==> error == Some("Telegram API Fehler: " + page.description.value)
    ensures page.NotOk? && page.description.None? ==> error == Some("Telegram API Fehler: " + UnknownError)
  {
    match page
    case Updates(_) => None
    case NotOk(description) =>
      Some("Telegram API Fehler: " + if description.Some? then description.value else UnknownError)
    case HttpFailure(reason) => Some("Telegram API nicht erreichbar: " + reason)
  }

  /** How one getUpdates request ends the loop, or lets it go on. */
  datatype Step = Continue | Stop(failure: Option<string>)

  /**
   * The state of the while loop after i requests that all returned non-empty
   * batches: the offsets requested so far, the rows stored on the way, the
   * highest update id seen and the number of new rows.
   */
  ghost predicate Polled(start: int, pages: seq<Page>, before: seq<MessageRow>, after: seq<MessageRow>, i: nat,
                         requested: seq<int>, maxUpdateId: int, totalInserted: int)
  {
    && i <= |pages|
    && requested == Offsets(start, pages, i)
    && BatchesBefore(pages, i)
    && StoredFrom(before, after, Walked(pages, i))
    && maxUpdateId == SeenMax(start, Walked(pages, i))
    && totalInserted == |after| - |before|
  }

  /**
   * The outcome of the while loop once it stopped at request |requested| - 1:
   * every request p carried offset 1 + the highest id seen before it, all
   * earlier requests returned non-empty batches, the last one returned an
   * empty batch exactly when there is no failure, and the rows, the highest
   * id and the count are those of the walk over the earlier batches.
   */
  ghost predicate Stopped(start: int, pages: seq<Page>, before: seq<MessageRow>, after: seq<MessageRow>,
                          failure: Option<string>, requested: seq<int>, maxUpdateId: int, totalInserted: int)
  {
    && 1 <= |requested| <= |pages| + 1
    && requested == Offsets(start, pages, |requested|)
    && BatchesBefore(pages, |requested| - 1)
    && (failure.None? <==> FetchAt(pages, |requested| - 1) == Updates([]))
    && failure == PageError(FetchAt(pages, |requested| - 1))
    && StoredFrom(before, after, Walked(pages, |requested| - 1))
    && maxUpdateId == SeenMax(start, Walked(pages, |requested| - 1))
    && totalInserted == |after| - |before|
  }

  /** A request that returns no non-empty batch ends the loop after i full pages. */
  lemma StopsAt(start: int, pages: seq<Page>, before: seq<MessageRow>, after: seq<MessageRow>, i: nat,
                requested: seq<int>, maxUpdateId: int, totalInserted: int)
    requires Polled(start, pages, before, after, i, requested, maxUpdateId, totalInserted)
    requires !FetchAt(pages, i).Updates? || FetchAt(pages, i).updates == []
    ensures Stopped(start, pages, before, after, PageError(FetchAt(pages, i)), requested + [maxUpdateId + 1],
                    maxUpdateId, totalInserted)
  {
  }

  /** A request that returns a non-empty batch, once synced, extends the loop state by one page. */
  lemma ContinuesAt(start: int, pages: seq<Page>, before: seq<MessageRow>, mid: seq<MessageRow>,
                    after: seq<MessageRow>, i: nat, requested: seq<int>, maxUpdateId: int, totalInserted: int,
                    newMax: int, added: int)
    requires Polled(start, pages, before, mid, i, requested, maxUpdateId, totalInserted)
    requires i < |pages| && pages[i].Updates? && pages[i].updates != []
    requires StoredFrom(before, after, Walked(pages, i + 1)) && newMax == SeenMax(start, Walked(pages, i + 1))
    requires added == |after| - |mid|
    ensures Polled(start, pages, before, after, i + 1, requested + [maxUpdateId + 1], newMax, totalInserted + added)
  {
  }

  /**
   * One request of the while loop, sent with offset maxUpdateId + 1: a failed
   * page stops with its error, an empty batch stops the loop, and a non-empty
   * batch is synced.
   */
  method PollPage(store: SqliteStore, pages: seq<Page>, i: nat, ghost start: int, ghost before: seq<MessageRow>,
                  requested: seq<int>, maxUpdateId: int, totalInserted: nat)
    returns (step: Step, requestedAfter: seq<int>, maxAfter: int, insertedAfter: nat)
    requires store.Valid() && Polled(start, pages, before, store.messages, i, requested, maxUpdateId, totalInserted)
    modifies store`messages, store`nextId
    ensures store.Valid()
    ensures step.Continue? <==> FetchAt(pages, i).Updates? && FetchAt(pages, i).updates != []
    ensures step.Continue? ==>
              Polled(start, pages, before, store.messages, i + 1, requestedAfter, maxAfter, insertedAfter)
    ensures step.Stop? ==>
              Stopped(start, pages, before, store.messages, step.failure, requestedAfter, maxAfter, insertedAfter)
  {
    requestedAfter, maxAfter, insertedAfter := requested + [maxUpdateId + 1], maxUpdateId, totalInserted;
    var page := FetchAt(pages, i);
    if !page.Updates? || page.updates == [] {
      StopsAt(start, pages, before, store.messages, i, requested, maxUpdateId, totalInserted);
    }
    if page.HttpFailure? {
      return Stop(Some("Telegram API nicht erreichbar: " + page.reason)), requestedAfter, maxAfter, insertedAfter;
    }
    if page.NotOk? {
      var description := if page.description.Some? then page.description.value else UnknownError;
      return Stop(Some("Telegram API Fehler: " + description)), requestedAfter, maxAfter, insertedAfter;
    }
    if page.updates == [] {
      return Stop(None), requestedAfter, maxAfter, insertedAfter;
    }
    ghost var mid := store.messages;
    var added;
    maxAfter, added := SyncPage(store, pages, i, start, before, maxUpdateId);
    insertedAfter := totalInserted + added;
    ContinuesAt(start, pages, before, mid, store.messages, i, requested, maxUpdateId, totalInserted, maxAfter, added);
    step := Continue;
  }

  /**
   * The while loop of sync_updates: request pages from offset start + 1 on
   * until an empty batch (failure == None) or a failed page (failure holds the
   * error). maxUpdateId is the highest positive id seen on the way; the
   * source's current_offset always equals it, so it is not kept apart.
   */
  method PollPages(store: SqliteStore, pages: seq<Page>, start: int)
    returns (failure: Option<string>, requested: seq<int>, maxUpdateId: int, totalInserted: nat)
    requires store.Valid()
    modifies store`messages, store`nextId
    ensures store.Valid()
    ensures Stopped(start, pages, old(store.messages), store.messages, failure, requested, maxUpdateId, totalInserted)
  {
    maxUpdateId := start;
    totalInserted := 0;
    requested := [];
    ghost var before := store.messages;
    assert StoredFrom(before, store.messages, Walked(pages, 0));
    var i := 0;
    while true
      invariant store.Valid() && Polled(start, pages, before, store.messages, i, requested, maxUpdateId, totalInserted)
      decreases |pages| - i
    {
      var step;
      step, requested, maxUpdateId, totalInserted := PollPage(store, pages, i, start, before,
                                                              requested, maxUpdateId, totalInserted);
      if step.Stop? {
        failure := step.failure;
        return;
      }
      i := i + 1;
    }
  }

  /**
   * What a sync left behind: the offsets it requested
   * in order, a non-empty batch on every page before the last request, and
   * exactly the accepted updates of those pages stored as new unread rows.
   */
  ghost predicate SyncedFrom(pages: seq<Page>, offset: int, before: seq<MessageRow>, after: seq<MessageRow>,
                             requested: seq<int>) {
    && 1 <= |requested| <= |pages| + 1
    && requested == Offsets(offset, pages, |requested|)
    && BatchesBefore(pages, |requested| - 1)
    && StoredFrom(before, after, Walked(pages, |requested| - 1))
  }

  /**
   * A sync that succeeded: without a token nothing happens; with one, the
   * last request met an empty batch and the offset row holds the highest id
   * seen.
   */
  ghost predicate SyncSucceeded(pages: seq<Page>, botToken: Option<string>, offsetRow: Option<int>,
                                before: seq<MessageRow>, after: seq<MessageRow>, offsetAfter: Option<int>,
                                requested: seq<int>) {
    if Truthy(botToken) then
      && SyncedFrom(pages, OffsetValue(offsetRow), before, after, requested)
      && FetchAt(pages, |requested| - 1) == Updates([])
      && offsetAfter == Some(SeenMax(OffsetValue(offsetRow), Walked(pages, |requested| - 1)))
    else
      after == before && offsetAfter == offsetRow && requested == []
  }

  /** A successful sync never lowers the stored offset. */
  lemma SyncNeverLowersOffset(pages: seq<Page>, botToken: Option<string>, offsetRow: Option<int>,
                              before: seq<MessageRow>, after: seq<MessageRow>, offsetAfter: Option<int>,
                              requested: seq<int>)
    requires SyncSucceeded(pages, botToken, offsetRow, before, after, offsetAfter, requested)
    ensures OffsetValue(offsetRow) <= OffsetValue(offsetAfter)
  {
    if Truthy(botToken) {
      SeenMaxBounds(OffsetValue(offsetRow), Walked(pages, |requested| - 1));
    }
  }

  /** A sync that failed: the rows of the pages before the failed one are kept, and the last page failed. */
  ghost predicate SyncFailed(pages: seq<Page>, offsetRow: Option<int>, before: seq<MessageRow>,
                             after: seq<MessageRow>, requested: seq<int>) {
    && SyncedFrom(pages, OffsetValue(offsetRow), before, after, requested)
    && FetchAt(pages, |requested| - 1) != Updates([])
  }

  /**
   * sync_updates. Without a bot token nothing happens and 0 is returned.
   * Otherwise request p carries offset 1 + the highest update id seen before
   * it; the loop stops at the first empty batch (then the offset is stored
   * and the number of new rows returned) or at the first failed page (then
   * the error propagates and the offset row is left as it was, while the
   * messages already stored stay stored).
   */
  method SyncUpdates(store: SqliteStore, botToken: Option<string>, pages: seq<Page>)
    returns (outcome: Result<nat>, requested: seq<int>)
    requires store.Valid()
    modifies store`messages, store`nextId, store`offsetRow
    ensures store.Valid()
    ensures !Truthy(botToken) ==> outcome == Ok(0) && requested == [] && unchanged(store)
    ensures Truthy(botToken) ==> 1 <= |requested| <= |pages| + 1
    ensures Truthy(botToken) ==> requested == Offsets(OffsetValue(old(store.offsetRow)), pages, |requested|)
    ensures Truthy(botToken) ==> BatchesBefore(pages, |requested| - 1)
    ensures Truthy(botToken) ==> (outcome.Ok? <==> FetchAt(pages, |requested| - 1) == Updates([]))
    ensures Truthy(botToken) ==>
              StoredFrom(old(store.messages), store.messages, Walked(pages, |requested| - 1))
    ensures outcome.Ok? ==> outcome.value == |store.messages| - |old(store.messages)|
    ensures Truthy(botToken) && outcome.Ok? ==>
              store.offsetRow == Some(SeenMax(OffsetValue(old(store.offsetRow)), Walked(pages, |requested| - 1)))
    ensures outcome.Err? ==> && store.offsetRow == old(store.offsetRow)
                             && Some(outcome.reason) == PageError(FetchAt(pages, |requested| - 1))
    ensures outcome.Ok? ==> SyncSucceeded(pages, botToken, old(store.offsetRow), old(store.messages), store.messages,
                                          store.offsetRow, requested)
    ensures outcome.Err? ==> SyncFailed(pages, old(store.offsetRow), old(store.messages), store.messages, requested)
  {
    if !Truthy(botToken) {
      return Ok(0), [];
    }
    var currentOffset := store.GetTelegramOffset();
    var failure, maxUpdateId, totalInserted;
    failure, requested, maxUpdateId, totalInserted := PollPages(store, pages, currentOffset);
    if failure.Some? {
      return Err(failure.value), requested;
    }
    store.SetTelegramOffset(maxUpdateId);
    outcome := Ok(totalInserted);
  }
}
