/**
 * SqliteStore: the durable state of the service. Three tables are modelled as
 * fields of a class: the polling offset row of the `state` table, the
 * `messages` table (deduplicated by Telegram update id, each row with a read
 * flag) and the `call_contexts` table keyed by call SID. The JSON columns of a
 * call context hold the dictionaries that to_dict produces; reading a context
 * decodes them with from_dict. The clock is the explicit `now` parameter.
 */
module Store {
  import opened Wrappers
  import opened Models

  /** One row of the messages table. */
  datatype MessageRow = MessageRow(
    id: int,
    telegramUpdateId: int,
    chatId: int,
    sender: string,
    ts: int,
    text: string,
    isRead: bool)

  /** One row of the call_contexts table; its key, call_sid, is the key of the map that holds it. */
  datatype ContextRow = ContextRow(
    summary: string,
    messagesJson: seq<Dict>,
    conversationJson: seq<Dict>,
    createdAt: int)

  /** The TelegramMessage that list_unread_messages builds from a row. */
  function RowMessage(r: MessageRow): TelegramMessage {
    TelegramMessage(r.id, r.telegramUpdateId, r.chatId, r.sender, r.ts, r.text)
  }

  function UpdateIds(rows: seq<MessageRow>): set<int> {
    set r | r in rows :: r.telegramUpdateId
  }

  function UnreadIds(rows: seq<MessageRow>): set<int> {
    set r | r in rows && !r.isRead :: r.id
  }

  /** The UNIQUE constraint on telegram_update_id. */
  predicate UniqueUpdateIds(rows: seq<MessageRow>) {
    forall i, j :: 0 <= i < j < |rows| ==> rows[i].telegramUpdateId != rows[j].telegramUpdateId
  }

  /** The primary key on id. */
  predicate UniqueIds(rows: seq<MessageRow>) {
    forall i, j :: 0 <= i < j < |rows| ==> rows[i].id != rows[j].id
  }

  /** AUTOINCREMENT: every id handed out so far is positive and below the next one. */
  predicate IdsBelow(rows: seq<MessageRow>, next: int) {
    forall i :: 0 <= i < |rows| ==> 1 <= rows[i].id < next
  }

  /** Appending a row with the next id and a new update id keeps both keys unique. */
  lemma AppendRowKeepsKeys(rows: seq<MessageRow>, next: int, row: MessageRow)
    requires IdsBelow(rows, next) && UniqueIds(rows) && UniqueUpdateIds(rows)
    requires row.id == next && 1 <= next && row.telegramUpdateId !in UpdateIds(rows)
    ensures IdsBelow(rows + [row], next + 1) && UniqueIds(rows + [row]) && UniqueUpdateIds(rows + [row])
    ensures UpdateIds(rows + [row]) == UpdateIds(rows) + {row.telegramUpdateId}
  {
    var after := rows + [row];
    forall i | 0 <= i < |rows| ensures rows[i].telegramUpdateId != row.telegramUpdateId {
      assert rows[i] in rows;
    }
    forall u | u in UpdateIds(after) ensures u in UpdateIds(rows) + {row.telegramUpdateId} {
      var x :| x in after && x.telegramUpdateId == u;
      if x != row {
        assert x in rows;
      }
    }
  }

  // ---- JSON columns of call_contexts ----

  predicate MessagesDecode(ds: seq<Dict>) {
    forall i :: 0 <= i < |ds| ==> MessageFromDict(ds[i]).Some?
  }

  function DecodeMessages(ds: seq<Dict>): (ms: seq<TelegramMessage>)
    requires MessagesDecode(ds)
    ensures |ms| == |ds|
  {
    seq(|ds|, i requires 0 <= i < |ds| => MessageFromDict(ds[i]).value)
  }

  /** The messages_json column that save_call_context writes: decoding it gives the messages back. */
  function EncodeMessages(ms: seq<TelegramMessage>): (ds: seq<Dict>)
    ensures MessagesDecode(ds) && DecodeMessages(ds) == ms
  {
    var ds := seq(|ms|, i requires 0 <= i < |ms| => MessageToDict(ms[i]));
    assert MessagesDecode(ds) && DecodeMessages(ds) == ms by {
      forall i | 0 <= i < |ms| ensures MessageFromDict(ds[i]) == Some(ms[i]) {
        MessageRoundTrip(ms[i]);
      }
    }
    ds
  }

  predicate TurnsDecode(ds: seq<Dict>) {
    forall i :: 0 <= i < |ds| ==> TurnFromDict(ds[i]).Some?
  }

  function DecodeTurns(ds: seq<Dict>): (ts: seq<ConversationTurn>)
    requires TurnsDecode(ds)
    ensures |ts| == |ds|
  {
    seq(|ds|, i requires 0 <= i < |ds| => TurnFromDict(ds[i]).value)
  }

  /** Appending the dictionary of a turn to a decodable column appends exactly that turn. */
  lemma AppendedTurnReadsBack(ds: seq<Dict>, t: ConversationTurn)
    requires TurnsDecode(ds)
    ensures TurnsDecode(ds + [TurnToDict(t)])
    ensures DecodeTurns(ds + [TurnToDict(t)]) == DecodeTurns(ds) + [t]
  {
    var ds' := ds + [TurnToDict(t)];
    TurnRoundTrip(t);
    assert forall i :: 0 <= i < |ds| ==> ds'[i] == ds[i];
  }

  predicate ContextDecodes(c: ContextRow) {
    MessagesDecode(c.messagesJson) && TurnsDecode(c.conversationJson)
  }

  /** The CallContext that get_call_context builds from a stored row. */
  function ContextOf(callSid: string, c: ContextRow): CallContext
    requires ContextDecodes(c)
  {
    CallContext(callSid, c.summary, DecodeMessages(c.messagesJson), DecodeTurns(c.conversationJson), c.createdAt)
  }

  /** The row save_call_context writes: new summary and messages, an empty conversation, created now. */
  function FreshContext(summary: string, messages: seq<TelegramMessage>, now: int): ContextRow {
    ContextRow(summary, EncodeMessages(messages), [], now)
  }

  /** Reading back a freshly saved row gives the saved summary and messages and no turns. */
  lemma SavedContextReadsBack(callSid: string, summary: string, messages: seq<TelegramMessage>, now: int)
    ensures ContextDecodes(FreshContext(summary, messages, now))
    ensures ContextOf(callSid, FreshContext(summary, messages, now)) == CallContext(callSid, summary, messages, [], now)
  {
  }

  // ---- TTL sweep ----

  /** The instant `ttlMinutes` minutes before `now`, in seconds. */
  function Cutoff(now: int, ttlMinutes: int): int {
    now - ttlMinutes * 60
  }

  function StaleKeys(cs: map<string, ContextRow>, cutoff: int): set<string> {
    set sid | sid in cs && cs[sid].createdAt < cutoff
  }

  /** DELETE FROM call_contexts WHERE created_at < cutoff */
  function Sweep(cs: map<string, ContextRow>, cutoff: int): (r: map<string, ContextRow>)
    ensures r.Keys == cs.Keys - StaleKeys(cs, cutoff)
    ensures forall sid :: sid in r ==> r[sid] == cs[sid]
  {
    map sid | sid in cs && !(cs[sid].createdAt < cutoff) :: cs[sid]
  }

  /** The sweep removes exactly the stale rows: the survivors and the removed count add up. */
  lemma SweepCount(cs: map<string, ContextRow>, cutoff: int)
    ensures |Sweep(cs, cutoff)| + |StaleKeys(cs, cutoff)| == |cs|
  {
    var r := Sweep(cs, cutoff);
    var stale := StaleKeys(cs, cutoff);
    assert cs.Keys == r.Keys + stale;
    assert r.Keys !! stale;
    assert |cs.Keys| == |r.Keys| + |stale|;
  }

  /** A context survives a sweep at `now` exactly while it is at most `ttlMinutes` minutes old. */
  lemma ExpiryWindow(cs: map<string, ContextRow>, callSid: string, now: int, ttlMinutes: int)
    requires callSid in cs
    ensures callSid in Sweep(cs, Cutoff(now, ttlMinutes)) <==> now <= cs[callSid].createdAt + ttlMinutes * 60
  {
  }

  // ---- SELECT ... FROM messages WHERE is_read = 0 [AND chat_id = ?] ORDER BY ts DESC LIMIT ? ----

  predicate Selectable(r: MessageRow, allowedChatId: Option<int>) {
    !r.isRead && (allowedChatId.Some? ==> r.chatId == allowedChatId.value)
  }

  function FilterUnread(rows: seq<MessageRow>, allowedChatId: Option<int>): (r: seq<MessageRow>)
    ensures forall x :: x in r <==> x in rows && Selectable(x, allowedChatId)
  {
    if rows == [] then []
    else (if Selectable(rows[0], allowedChatId) then [rows[0]] else []) + FilterUnread(rows[1..], allowedChatId)
  }

  predicate SortedByTsDesc(s: seq<MessageRow>) {
    forall i, j :: 0 <= i < j < |s| ==> s[i].ts >= s[j].ts
  }

  function InsertByTs(x: MessageRow, s: seq<MessageRow>): seq<MessageRow> {
    if s == [] then [x]
    else if x.ts >= s[0].ts then [x] + s
    else [s[0]] + InsertByTs(x, s[1..])
  }

  lemma {:induction false} InsertByTsElements(x: MessageRow, s: seq<MessageRow>)
    ensures multiset(InsertByTs(x, s)) == multiset(s) + multiset{x}
  {
    if s != [] && x.ts < s[0].ts {
      InsertByTsElements(x, s[1..]);
      assert s == [s[0]] + s[1..];
    }
  }

  /** Every element of a non-empty sorted sequence is at most as new as its head. */
  lemma HeadIsNewest(s: seq<MessageRow>, y: MessageRow)
    requires SortedByTsDesc(s) && s != [] && y in s
    ensures y.ts <= s[0].ts
  {
    var k :| 0 <= k < |s| && s[k] == y;
    if k > 0 {
      assert s[0].ts >= s[k].ts;
    }
  }

  lemma {:induction false} InsertByTsSpec(x: MessageRow, s: seq<MessageRow>)
    requires SortedByTsDesc(s)
    ensures SortedByTsDesc(InsertByTs(x, s))
    ensures multiset(InsertByTs(x, s)) == multiset(s) + multiset{x}
  {
    InsertByTsElements(x, s);
    if s != [] && x.ts < s[0].ts {
      var tail := s[1..];
      var rest := InsertByTs(x, tail);
      assert SortedByTsDesc(tail) by {
        forall i, j | 0 <= i < j < |tail| ensures tail[i].ts >= tail[j].ts {
          assert tail[i] == s[i + 1] && tail[j] == s[j + 1];
        }
      }
      InsertByTsSpec(x, tail);
      InsertByTsElements(x, tail);
      forall y | y in rest ensures y.ts <= s[0].ts {
        assert y in multiset(rest);
        if y != x {
          assert y in multiset(tail);
          HeadIsNewest(s, y);
        }
      }
      SortedCons(s[0], rest);
    }
  }

  lemma SortedCons(h: MessageRow, s: seq<MessageRow>)
    requires SortedByTsDesc(s)
    requires forall y :: y in s ==> y.ts <= h.ts
    ensures SortedByTsDesc([h] + s)
  {
    var r := [h] + s;
    forall i, j | 0 <= i < j < |r| ensures r[i].ts >= r[j].ts {
      assert r[j] == s[j - 1];
      if i > 0 {
        assert r[i] == s[i - 1];
      } else {
        assert s[j - 1] in s;
      }
    }
  }

  /** ORDER BY ts DESC (rows with equal timestamps come in some order; this one keeps table order). */
  function SortByTsDesc(s: seq<MessageRow>): seq<MessageRow> {
    if s == [] then [] else InsertByTs(s[0], SortByTsDesc(s[1..]))
  }

  /** Sorting yields the same rows, newest first. */
  lemma {:induction false} SortByTsDescSpec(s: seq<MessageRow>)
    ensures SortedByTsDesc(SortByTsDesc(s))
    ensures multiset(SortByTsDesc(s)) == multiset(s)
  {
    if s != [] {
      SortByTsDescSpec(s[1..]);
      InsertByTsSpec(s[0], SortByTsDesc(s[1..]));
      assert s == [s[0]] + s[1..];
    }
  }

  /** SQLite's LIMIT: a negative limit means no limit. */
  function Limit(s: seq<MessageRow>, limit: int): seq<MessageRow> {
    if limit < 0 || limit >= |s| then s else s[..limit]
  }

  function SelectUnread(rows: seq<MessageRow>, limit: int, allowedChatId: Option<int>): seq<MessageRow> {
    Limit(SortByTsDesc(FilterUnread(rows, allowedChatId)), limit)
  }

  /**
   * The query returns selectable rows, newest first, as many as the limit
   * allows: all of them when fewer are selectable (or there is no limit),
   * and none it skips is newer than one it returns.
   */
  lemma SelectUnreadSpec(rows: seq<MessageRow>, limit: int, allowedChatId: Option<int>)
    ensures var sel := SelectUnread(rows, limit, allowedChatId);
      var available := |FilterUnread(rows, allowedChatId)|;
      && (forall i :: 0 <= i < |sel| ==> sel[i] in rows && Selectable(sel[i], allowedChatId))
      && SortedByTsDesc(sel)
      && (0 <= limit ==> |sel| <= limit)
      && (0 <= limit ==> |sel| == if limit < available then limit else available)
      && (limit < 0 ==> |sel| == available)
      && (limit < 0 ==> forall x :: x in rows && Selectable(x, allowedChatId) ==> x in sel)
      && ((limit < 0 || |sel| < limit) ==> forall x :: x in rows && Selectable(x, allowedChatId) ==> x in sel)
      && (forall x, i :: x in rows && Selectable(x, allowedChatId) && x !in sel && 0 <= i < |sel| ==> x.ts <= sel[i].ts)
  {
    var cands := FilterUnread(rows, allowedChatId);
    var sorted := SortByTsDesc(cands);
    SortByTsDescSpec(cands);
    SameElements(sorted, cands);
    LimitSpec(sorted, limit);
  }

  /** A permutation has the same elements and the same length. */
  lemma SameElements(s: seq<MessageRow>, t: seq<MessageRow>)
    requires multiset(s) == multiset(t)
    ensures |s| == |t|
    ensures forall x :: x in s <==> x in t
  {
    assert |s| == |multiset(s)|;
    forall x ensures x in s <==> x in t {
      assert x in s <==> x in multiset(s);
    }
  }

  /**
   * LIMIT keeps a prefix: the first `limit` rows, or all of them when there
   * are no more; of a newest-first sequence it keeps the newest.
   */
  lemma LimitSpec(s: seq<MessageRow>, limit: int)
    ensures var sel := Limit(s, limit);
      && |sel| <= |s| && sel == s[..|sel|]
      && (0 <= limit ==> |sel| == if limit < |s| then limit else |s|)
      && ((limit < 0 || |sel| < limit) ==> sel == s)
      && (SortedByTsDesc(s) ==> SortedByTsDesc(sel))
      && (SortedByTsDesc(s) ==> forall x, i :: x in s && x !in sel && 0 <= i < |sel| ==> x.ts <= sel[i].ts)
  {
    var sel := Limit(s, limit);
    if SortedByTsDesc(s) {
      forall x, i | x in s && x !in sel && 0 <= i < |sel| ensures x.ts <= sel[i].ts {
        var p :| 0 <= p < |s| && s[p] == x;
        assert p >= |sel|;
        assert sel[i] == s[i];
      }
    }
  }

  function RowsToMessages(rows: seq<MessageRow>): (ms: seq<TelegramMessage>)
    ensures |ms| == |rows|
  {
    seq(|rows|, i requires 0 <= i < |rows| => RowMessage(rows[i]))
  }

  /** What list_unread_messages returns for a table. */
  function UnreadMessages(rows: seq<MessageRow>, limit: int, allowedChatId: Option<int>): seq<TelegramMessage> {
    RowsToMessages(SelectUnread(rows, limit, allowedChatId))
  }

  /**
   * The listing holds only unread messages of the allowed chat, newest first,
   * at most `limit` of them; when it is shorter than the limit (or the limit
   * is negative) it holds every unread message of the chat, and no unread
   * message it leaves out is newer than one it returns.
   */
  lemma UnreadMessagesSpec(rows: seq<MessageRow>, limit: int, allowedChatId: Option<int>)
    ensures var result := UnreadMessages(rows, limit, allowedChatId);
      var available := |FilterUnread(rows, allowedChatId)|;
      && (forall i :: 0 <= i < |result| ==>
            result[i].id in UnreadIds(rows) && (allowedChatId.Some? ==> result[i].chatId == allowedChatId.value))
      && (forall i, j :: 0 <= i < j < |result| ==> result[i].timestamp >= result[j].timestamp)
      && (0 <= limit ==> |result| <= limit)
      && (0 <= limit ==> |result| == if limit < available then limit else available)
      && (limit < 0 ==> forall x :: x in rows && Selectable(x, allowedChatId) ==> RowMessage(x) in result)
      && ((limit < 0 || |result| < limit) ==>
            forall x :: x in rows && Selectable(x, allowedChatId) ==> RowMessage(x) in result)
      && (forall x, i ::
            (x in rows && Selectable(x, allowedChatId) && RowMessage(x) !in result && 0 <= i < |result|) ==>
            x.ts <= result[i].timestamp)
  {
    var sel := SelectUnread(rows, limit, allowedChatId);
    SelectUnreadSpec(rows, limit, allowedChatId);
    RowsToMessagesSpec(rows, sel);
  }

  /** Each listed row becomes the message at the same position. */
  lemma RowsToMessagesSpec(rows: seq<MessageRow>, sel: seq<MessageRow>)
    requires forall i :: 0 <= i < |sel| ==> sel[i] in rows && !sel[i].isRead
    ensures var result := RowsToMessages(sel);
      && (forall i :: 0 <= i < |result| ==> result[i] == RowMessage(sel[i]) && result[i].id in UnreadIds(rows))
      && (forall x :: x in sel ==> RowMessage(x) in result)
  {
    var result := RowsToMessages(sel);
    forall i | 0 <= i < |result| ensures result[i].id in UnreadIds(rows) {
      assert sel[i] in rows;
    }
    forall x | x in sel ensures RowMessage(x) in result {
      var p :| 0 <= p < |sel| && sel[p] == x;
      assert result[p] == RowMessage(x);
    }
  }

  // ---- UPDATE messages SET is_read = 1 WHERE id IN (...) ----

  function MarkRead(rows: seq<MessageRow>, ids: seq<int>): (r: seq<MessageRow>)
    ensures |r| == |rows|
  {
    seq(|rows|, i requires 0 <= i < |rows| => rows[i].(isRead := rows[i].isRead || rows[i].id in ids))
  }

  /** Marking removes exactly the listed ids from the unread ones and changes no other column. */
  lemma MarkReadSpec(rows: seq<MessageRow>, ids: seq<int>)
    ensures UnreadIds(MarkRead(rows, ids)) == UnreadIds(rows) - set id | id in ids
    ensures UpdateIds(MarkRead(rows, ids)) == UpdateIds(rows)
    ensures forall i :: 0 <= i < |rows| ==> RowMessage(MarkRead(rows, ids)[i]) == RowMessage(rows[i])
    ensures ids == [] ==> MarkRead(rows, ids) == rows
  {
    var r := MarkRead(rows, ids);
    forall id | id in UnreadIds(r) ensures id in UnreadIds(rows) && id !in ids {
      var x :| x in r && !x.isRead && x.id == id;
      var i :| 0 <= i < |r| && r[i] == x;
      assert rows[i] in rows;
    }
    forall id | id in UnreadIds(rows) && id !in ids ensures id in UnreadIds(r) {
      var x :| x in rows && !x.isRead && x.id == id;
      var i :| 0 <= i < |rows| && rows[i] == x;
      assert r[i] in r;
    }
    forall u | u in UpdateIds(rows) ensures u in UpdateIds(r) {
      var x :| x in rows && x.telegramUpdateId == u;
      var i :| 0 <= i < |rows| && rows[i] == x;
      assert r[i] in r;
    }
    forall u | u in UpdateIds(r) ensures u in UpdateIds(rows) {
      var x :| x in r && x.telegramUpdateId == u;
      var i :| 0 <= i < |r| && r[i] == x;
      assert rows[i] in rows;
    }
  }

  /** The offset get_telegram_offset reports for the state row: 0 when the row is missing. */
  function OffsetValue(row: Option<int>): int {
    if row.Some? then row.value else 0
  }

  class SqliteStore {
    /** The 'telegram_offset' row of the state table (None if the row is missing). */
    var offsetRow: Option<int>
    var messages: seq<MessageRow>
    /** The next id AUTOINCREMENT hands out. */
    var nextId: int
    var contexts: map<string, ContextRow>

    ghost predicate Valid()
      reads this
    {
      && 1 <= nextId
      && IdsBelow(messages, nextId)
      && UniqueIds(messages)
      && UniqueUpdateIds(messages)
      && forall sid :: sid in contexts ==> ContextDecodes(contexts[sid])
    }

    /** A fresh database: the tables exist and the offset row holds 0. */
    constructor ()
      ensures Valid()
      ensures offsetRow == Some(0) && messages == [] && nextId == 1 && contexts == map[]
    {
      offsetRow := Some(0);
      messages := [];
      nextId := 1;
      contexts := map[];
    }

    /** get_telegram_offset: the stored offset, or 0 when the row is missing. */
    method GetTelegramOffset() returns (offset: int)
      ensures offset == OffsetValue(offsetRow)
    {
      match offsetRow
      case None => offset := 0;
      case Some(v) => offset := v;
    }

    /** set_telegram_offset: an unconditional upsert; the store itself enforces no monotonicity. */
    method SetTelegramOffset(offset: int)
      modifies this`offsetRow
      ensures offsetRow == Some(offset)
    {
      offsetRow := Some(offset);
    }

    /** store_message: INSERT OR IGNORE, reporting whether a row was inserted. */
    method StoreMessage(telegramUpdateId: int, chatId: int, sender: string, timestamp: int, text: string)
      returns (inserted: bool)
      requires Valid()
      modifies this`messages, this`nextId
      ensures Valid()
      ensures inserted <==> telegramUpdateId !in UpdateIds(old(messages))
      ensures UpdateIds(messages) == UpdateIds(old(messages)) + {telegramUpdateId}
      ensures inserted ==> && messages == old(messages) + [MessageRow(old(nextId), telegramUpdateId, chatId, sender, timestamp, text, false)]
                           && nextId == old(nextId) + 1
      ensures !inserted ==> messages == old(messages) && nextId == old(nextId)
    {
      if telegramUpdateId in UpdateIds(messages) {
        inserted := false;
        return;
      }
      var row := MessageRow(nextId, telegramUpdateId, chatId, sender, timestamp, text, false);
      AppendRowKeepsKeys(messages, nextId, row);
      messages := messages + [row];
      nextId := nextId + 1;
      inserted := true;
    }

    /** list_unread_messages: run the query, then build one TelegramMessage per returned row. */
    method ListUnreadMessages(limit: int, allowedChatId: Option<int>) returns (result: seq<TelegramMessage>)
      ensures result == UnreadMessages(messages, limit, allowedChatId)
    {
      var rows := SelectUnread(messages, limit, allowedChatId);
      result := [];
      for i := 0 to |rows|
        invariant |result| == i
        invariant forall k :: 0 <= k < i ==> result[k] == RowMessage(rows[k])
      {
        result := result + [RowMessage(rows[i])];
      }
    }

    /** mark_messages_read: an empty list changes nothing; otherwise exactly the listed ids become read. */
    method MarkMessagesRead(ids: seq<int>)
      requires Valid()
      modifies this`messages
      ensures Valid()
      ensures messages == MarkRead(old(messages), ids)
      ensures UnreadIds(messages) == UnreadIds(old(messages)) - set id | id in ids
      ensures ids == [] ==> messages == old(messages)
    {
      MarkReadSpec(messages, ids);
      if ids == [] {
        return;
      }
      messages := MarkRead(messages, ids);
    }

    /** save_call_context: an upsert that overwrites summary and messages and resets conversation and created_at. */
    method SaveCallContext(callSid: string, summary: string, msgs: seq<TelegramMessage>, now: int)
      requires Valid()
      modifies this`contexts
      ensures Valid()
      ensures contexts == old(contexts)[callSid := FreshContext(summary, msgs, now)]
    {
      contexts := contexts[callSid := FreshContext(summary, msgs, now)];
    }

    /** get_call_context */
    method GetCallContext(callSid: string) returns (context: Option<CallContext>)
      requires Valid()
      ensures callSid !in contexts ==> context == None
      ensures callSid in contexts ==> context == Some(ContextOf(callSid, contexts[callSid]))
    {
      if callSid !in contexts {
        return None;
      }
      context := Some(ContextOf(callSid, contexts[callSid]));
    }

    /** append_conversation_turn: read the conversation, append one turn, write it back, return it. */
    method AppendConversationTurn(callSid: string, role: string, text: string)
      returns (conversation: seq<ConversationTurn>)
      requires Valid()
      modifies this`contexts
      ensures Valid()
      ensures callSid !in old(contexts) ==> conversation == [] && contexts == old(contexts)
      ensures callSid in old(contexts) ==>
        var row := old(contexts)[callSid];
        && contexts == old(contexts)[callSid := row.(conversationJson := row.conversationJson + [TurnToDict(ConversationTurn(role, text))])]
        && conversation == DecodeTurns(row.conversationJson) + [ConversationTurn(role, text)]
    {
      if callSid !in contexts {
        return [];
      }
      var row := contexts[callSid];
      var turn := ConversationTurn(role, text);
      AppendedTurnReadsBack(row.conversationJson, turn);
      var updated := row.conversationJson + [TurnToDict(turn)];
      contexts := contexts[callSid := row.(conversationJson := updated)];
      conversation := DecodeTurns(updated);
    }

    /** cleanup_stale_call_contexts: delete every context created before now - ttl and count them. */
    method CleanupStaleCallContexts(ttlMinutes: int, now: int) returns (removed: nat)
      requires Valid()
      modifies this`contexts
      ensures Valid()
      ensures contexts == Sweep(old(contexts), Cutoff(now, ttlMinutes))
      ensures removed == |StaleKeys(old(contexts), Cutoff(now, ttlMinutes))|
      ensures removed == |old(contexts)| - |contexts|
    {
      var cutoff := Cutoff(now, ttlMinutes);
      SweepCount(contexts, cutoff);
      removed := |StaleKeys(contexts, cutoff)|;
      contexts := Sweep(contexts, cutoff);
    }
  }
}
