/**
 * The record types of the voicemail service: an ingested Telegram message,
 * one turn of a call's conversation, and a call context; plus their
 * dictionary forms, which the store writes into its JSON columns.
 *
 * Instants are whole seconds since the epoch. `datetime.isoformat` is
 * represented by the decimal rendering of the instant and
 * `datetime.fromisoformat` by its parser, and reading back what was written
 * gives the same instant. The core also relies on the order of ISO strings:
 * ORDER BY ts and the stale-context cutoff compare them as text, which agrees
 * with chronological order for strings of one format. The model compares the
 * instants themselves instead of their renderings.
 */
module Models {
  import opened Wrappers
  import opened Text

  datatype TelegramMessage = TelegramMessage(
    id: int,
    telegramUpdateId: int,
    chatId: int,
    sender: string,
    timestamp: int,
    text: string)

  datatype ConversationTurn = ConversationTurn(role: string, text: string)

  datatype CallContext = CallContext(
    callSid: string,
    summary: string,
    messages: seq<TelegramMessage>,
    conversation: seq<ConversationTurn>,
    createdAt: int)

  /** The values a decoded JSON object holds in this program: integers and strings. */
  datatype JsonValue = JInt(i: int) | JStr(s: string)

  type Dict = map<string, JsonValue>

  /** datetime.isoformat() */
  function IsoFormat(t: int): string {
    IntToDecimal(t)
  }

  /** datetime.fromisoformat(); None where Python raises ValueError. */
  function FromIsoFormat(s: string): Option<int> {
    ParseDecimal(s)
  }

  /** int(v) applied to a decoded JSON value; None where Python raises. */
  function IntOf(v: JsonValue): Option<int> {
    match v
    case JInt(i) => Some(i)
    case JStr(s) => PyInt(s)
  }

  /** str(v) applied to a decoded JSON value. */
  function StrOf(v: JsonValue): string {
    match v
    case JInt(i) => IntToDecimal(i)
    case JStr(s) => s
  }

  const MessageKeys: set<string> := {"id", "telegram_update_id", "chat_id", "sender", "timestamp", "text"}

  /** TelegramMessage.to_dict: the dataclass fields, with the timestamp in ISO form. */
  function MessageToDict(m: TelegramMessage): (d: Dict)
    ensures d.Keys == MessageKeys
  {
    map[
      "id" := JInt(m.id),
      "telegram_update_id" := JInt(m.telegramUpdateId),
      "chat_id" := JInt(m.chatId),
      "sender" := JStr(m.sender),
      "timestamp" := JStr(IsoFormat(m.timestamp)),
      "text" := JStr(m.text)]
  }

  /** TelegramMessage.from_dict; None where Python raises KeyError or ValueError. */
  function MessageFromDict(d: Dict): Option<TelegramMessage> {
    if !(MessageKeys <= d.Keys) then None
    else
      var id := IntOf(d["id"]);
      var updateId := IntOf(d["telegram_update_id"]);
      var chatId := IntOf(d["chat_id"]);
      var timestamp := FromIsoFormat(StrOf(d["timestamp"]));
      if id.None? || updateId.None? || chatId.None? || timestamp.None? then None
      else
        Some(TelegramMessage(id.value, updateId.value, chatId.value,
                             StrOf(d["sender"]), timestamp.value, StrOf(d["text"])))
  }

  /** from_dict(to_dict(m)) == m */
  lemma MessageRoundTrip(m: TelegramMessage)
    ensures MessageFromDict(MessageToDict(m)) == Some(m)
  {
    var d := MessageToDict(m);
    assert IntOf(d["id"]) == Some(m.id);
    assert IntOf(d["telegram_update_id"]) == Some(m.telegramUpdateId);
    assert IntOf(d["chat_id"]) == Some(m.chatId);
    assert StrOf(d["timestamp"]) == IntToDecimal(m.timestamp);
    DecimalRoundTrip(m.timestamp);
  }

  /** ConversationTurn.to_dict: exactly the keys role and text. */
  function TurnToDict(t: ConversationTurn): (d: Dict)
    ensures d.Keys == {"role", "text"}
    ensures d["role"] == JStr(t.role) && d["text"] == JStr(t.text)
  {
    map["role" := JStr(t.role), "text" := JStr(t.text)]
  }

  /** How the store rebuilds a turn from its stored dictionary; None where Python raises KeyError. */
  function TurnFromDict(d: Dict): Option<ConversationTurn> {
    if "role" in d && "text" in d then Some(ConversationTurn(StrOf(d["role"]), StrOf(d["text"])))
    else None
  }

  /** A turn written by to_dict is rebuilt unchanged. */
  lemma TurnRoundTrip(t: ConversationTurn)
    ensures TurnFromDict(TurnToDict(t)) == Some(t)
  {
  }

  /**
   * TelegramMessage.as_prompt_line: "{index}. {sender} | {ts} | {text}", where
   * `stamp` stands for the strftime rendering of the timestamp in UTC.
   */
  function AsPromptLine(m: TelegramMessage, index: int, stamp: int -> string): (line: string)
    ensures StartsWith(line, IntToDecimal(index) + ". " + m.sender + " | ")
    ensures EndsWith(line, " | " + m.text)
    ensures |line| == |IntToDecimal(index)| + |m.sender| + |stamp(m.timestamp)| + |m.text| + 8
  {
    var head := IntToDecimal(index) + ". " + m.sender + " | ";
    var line := head + stamp(m.timestamp) + " | " + m.text;
    assert line[..|head|] == head;
    line
  }
}
