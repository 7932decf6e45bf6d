/** bot.py, persistence: the ticket list in data/requests.json and the ticket
    counter in data/counter.json. Files are abstract: the ticket list is a
    sequence of records, the counter file one of the states `load_counter`
    distinguishes. */
module Tickets {
  import opened Wrappers
  import opened JsonValue
  import opened Telegram
  import opened Reply

  /** The `status` value of a request: `confirmation` writes the integer 1,
      `save_request_to_file` defaults to the string "open". */
  datatype Status = StatusCode(code: int) | StatusText(word: string)

  /** One saved request. `status` is None when the key is absent. */
  datatype Ticket = Ticket(
    number: int,
    timestamp: string,
    user: string,
    userId: int,
    address: string,
    text: string,
    phone: string,
    files: seq<FileId>,
    fileTypes: seq<MediaKind>,
    status: Option<Status>)

  const OpenStatus: Status := StatusText("open")

  /** The status defaulting of `save_request_to_file`: only an absent key gets "open". */
  function WithDefaultStatus(t: Ticket): (r: Ticket)
    ensures r.status.Some?
    ensures t.status.Some? ==> r == t
    ensures t.status.None? ==> r == t.(status := Some(OpenStatus))
  {
    if t.status.None? then t.(status := Some(OpenStatus)) else t
  }

  /** The list `save_request_to_file` writes back: every earlier entry
      unchanged, the new request (with its status defaulted) at the end. */
  function Appended(store: seq<Ticket>, t: Ticket): (r: seq<Ticket>)
    ensures |r| == |store| + 1
    ensures r[..|store|] == store
    ensures r[|store|] == WithDefaultStatus(t)
  {
    store + [WithDefaultStatus(t)]
  }

  // ---------------------------------------------------------------------------
  // load_counter and save_counter
  // ---------------------------------------------------------------------------

  /** data/counter.json: absent, not valid JSON, not readable (`OSError`, or a
      decoding error other than `JSONDecodeError`), or a JSON value. */
  datatype CounterFile =
    | NoCounterFile
    | CounterUndecodable
    | CounterUnreadable
    | CounterJson(content: Json)

  /** How a `save_counter` call ends: the file is written; writing fails (the
      error is logged and swallowed); or creating the directory fails, which
      happens outside the `try` and raises. */
  datatype SaveOutcome = Written | WriteFailed | DirFailed

  /** The counter file after `save_counter(n)`. */
  function SavedCounter(f: CounterFile, n: int, outcome: SaveOutcome): (r: CounterFile)
    ensures outcome == Written ==> r == CounterJson(JObject(map["counter" := JInt(n)]))
    ensures outcome != Written ==> r == f
  {
    if outcome == Written then CounterJson(JObject(map["counter" := JInt(n)])) else f
  }

  datatype CounterLoad = CounterLoaded(value: int, file: CounterFile) | CounterRaised

  /** `load_counter()`, with `INITIAL_COUNTER_VALUE` already read as an integer
      and `save` the outcome of the `save_counter` call a missing file causes. */
  function LoadCounter(f: CounterFile, initial: int, save: SaveOutcome): (r: CounterLoad)
    ensures f.NoCounterFile? ==>
      r == if save == DirFailed then CounterRaised else CounterLoaded(initial, SavedCounter(f, initial, save))
    ensures f.CounterUndecodable? ==> r == CounterLoaded(1, f)
    ensures f.CounterUnreadable? ==> r.CounterRaised?
    ensures f.CounterJson? && f.content.JObject? && "counter" !in f.content.fields ==> r == CounterLoaded(1, f)
    ensures f.CounterJson? && f.content.JObject? && "counter" in f.content.fields && f.content.fields["counter"].JInt? ==>
      r == CounterLoaded(f.content.fields["counter"].i, f)
    ensures f.CounterJson? && f.content.JObject? && "counter" in f.content.fields && !f.content.fields["counter"].JInt? ==>
      r.CounterRaised?
    ensures f.CounterJson? && !f.content.JObject? ==> r.CounterRaised?
    ensures r.CounterLoaded? && !f.NoCounterFile? ==> r.file == f
  {
    match f
    case NoCounterFile =>
      if save == DirFailed then CounterRaised else CounterLoaded(initial, SavedCounter(f, initial, save))
    case CounterUndecodable => CounterLoaded(1, f)
    case CounterUnreadable => CounterRaised
    case CounterJson(v) =>
      if !v.JObject? then CounterRaised
      else if "counter" !in v.fields then CounterLoaded(1, f)
      else if v.fields["counter"].JInt? then CounterLoaded(v.fields["counter"].i, f)
      else CounterRaised
  }

  /** A counter that was written is what the next start-up loads. */
  lemma CounterSurvivesRestart(f: CounterFile, n: int, initial: int, save: SaveOutcome)
    ensures LoadCounter(SavedCounter(f, n, Written), initial, save) == CounterLoaded(n, SavedCounter(f, n, Written))
  {
  }

  // ---------------------------------------------------------------------------
  // The ticket list as JSON, as the reply router reads it
  // ---------------------------------------------------------------------------

  function KindName(k: MediaKind): string {
    match k
    case Document => "document"
    case Photo => "photo"
  }

  function StatusJson(s: Status): Json {
    match s
    case StatusCode(c) => JInt(c)
    case StatusText(w) => JStr(w)
  }

  /** The JSON object a ticket is saved as. */
  function TicketJson(t: Ticket): (v: Json)
    ensures v.JObject?
    ensures Get(v.fields, "number") == JInt(t.number)
    ensures Get(v.fields, "user_id") == JInt(t.userId)
  {
    var fields := map[
      "timestamp" := JStr(t.timestamp),
      "number" := JInt(t.number),
      "user" := JStr(t.user),
      "user_id" := JInt(t.userId),
      "address" := JStr(t.address),
      "text" := JStr(t.text),
      "phone" := JStr(t.phone),
      "files" := JList(seq(|t.files|, i requires 0 <= i < |t.files| => JStr(t.files[i]))),
      "file_types" := JList(seq(|t.fileTypes|, i requires 0 <= i < |t.fileTypes| => JStr(KindName(t.fileTypes[i]))))];
    JObject(if t.status.Some? then fields["status" := StatusJson(t.status.value)] else fields)
  }

  function StoreJson(store: seq<Ticket>): (items: seq<Json>)
    ensures |items| == |store|
  {
    if store == [] then [] else [TicketJson(store[0])] + StoreJson(store[1..])
  }

  /** The first ticket with number n. */
  function FirstTicket(store: seq<Ticket>, n: int): Option<Ticket> {
    if store == [] then None
    else if store[0].number == n then Some(store[0])
    else FirstTicket(store[1..], n)
  }

  /** Read back as JSON, the ticket list yields the `user_id` of the first
      ticket with the number asked for, and None when there is none. */
  lemma {:induction false} StoreLookup(store: seq<Ticket>, n: int)
    ensures LookupUserId(StoreJson(store), n) ==
      if FirstTicket(store, n).Some? then JInt(FirstTicket(store, n).value.userId) else JNull
  {
    if store != [] {
      var items := StoreJson(store);
      assert items[0] == TicketJson(store[0]) && items[1..] == StoreJson(store[1..]);
      StoreLookup(store[1..], n);
    }
  }

  /** Appending leaves earlier first matches in place and makes a new number
      findable. */
  lemma {:induction false} FirstTicketAppended(store: seq<Ticket>, t: Ticket, n: int)
    ensures FirstTicket(Appended(store, t), n) ==
      if FirstTicket(store, n).Some? then FirstTicket(store, n)
      else if t.number == n then Some(WithDefaultStatus(t))
      else None
  {
    var r := Appended(store, t);
    if store != [] {
      assert r[0] == store[0] && r[1..] == Appended(store[1..], t);
      FirstTicketAppended(store[1..], t, n);
    }
  }

  /** No ticket is found for a number no ticket carries. */
  lemma {:induction false} FirstTicketNone(store: seq<Ticket>, n: int)
    ensures FirstTicket(store, n).None? <==> forall i :: 0 <= i < |store| ==> store[i].number != n
  {
    if store != [] {
      FirstTicketNone(store[1..], n);
      assert forall i :: 0 < i < |store| ==> store[1..][i - 1] == store[i];
    }
  }

  /** A ticket saved under a number no earlier ticket carries is the one the
      reply router finds for that number. */
  lemma SavedTicketIsFound(store: seq<Ticket>, t: Ticket)
    requires FirstTicket(store, t.number).None?
    ensures LookupUserId(StoreJson(Appended(store, t)), t.number) == JInt(t.userId)
  {
    FirstTicketAppended(store, t, t.number);
    StoreLookup(Appended(store, t), t.number);
  }
}
