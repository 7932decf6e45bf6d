/** bot.py, the conversation: the address keyboard and its callback data, the
    attachment-count wording, the split of attachments into batches, the
    ConversationHandler's state table, and the bot itself as an object whose
    handlers update the per-user sessions, the ticket counter, the ticket list
    and the outbox. */
module Flow {
  import opened Wrappers
  import opened Strings
  import opened JsonValue
  import opened Conversation
  import opened Telegram
  import opened Tickets
  import opened Reply

  datatype ConvState = SelectAddress | InputText | UploadFiles | InputPhone | Confirmation

  const AddressList: seq<string> := [
    "Складской проезд, 4",
    "Проспект Бакунина, 13",
    "Перекупной переулок, 18",
    "Полтавская улица, 5",
    "Боровая улица, 8И",
    "Крапивный переулок, 3А"
  ]

  // ---------------------------------------------------------------------------
  // The address keyboard and address_selected's decoding
  // ---------------------------------------------------------------------------

  /** The callback data of the i-th address button. */
  function AddressCallback(i: nat): string {
    "addr_" + Decimal(i)
  }

  /** `build_address_keyboard()`: one button per address, in list order. */
  function AddressKeyboard(): (k: seq<Button>)
    ensures |k| == |AddressList|
    ensures forall i :: 0 <= i < |k| ==> k[i] == Button(AddressList[i], AddressCallback(i))
  {
    seq(|AddressList|, i requires 0 <= i < |AddressList| => Button(AddressList[i], AddressCallback(i)))
  }

  /** `s.split("_")[1]`: the text between the first '_' and the next one (or
      the end); None is the `IndexError` of a string without '_'. */
  function SecondField(s: string): (r: Option<string>)
    ensures r.None? <==> '_' !in s
  {
    match IndexOf(s, '_')
    case None => None
    case Some(i) =>
      var rest := s[i + 1..];
      match IndexOf(rest, '_')
      case None => Some(rest)
      case Some(j) => Some(rest[..j])
  }

  /** `xs[i]` with Python's negative indices; None is the `IndexError`. */
  function PyIndex<T>(xs: seq<T>, i: int): (r: Option<T>)
    ensures 0 <= i < |xs| ==> r == Some(xs[i])
    ensures -|xs| <= i < 0 ==> r == Some(xs[|xs| + i])
    ensures r.None? <==> i < -|xs| || |xs| <= i
  {
    if 0 <= i < |xs| then Some(xs[i])
    else if -|xs| <= i < 0 then Some(xs[|xs| + i])
    else None
  }

  /** `ADDRESS_LIST[int(query.data.split("_")[1])]`; None when one of the three
      steps raises. */
  function DecodeAddress(data: string): (r: Option<string>)
    ensures r.Some? ==> r.value in AddressList
    ensures '_' !in data ==> r.None?
  {
    match SecondField(data)
    case None => None
    case Some(field) =>
      match ParseInt(field)
      case None => None
      case Some(idx) => PyIndex(AddressList, idx)
  }

  /** The second field of callback data "addr_" + d is d when d has no '_'. */
  lemma SecondFieldOfCallback(d: string)
    requires '_' !in d
    ensures SecondField("addr_" + d) == Some(d)
  {
    var s := "addr_" + d;
    assert s[4] == '_';
    assert forall k :: 0 <= k < 4 ==> s[k] != '_';
    assert IndexOf(s, '_') == Some(4);
    assert s[5..] == d;
  }

  /** Pressing the i-th address button selects the address written on it. */
  lemma KeyboardRoundTrip(i: nat)
    requires i < |AddressList|
    ensures DecodeAddress(AddressKeyboard()[i].data) == Some(AddressKeyboard()[i].text)
    ensures AddressKeyboard()[i].text == AddressList[i]
  {
    var d := Decimal(i);
    assert '_' !in d;
    SecondFieldOfCallback(d);
    DecimalRoundTrip(i);
    assert ParseInt(d) == Some(i);
  }

  /** Callback data of the preview's "send"/"cancel" keyboard has no second
      field: `address_selected` raises on it. */
  lemma PreviewButtonNotAnAddress()
    ensures DecodeAddress("send").None? && DecodeAddress("cancel").None?
  {
    assert '_' !in "send";
    assert '_' !in "cancel";
  }

  /** A negative index counts from the end of the list, as in Python. */
  lemma NegativeIndexCountsFromEnd()
    ensures DecodeAddress("addr_-1") == Some(AddressList[5])
  {
    assert '_' !in "-1";
    SecondFieldOfCallback("-1");
    assert "addr_" + "-1" == "addr_-1";
    assert "-1"[1..] == "1";
    assert DigitsValue("1") == 1 by { assert "1"[..0] == []; }
    assert ParseInt("-1") == Some(-1);
  }

  // ---------------------------------------------------------------------------
  // Attachment-count wording and the batches sent to the staff group
  // ---------------------------------------------------------------------------

  /** The word after the attachment count: "вложение" for one, "вложения" for
      any other count below five, "вложений" from five on. */
  function AttachmentWord(count: int): (w: string)
    ensures w == "вложение" <==> count == 1
    ensures w == "вложения" <==> count != 1 && count < 5
    ensures w == "вложений" <==> count >= 5
  {
    if count == 1 then "вложение" else if count < 5 then "вложения" else "вложений"
  }

  /** `[fid for fid, t in zip(files, file_types) if t == k]`. */
  function Batch(files: seq<FileId>, types: seq<MediaKind>, k: MediaKind): (r: seq<FileId>)
    ensures |r| <= |files|
    ensures forall i :: 0 <= i < |r| ==> r[i] in files
  {
    if files == [] || types == [] then []
    else (if types[0] == k then [files[0]] else []) + Batch(files[1..], types[1..], k)
  }

  /** Every attachment lands in exactly one of the two batches. */
  lemma {:induction false} BatchesPartition(files: seq<FileId>, types: seq<MediaKind>)
    requires |files| == |types|
    ensures |Batch(files, types, Document)| + |Batch(files, types, Photo)| == |files|
  {
    if files != [] {
      BatchesPartition(files[1..], types[1..]);
    }
  }

  /** An attachment recorded last comes last in its batch: batches keep the
      order attachments were added in. */
  lemma {:induction false} BatchAppend(files: seq<FileId>, types: seq<MediaKind>, f: FileId, t: MediaKind, k: MediaKind)
    requires |files| == |types|
    ensures Batch(files + [f], types + [t], k) == Batch(files, types, k) + (if t == k then [f] else [])
  {
    if files != [] {
      assert (files + [f])[1..] == files[1..] + [f];
      assert (types + [t])[1..] == types[1..] + [t];
      BatchAppend(files[1..], types[1..], f, t, k);
    }
  }

  /** A batch holds exactly the files tagged with its kind. */
  lemma {:induction false} BatchMembers(files: seq<FileId>, types: seq<MediaKind>, k: MediaKind, x: FileId)
    requires |files| == |types|
    ensures x in Batch(files, types, k) <==> exists i :: 0 <= i < |files| && files[i] == x && types[i] == k
  {
    if files != [] {
      BatchMembers(files[1..], types[1..], k, x);
      if exists i :: 0 <= i < |files| && files[i] == x && types[i] == k {
        var i :| 0 <= i < |files| && files[i] == x && types[i] == k;
        if i > 0 {
          assert files[1..][i - 1] == x && types[1..][i - 1] == k;
        }
      }
      if exists i :: 0 <= i < |files| - 1 && files[1..][i] == x && types[1..][i] == k {
        var i :| 0 <= i < |files| - 1 && files[1..][i] == x && types[1..][i] == k;
        assert files[i + 1] == x && types[i + 1] == k;
      }
    }
  }

  // ---------------------------------------------------------------------------
  // The ConversationHandler of main()
  // ---------------------------------------------------------------------------

  /** What an update carries: a command, a button press, a non-command text
      message, a document or photo message, or anything else. */
  datatype EventKind =
    | Command(name: string)
    | Callback(data: string)
    | TextMessage(text: string)
    | MediaMessage(document: Option<FileId>, photo: seq<FileId>)
    | OtherMessage

  datatype Handler =
    | StartH | NewRequestH | AddressH | TextH | UploadH | ContinueH | PhoneH | ConfirmH | CancelH

  /** The handler the ConversationHandler picks: entry points first (re-entry
      is allowed), then the handlers of the current state, then the `/cancel`
      fallback; None when nothing matches and the update is ignored. */
  function Route(state: Option<ConvState>, ev: EventKind): (h: Option<Handler>)
    ensures h == Some(StartH) <==> ev == Command("start")
    ensures h == Some(NewRequestH) <==> ev == Callback("new_request")
    ensures state.None? ==> (h.Some? <==> ev == Command("start") || ev == Callback("new_request"))
    ensures h == Some(CancelH) <==> state.Some? && ev == Command("cancel")
    ensures h == Some(AddressH) <==> state == Some(SelectAddress) && ev.Callback? && ev.data != "new_request"
    ensures h == Some(TextH) <==> state == Some(InputText) && ev.TextMessage?
    ensures h == Some(UploadH) <==>
      state == Some(UploadFiles) && ev.MediaMessage? && (ev.document.Some? || ev.photo != [])
    ensures h == Some(ContinueH) <==> state == Some(UploadFiles) && ev == Callback("continue_phone")
    ensures h == Some(PhoneH) <==> state == Some(InputPhone) && ev.TextMessage?
    ensures h == Some(ConfirmH) <==> state == Some(Confirmation) && ev in {Callback("send"), Callback("cancel")}
  {
    if ev == Command("start") then Some(StartH)
    else if ev == Callback("new_request") then Some(NewRequestH)
    else if state.None? then None
    else
      var byState :=
        match state.value
        case SelectAddress => if ev.Callback? then Some(AddressH) else None
        case InputText => if ev.TextMessage? then Some(TextH) else None
        case UploadFiles =>
          if ev.MediaMessage? && (ev.document.Some? || ev.photo != []) then Some(UploadH)
          else if ev == Callback("continue_phone") then Some(ContinueH)
          else None
        case InputPhone => if ev.TextMessage? then Some(PhoneH) else None
        case Confirmation => if ev == Callback("send") || ev == Callback("cancel") then Some(ConfirmH) else None;
      if byState.Some? then byState
      else if ev == Command("cancel") then Some(CancelH)
      else None
  }

  /** The ConversationHandler's bookkeeping after a handler: a returned state
      is stored, END forgets the conversation, and an exception leaves the
      state as it was. */
  datatype Next = Goto(state: ConvState) | End | Raised

  function Advance(states: map<int, ConvState>, uid: int, next: Next): (r: map<int, ConvState>)
    ensures next.Goto? ==> uid in r && r[uid] == next.state
    ensures next.End? ==> uid !in r
    ensures r - {uid} == states - {uid}
    ensures next.Raised? ==> r == states
  {
    match next
    case Goto(s) => states[uid := s]
    case End => states - {uid}
    case Raised => states
  }

  // ---------------------------------------------------------------------------
  // Sessions, submitters, and the outcome of foreign calls
  // ---------------------------------------------------------------------------

  /** `context.user_data`: a key that is absent reads as None (or, for the two
      attachment lists, as the empty list that `.get(..., [])` supplies). */
  datatype Session = Session(
    address: Option<string>,
    text: Option<string>,
    phone: Option<string>,
    files: seq<FileId>,
    fileTypes: seq<MediaKind>,
    continueMsg: Option<MsgId>,
    continueSent: bool)

  /** The session `start` and `new_request` leave: cleared, no continue prompt. */
  const Cleared: Session := Session(None, None, None, [], [], None, false)

  /** What each state's handlers read from the session without a default. */
  predicate Ready(st: ConvState, s: Session) {
    match st
    case SelectAddress => true
    case InputText => s.address.Some?
    case UploadFiles => s.address.Some? && s.text.Some?
    case InputPhone => s.address.Some? && s.text.Some?
    case Confirmation => s.address.Some? && s.text.Some? && s.phone.Some?
  }

  predicate Complete(s: Session) {
    s.address.Some? && s.text.Some? && s.phone.Some?
  }

  datatype User = User(id: int, username: Option<string>, fullName: string)

  /** `user.username or user.full_name`. */
  function DisplayName(u: User): (name: string)
    ensures u.username.Some? && u.username.value != "" ==> name == u.username.value
    ensures u.username.None? || u.username == Some("") ==> name == u.fullName
  {
    if u.username.Some? && u.username.value != "" then u.username.value else u.fullName
  }

  /** The outcomes of the foreign calls one update may make, and the clock. A
      send whose failure the bot catches has a flag here; the others succeed. */
  datatype Env = Env(
    promptId: MsgId,
    editOk: bool,
    markupOk: bool,
    counterSave: SaveOutcome,
    storeOk: bool,
    summaryOk: bool,
    docsOk: bool,
    photosOk: bool,
    thanksOk: bool,
    retryMarkupOk: bool,
    now: string)

  /** The request `confirmation` saves; its status is the integer 1. */
  function MakeTicket(number: int, now: string, u: User, s: Session): (t: Ticket)
    requires Complete(s)
    ensures t.number == number && t.userId == u.id && t.status == Some(StatusCode(1))
    ensures t.address == s.address.value && t.text == s.text.value && t.phone == s.phone.value
    ensures t.files == s.files && t.fileTypes == s.fileTypes
    ensures t.user == DisplayName(u) && t.timestamp == now
  {
    Ticket(number, now, DisplayName(u), u.id, s.address.value, s.text.value, s.phone.value,
           s.files, s.fileTypes, Some(StatusCode(1)))
  }

  /** `confirmation` always passes a status, so the "open" default never applies. */
  lemma ConfirmedStatusKept(number: int, now: string, u: User, s: Session)
    requires Complete(s)
    ensures WithDefaultStatus(MakeTicket(number, now, u, s)).status == Some(StatusCode(1))
  {
  }

  // ---------------------------------------------------------------------------
  // What a "send" press sends
  // ---------------------------------------------------------------------------

  /** One awaited send inside `confirmation`'s `try` and whether it succeeds. */
  datatype Attempt = Attempt(send: Outgoing, ok: bool)

  predicate AllSucceed(attempts: seq<Attempt>) {
    forall i :: 0 <= i < |attempts| ==> attempts[i].ok
  }

  /** The sends that go out before the first one that raises. */
  function Completed(attempts: seq<Attempt>): (r: seq<Outgoing>)
    ensures |r| <= |attempts|
  {
    if attempts == [] then []
    else if attempts[0].ok then [attempts[0].send] + Completed(attempts[1..])
    else []
  }

  /** The sends that went out are the attempts up to the first failure, and
      all of them exactly when every attempt succeeds. */
  lemma {:induction false} CompletedIsPrefix(attempts: seq<Attempt>)
    ensures var r := Completed(attempts);
      && (forall i :: 0 <= i < |r| ==> r[i] == attempts[i].send && attempts[i].ok)
      && (|r| == |attempts| <==> AllSucceed(attempts))
      && (|r| < |attempts| ==> !attempts[|r|].ok)
  {
    if attempts != [] && attempts[0].ok {
      var tail := attempts[1..];
      CompletedIsPrefix(tail);
      assert forall i :: 0 < i < |attempts| ==> tail[i - 1] == attempts[i];
    }
  }

  lemma {:induction false} CompletedSnoc(attempts: seq<Attempt>, a: Attempt)
    ensures Completed(attempts + [a]) ==
      Completed(attempts) + if AllSucceed(attempts) && a.ok then [a.send] else []
    ensures AllSucceed(attempts + [a]) == (AllSucceed(attempts) && a.ok)
  {
    if attempts != [] {
      var tail := attempts[1..];
      assert (attempts + [a])[1..] == tail + [a];
      CompletedSnoc(tail, a);
      assert AllSucceed(attempts) == (attempts[0].ok && AllSucceed(tail)) by {
        assert forall i :: 0 < i < |attempts| ==> tail[i - 1] == attempts[i];
      }
      assert AllSucceed(attempts + [a]) == ((attempts + [a])[0].ok && AllSucceed(tail + [a])) by {
        assert forall i :: 0 < i < |attempts| + 1 ==> (tail + [a])[i - 1] == (attempts + [a])[i];
      }
    } else {
      assert attempts + [a] == [a];
    }
  }

  /** The attempts of the `try` block of `confirmation` after the ticket is
      saved, in order: the summary, the document batch and the photo batch
      (each only when non-empty), removing the preview's buttons, the thanks. */
  function DispatchAttempts(group: string, chat: int, t: Ticket, mention: string, env: Env): seq<Attempt>
  {
    var docs := Batch(t.files, t.fileTypes, Document);
    var photos := Batch(t.files, t.fileTypes, Photo);
    [Attempt(Summary(group, t.number, t.address, t.phone, mention, t.text), env.summaryOk)]
    + (if docs != [] then [Attempt(MediaBatch(group, Document, docs), env.docsOk)] else [])
    + (if photos != [] then [Attempt(MediaBatch(group, Photo, photos), env.photosOk)] else [])
    + [Attempt(ButtonsRemoved(chat), env.markupOk)]
    + [Attempt(Thanks(chat, t.number), env.thanksOk)]
  }

  /** The `except` branch: another try at removing the buttons, then the
      failure message with its "new request" button. */
  function Recovery(chat: int, env: Env): (r: seq<Outgoing>)
    ensures |r| > 0 && r[|r| - 1] == SomethingWrong(chat)
    ensures ButtonsRemoved(chat) in r <==> env.retryMarkupOk
    ensures forall i :: 0 <= i < |r| - 1 ==> r[i] == ButtonsRemoved(chat)
  {
    (if env.retryMarkupOk then [ButtonsRemoved(chat)] else []) + [SomethingWrong(chat)]
  }

  /** Whether the steps before the first send (saving the counter, reading the
      session, saving the ticket) all go through. */
  predicate Saves(s: Session, env: Env) {
    env.counterSave != DirFailed && Complete(s) && env.storeOk
  }

  /** Everything a "send" press with ticket number `number` sends. */
  function SendSends(group: string, chat: int, number: int, u: User, s: Session, env: Env): seq<Outgoing> {
    if !Saves(s, env) then Recovery(chat, env)
    else
      var attempts := DispatchAttempts(group, chat, MakeTicket(number, env.now, u, s), u.fullName, env);
      Completed(attempts) + if AllSucceed(attempts) then [] else Recovery(chat, env)
  }

  /** The condition, in terms of the foreign calls, under which every attempt
      of the `try` block succeeds. */
  predicate DispatchOk(s: Session, env: Env) {
    env.summaryOk
    && (Batch(s.files, s.fileTypes, Document) == [] || env.docsOk)
    && (Batch(s.files, s.fileTypes, Photo) == [] || env.photosOk)
    && env.markupOk && env.thanksOk
  }

  /** The layout of the attempts: the summary first, the batches in the
      middle (documents before photos, never empty), then the buttons' removal
      and the thanks. */
  lemma AttemptsShape(group: string, chat: int, number: int, u: User, s: Session, env: Env)
    requires Complete(s)
    ensures var t := MakeTicket(number, env.now, u, s);
      var att := DispatchAttempts(group, chat, t, u.fullName, env);
      && |att| >= 3
      && att[0] == Attempt(Summary(group, number, s.address.value, s.phone.value, u.fullName, s.text.value), env.summaryOk)
      && att[|att| - 2] == Attempt(ButtonsRemoved(chat), env.markupOk)
      && att[|att| - 1] == Attempt(Thanks(chat, number), env.thanksOk)
      && (forall i :: 0 < i < |att| - 2 ==> att[i].send.MediaBatch?)
      && (forall i :: 0 <= i < |att| && att[i].send.MediaBatch? ==>
            0 < i < |att| - 2 && att[i].send.group == group && att[i].send.files != []
            && att[i].send.files == Batch(s.files, s.fileTypes, att[i].send.mediaKind)
            && att[i].ok == (if att[i].send.mediaKind == Document then env.docsOk else env.photosOk))
      && (forall i, j ::
            (0 <= i < |att| && 0 <= j < |att| && att[i].send.MediaBatch? && att[j].send.MediaBatch?
             && att[i].send.mediaKind == Document && att[j].send.mediaKind == Photo) ==> i < j)
      && (AllSucceed(att) <==> DispatchOk(s, env))
  {
    var t := MakeTicket(number, env.now, u, s);
    var att := DispatchAttempts(group, chat, t, u.fullName, env);
    AttemptsAt(group, chat, t, u.fullName, env);
    AttemptsMedia(group, chat, t, u.fullName, env);
    AttemptsOk(group, chat, t, u.fullName, env);
  }

  /** The media groups sit between the summary and the buttons' removal,
      documents before photos, each the non-empty batch of its kind. */
  lemma AttemptsMedia(group: string, chat: int, t: Ticket, mention: string, env: Env)
    ensures var att := DispatchAttempts(group, chat, t, mention, env);
      && (forall i :: 0 < i < |att| - 2 ==> att[i].send.MediaBatch?)
      && (forall i :: 0 <= i < |att| && att[i].send.MediaBatch? ==>
            0 < i < |att| - 2 && att[i].send.group == group && att[i].send.files != []
            && att[i].send.files == Batch(t.files, t.fileTypes, att[i].send.mediaKind)
            && att[i].ok == (if att[i].send.mediaKind == Document then env.docsOk else env.photosOk))
      && (forall i, j ::
            (0 <= i < |att| && 0 <= j < |att| && att[i].send.MediaBatch? && att[j].send.MediaBatch?
             && att[i].send.mediaKind == Document && att[j].send.mediaKind == Photo) ==> i < j)
  {
    var att := DispatchAttempts(group, chat, t, mention, env);
    AttemptsAt(group, chat, t, mention, env);
    var d := if Batch(t.files, t.fileTypes, Document) != [] then 1 else 0;
    var p := if Batch(t.files, t.fileTypes, Photo) != [] then 1 else 0;
    forall i | 0 <= i < |att| && att[i].send.MediaBatch?
      ensures (d == 1 && i == 1 && att[i].send.mediaKind == Document)
           || (p == 1 && i == 1 + d && att[i].send.mediaKind == Photo)
    {
    }
  }

  /** Each attempt at its own index: the summary, the batches that are not
      empty, the buttons' removal and the thanks. */
  lemma AttemptsAt(group: string, chat: int, t: Ticket, mention: string, env: Env)
    ensures var att := DispatchAttempts(group, chat, t, mention, env);
      var docs := Batch(t.files, t.fileTypes, Document);
      var photos := Batch(t.files, t.fileTypes, Photo);
      var d := if docs != [] then 1 else 0;
      var p := if photos != [] then 1 else 0;
      && |att| == 3 + d + p
      && att[0] == Attempt(Summary(group, t.number, t.address, t.phone, mention, t.text), env.summaryOk)
      && (d == 1 ==> att[1] == Attempt(MediaBatch(group, Document, docs), env.docsOk))
      && (p == 1 ==> att[1 + d] == Attempt(MediaBatch(group, Photo, photos), env.photosOk))
      && att[1 + d + p] == Attempt(ButtonsRemoved(chat), env.markupOk)
      && att[2 + d + p] == Attempt(Thanks(chat, t.number), env.thanksOk)
  {
  }

  /** Every attempt succeeds exactly when each foreign call it makes does. */
  lemma AttemptsOk(group: string, chat: int, t: Ticket, mention: string, env: Env)
    ensures AllSucceed(DispatchAttempts(group, chat, t, mention, env)) <==>
      && env.summaryOk
      && (Batch(t.files, t.fileTypes, Document) == [] || env.docsOk)
      && (Batch(t.files, t.fileTypes, Photo) == [] || env.photosOk)
      && env.markupOk && env.thanksOk
  {
    var att := DispatchAttempts(group, chat, t, mention, env);
    AttemptsAt(group, chat, t, mention, env);
    if !AllSucceed(att) {
      var i :| 0 <= i < |att| && !att[i].ok;
    }
  }

  /** Attempts whose last one alone is the thanks, followed on failure by a
      recovery ending in the failure message: exactly one of the two is sent. */
  lemma {:induction false} OneVerdict(att: seq<Attempt>, rec: seq<Outgoing>, thanks: Outgoing, wrong: Outgoing)
    requires |att| > 0 && att[|att| - 1].send == thanks && thanks != wrong
    requires forall i :: 0 <= i < |att| - 1 ==> att[i].send != thanks
    requires forall i :: 0 <= i < |att| ==> att[i].send != wrong
    requires |rec| > 0 && rec[|rec| - 1] == wrong && thanks !in rec
    ensures var r := Completed(att) + if AllSucceed(att) then [] else rec;
      && |r| > 0
      && (r[|r| - 1] == thanks || r[|r| - 1] == wrong)
      && (thanks in r <==> AllSucceed(att))
      && (wrong in r <==> thanks !in r)
  {
    var c := Completed(att);
    CompletedIsPrefix(att);
    assert forall i :: 0 <= i < |c| ==> c[i] == att[i].send;
    if AllSucceed(att) {
      assert c[|c| - 1] == thanks;
    } else {
      var r := c + rec;
      assert r[|r| - 1] == wrong;
      assert thanks !in c;
      assert wrong !in c;
    }
  }

  /** A "send" press ends with exactly one verdict for the user, last: the
      thanks exactly when the ticket was saved and every send went through,
      the failure message otherwise. */
  lemma SendVerdict(group: string, chat: int, number: int, u: User, s: Session, env: Env)
    ensures var r := SendSends(group, chat, number, u, s, env);
      && |r| > 0
      && (r[|r| - 1] == Thanks(chat, number) || r[|r| - 1] == SomethingWrong(chat))
      && (Thanks(chat, number) in r <==> Saves(s, env) && DispatchOk(s, env))
      && (SomethingWrong(chat) in r <==> Thanks(chat, number) !in r)
  {
    var rec := Recovery(chat, env);
    assert Thanks(chat, number) !in rec;
    if Saves(s, env) {
      var att := DispatchAttempts(group, chat, MakeTicket(number, env.now, u, s), u.fullName, env);
      ThanksOnlyLast(group, chat, number, u, s, env);
      OneVerdict(att, rec, Thanks(chat, number), SomethingWrong(chat));
    }
  }

  /** Of the attempts, only the last is the thanks, none is the failure
      message, and all succeed exactly when the foreign calls do. */
  lemma ThanksOnlyLast(group: string, chat: int, number: int, u: User, s: Session, env: Env)
    requires Complete(s)
    ensures var att := DispatchAttempts(group, chat, MakeTicket(number, env.now, u, s), u.fullName, env);
      && |att| > 0 && att[|att| - 1].send == Thanks(chat, number)
      && (forall i :: 0 <= i < |att| - 1 ==> att[i].send != Thanks(chat, number))
      && (forall i :: 0 <= i < |att| ==> att[i].send != SomethingWrong(chat))
      && (AllSucceed(att) <==> DispatchOk(s, env))
  {
    AttemptsShape(group, chat, number, u, s, env);
    var att := DispatchAttempts(group, chat, MakeTicket(number, env.now, u, s), u.fullName, env);
    forall i | 0 <= i < |att| - 1 ensures att[i].send != Thanks(chat, number) {
      if 0 < i < |att| - 2 {
        assert att[i].send.MediaBatch?;
      }
    }
    forall i | 0 <= i < |att| ensures att[i].send != SomethingWrong(chat) {
      if 0 < i < |att| - 2 {
        assert att[i].send.MediaBatch?;
      }
    }
  }

  /** The sends of a "send" press that went out: those of the attempts up to
      the first failure, then the recovery, which holds no group message. */
  lemma SendSendsSplit(group: string, chat: int, number: int, u: User, s: Session, env: Env)
    requires Saves(s, env)
    ensures var r := SendSends(group, chat, number, u, s, env);
      var att := DispatchAttempts(group, chat, MakeTicket(number, env.now, u, s), u.fullName, env);
      var c := Completed(att);
      && |c| <= |r|
      && (forall i :: 0 <= i < |c| ==> r[i] == att[i].send)
      && (forall i :: |c| <= i < |r| ==> r[i].ButtonsRemoved? || r[i].SomethingWrong?)
  {
    CompletedIsPrefix(DispatchAttempts(group, chat, MakeTicket(number, env.now, u, s), u.fullName, env));
  }

  /** Nothing reaches the staff group unless the ticket was saved first, and
      the summary is then the first send, carrying the ticket's number and
      fields. */
  lemma SendGroupMessages(group: string, chat: int, number: int, u: User, s: Session, env: Env)
    ensures var r := SendSends(group, chat, number, u, s, env);
      && (forall i :: 0 <= i < |r| && (r[i].Summary? || r[i].MediaBatch?) ==> Saves(s, env) && r[i].group == group)
      && (Saves(s, env) && env.summaryOk ==>
            r[0] == Summary(group, number, s.address.value, s.phone.value, u.fullName, s.text.value))
  {
    if Saves(s, env) {
      AttemptsShape(group, chat, number, u, s, env);
      SendSendsSplit(group, chat, number, u, s, env);
    }
  }

  /** Each batch sent is non-empty and holds exactly the files of its kind in
      the order they were sent; the documents go before the photos. */
  lemma SendBatches(group: string, chat: int, number: int, u: User, s: Session, env: Env)
    ensures var r := SendSends(group, chat, number, u, s, env);
      && (forall i :: 0 <= i < |r| && r[i].MediaBatch? ==>
            r[i].files != [] && r[i].files == Batch(s.files, s.fileTypes, r[i].mediaKind))
      && (forall i, j ::
            (0 <= i < |r| && 0 <= j < |r| && r[i].MediaBatch? && r[j].MediaBatch?
             && r[i].mediaKind == Document && r[j].mediaKind == Photo) ==> i < j)
  {
    if Saves(s, env) {
      AttemptsShape(group, chat, number, u, s, env);
      SendSendsSplit(group, chat, number, u, s, env);
    }
  }

  // ---------------------------------------------------------------------------
  // The summary and the number a staff reply recovers from it
  // ---------------------------------------------------------------------------

  /** Everything of the summary after the ticket reference: the site, the
      contact line and the request text. */
  function SummaryBody(o: Outgoing): (r: string)
    requires o.Summary?
    ensures ContainsAll(r, [o.address, o.phone, o.mention])
    ensures EndsWith(r, o.text + "\n")
  {
    var site := ".\n\nОбъект: ";
    var contact := site + o.address + ".\nКонтактные данные отправителя: ";
    var who := contact + o.phone + " (";
    var rest := who + o.mention + ").\n\n";
    ContainsAllAppend(site, o.address, []);
    assert [] + [o.address] == [o.address];
    ContainsAllGrow(site + o.address, ".\nКонтактные данные отправителя: ", [o.address]);
    ContainsAllAppend(contact, o.phone, [o.address]);
    assert [o.address] + [o.phone] == [o.address, o.phone];
    ContainsAllGrow(contact + o.phone, " (", [o.address, o.phone]);
    ContainsAllAppend(who, o.mention, [o.address, o.phone]);
    assert [o.address, o.phone] + [o.mention] == [o.address, o.phone, o.mention];
    ContainsAllGrow(who + o.mention, ").\n\n", [o.address, o.phone, o.mention]);
    ContainsAllGrow(rest, o.text + "\n", [o.address, o.phone, o.mention]);
    EndsWithLast(rest, o.text, "\n");
    assert rest + (o.text + "\n") == rest + o.text + "\n";
    rest + o.text + "\n"
  }

  /** The summary's text as staff clients hold it once Telegram has applied
      the HTML markup: the tags are gone and the mention is the sender's name.
      Its first line names the ticket `#n`; the body follows. */
  function RenderedSummary(o: Outgoing): (r: string)
    requires o.Summary?
    ensures Contains(r, "#" + IntToString(o.number))
    ensures Contains(r, o.address) && Contains(r, o.phone) && Contains(r, o.mention)
    ensures EndsWith(r, o.text + "\n")
  {
    var head := "\U{1F4DF} " + Phrase + " ";
    var tag := "#" + IntToString(o.number);
    var body := SummaryBody(o);
    ContainsInside(head, tag, body);
    ContainsAllPrepend(head + tag, body, [o.address, o.phone, o.mention]);
    var ts := [o.address, o.phone, o.mention];
    assert Contains(head + tag + body, ts[0]) && Contains(head + tag + body, ts[1]);
    assert Contains(head + tag + body, ts[2]);
    EndsWithPrepend(head + tag, body, o.text + "\n");
    head + tag + body
  }

  /** The phrase's first letter occurs nowhere else in it. */
  lemma PhraseLeadOnce()
    ensures forall i :: 0 < i < |Phrase| ==> Phrase[i] != Phrase[0]
  {
  }

  /** No match starts at a position that does not hold the phrase's first letter. */
  lemma NoMatchWithoutLead(s: string, j: nat)
    requires j < |s| ==> s[j] != Phrase[0]
    ensures MatchAt(s, j).None?
  {
  }

  /** On such a first line the phrase's first letter occurs only at 2. */
  lemma FirstLineOneLead(a: string, d: string, b: string)
    requires |a| == 2 && AllDigits(d) && |b| >= 2 && b[0] == '.' && b[1] == '\n'
    ensures var s := a + Phrase + [' '] + "#" + d + b;
      forall j :: 2 < j <= |Phrase| + 4 + |d| + 1 ==> MatchAt(s, j).None?
  {
    var head := a + Phrase + [' '] + "#";
    var pre := head + d;
    var s := pre + b;
    assert s == a + Phrase + [' '] + "#" + d + b;
    var n := |Phrase|;
    PhraseLeadOnce();
    forall j | 2 < j <= n + 4 + |d| + 1
      ensures MatchAt(s, j).None?
    {
      if j < |head| {
        assert s[j] == head[j];
        if j < 2 + n {
          assert head[j] == Phrase[j - 2];
        } else {
          assert head[j] == ' ' || head[j] == '#';
        }
      } else if j < |pre| {
        assert s[j] == d[j - |head|];
        assert IsDigit(s[j]);
      } else {
        assert s[j] == b[j - |pre|];
      }
      NoMatchWithoutLead(s, j);
    }
  }

  /** Such a first line ends at the full stop's newline at the latest. */
  lemma FirstLineEnd(a: string, d: string, b: string)
    requires |a| == 2 && a[0] != '\n' && a[1] != '\n'
    requires |b| >= 2 && b[1] == '\n'
    ensures var s := a + Phrase + [' '] + "#" + d + b;
      && (forall k :: 0 <= k < 2 ==> s[k] != '\n')
      && LineEnd(s, 0) <= |Phrase| + 4 + |d| + 1
  {
    var pre := a + Phrase + [' '] + "#" + d;
    var s := pre + b;
    assert s[0] == a[0] && s[1] == a[1];
    assert s[|pre| + 1] == '\n';
  }

  /** A first line made of two characters, the phrase, a space, '#', a digit
      run and a full stop yields the value of that digit run. */
  lemma FirstLineNumber(a: string, d: string, b: string)
    requires |a| == 2 && a[0] != '\n' && a[1] != '\n'
    requires d != [] && AllDigits(d)
    requires |b| >= 2 && b[0] == '.' && b[1] == '\n'
    ensures GetRequestNumber(Some(a + Phrase + [' '] + "#" + d + b)) == Some(DigitsValue(d))
  {
    WholeDigitRunCaptured(a, ' ', d, b);
    FirstLineEnd(a, d, b);
    FirstLineOneLead(a, d, b);
    LastOnFirstLineWins(a + Phrase + [' '] + "#" + d + b, 2);
  }

  /** A reply to the summary of ticket n recovers n, whatever the address,
      phone, name and request text are. */
  lemma SummaryRoundTrip(o: Outgoing)
    requires o.Summary? && o.number >= 0
    ensures GetRequestNumber(Some(RenderedSummary(o))) == Some(o.number)
  {
    var a := "\U{1F4DF} ";
    var d := Decimal(o.number);
    var b := SummaryBody(o);
    assert SummaryBody(o)[0] == '.' && SummaryBody(o)[1] == '\n';
    assert RenderedSummary(o) == a + Phrase + [' '] + "#" + d + b;
    FirstLineNumber(a, d, b);
    DecimalRoundTrip(o.number);
  }

  /** A staff reply to the summary of ticket n, with the ticket list on disk
      holding a ticket n whose author id is not 0, is relayed to that author
      with the ticket's number in its text, and is the first thing sent, in
      the code as written and in the corrected notice logic alike. */
  lemma StaffReplyReachesAuthor(o: Outgoing, store: seq<Ticket>, t: Ticket, u: GroupUpdate, env: ReplyEnv)
    requires o.Summary? && o.number > 0
    requires FirstTicket(store, o.number) == Some(t) && t.userId != 0
    requires u.message.Some? && u.message.value.replyTo == Some(RepliedTo(Some(RenderedSummary(o))))
    requires RelayOf(u.message.value, o.number, JInt(t.userId)).Relayed? && env.relayOk
    ensures var r := GroupReplySends(u, Readable(JList(StoreJson(store))), env);
      && |r| > 0 && r[0].Relay? && r[0].to == JInt(t.userId)
      && Contains(r[0].text, "#" + IntToString(o.number))
    ensures var r := IntendedGroupReplySends(u, Readable(JList(StoreJson(store))), env);
      && |r| > 0 && r[0] == GroupReplySends(u, Readable(JList(StoreJson(store))), env)[0]
  {
    SummaryRoundTrip(o);
    var f := Readable(JList(StoreJson(store)));
    assert ReplyNumber(u) == o.number;
    StoreLookup(store, o.number);
    assert UserIdFor(f, o.number) == JInt(t.userId);
    RelayGoesToAuthor(u, f, env, 0);
  }

  // ---------------------------------------------------------------------------
  // The bot
  // ---------------------------------------------------------------------------

  /** `user_data` of `uid`; a user without one reads as cleared. */
  function SessionIn(sessions: map<int, Session>, uid: int): Session {
    if uid in sessions then sessions[uid] else Cleared
  }

  /** `upload_files` appends to both attachment lists together. */
  predicate WellFormed(s: Session) {
    |s.files| == |s.fileTypes|
  }

  ghost predicate SessionsOk(sessions: map<int, Session>) {
    forall uid :: uid in sessions ==> WellFormed(sessions[uid])
  }

  /** Every user in a conversation has the session data their state's
      handlers read without a default. */
  ghost predicate StatesOk(states: map<int, ConvState>, sessions: map<int, Session>) {
    forall uid :: uid in states ==> Ready(states[uid], SessionIn(sessions, uid))
  }

  /** The tickets saved since start-up carry increasing numbers below the
      counter. */
  ghost predicate StoreOk(store: seq<Ticket>, base: nat, counter: int) {
    && base <= |store|
    && (forall i :: base <= i < |store| ==> store[i].number < counter)
    && (forall i, j :: base <= i < j < |store| ==> store[i].number < store[j].number)
  }

  /** What a handler must leave in the session of the user it served: a
      returned state's data, and, when it raises, the data of the state kept. */
  predicate StepReady(st: Option<ConvState>, next: Next, s: Session) {
    && WellFormed(s)
    && (next.Goto? ==> Ready(next.state, s))
    && (next.Raised? && st.Some? ==> Ready(st.value, s))
  }

  /** A step that changes at most one user's session, and leaves it ready for
      the state recorded next, keeps every user's session ready. */
  lemma StepKeepsReady(states: map<int, ConvState>, sessions: map<int, Session>, sessions': map<int, Session>, uid: int, next: Next)
    requires SessionsOk(sessions) && StatesOk(states, sessions)
    requires sessions' == sessions || sessions' == sessions[uid := SessionIn(sessions', uid)]
    requires StepReady(if uid in states then Some(states[uid]) else None, next, SessionIn(sessions', uid))
    ensures SessionsOk(sessions') && StatesOk(Advance(states, uid, next), sessions')
  {
    var states' := Advance(states, uid, next);
    forall v | v in states'
      ensures Ready(states'[v], SessionIn(sessions', v))
    {
      if v != uid {
        assert v in states && states'[v] == states[v];
      }
    }
  }

  /** Saving a ticket under the counter's value and then advancing the
      counter keeps the numbering. */
  lemma StoreStep(store: seq<Ticket>, base: nat, counter: int, t: Ticket)
    requires StoreOk(store, base, counter) && t.number == counter
    ensures StoreOk(Appended(store, t), base, counter + 1)
  {
  }

  /** A ticket saved under the counter's value, when the tickets from before
      start-up never used it, is the one the reply router finds. */
  lemma FreshNumberFound(store: seq<Ticket>, base: nat, counter: int, t: Ticket)
    requires StoreOk(store, base, counter) && t.number == counter
    requires forall i :: 0 <= i < base ==> store[i].number != counter
    ensures LookupUserId(StoreJson(Appended(store, t)), counter) == JInt(t.userId)
  {
    FirstTicketNone(store, counter);
    SavedTicketIsFound(store, t);
  }

  /** What one handler leaves of the ticket list: the list as it was, or, on
      a submit that saved, one ticket more under the counter's old value,
      which the reply router finds when the tickets from before start-up never
      used that number. Either way the invariant holds for the new counter. */
  lemma StoreAfterStep(store: seq<Ticket>, store': seq<Ticket>, base: nat, counter: int, counter': int,
                       now: string, u: User, s: Session)
    requires StoreOk(store, base, counter) && counter <= counter'
    requires store' == store || (counter' == counter + 1 && Complete(s) && store' == Appended(store, MakeTicket(counter, now, u, s)))
    ensures StoreOk(store', base, counter')
    ensures store <= store' && |store'| <= |store| + 1
    ensures |store'| == |store| + 1 ==>
      store'[|store|].number == counter && store'[|store|].userId == u.id && counter' == counter + 1
    ensures |store'| == |store| + 1 && (forall i :: 0 <= i < base ==> store[i].number != counter) ==>
      LookupUserId(StoreJson(store'), counter) == JInt(u.id)
  {
    if store' != store {
      var t := MakeTicket(counter, now, u, s);
      StoreStep(store, base, counter, t);
      if forall i :: 0 <= i < base ==> store[i].number != counter {
        FreshNumberFound(store, base, counter, t);
      }
    }
  }

  /** The state each handler returns, given the session it starts from. */
  function NextOf(h: Handler, ev: EventKind, group: string, s: Session): (n: Next)
    ensures n == End <==> h == CancelH || (h == ConfirmH && group != "" && ev != Callback("cancel"))
    ensures n == Goto(SelectAddress) <==>
      h == StartH || h == NewRequestH || (h == ConfirmH && group != "" && ev == Callback("cancel"))
  {
    match h
    case StartH => Goto(SelectAddress)
    case NewRequestH => Goto(SelectAddress)
    case AddressH => if ev.Callback? && DecodeAddress(ev.data).Some? then Goto(InputText) else Next.Raised
    case TextH => Goto(UploadFiles)
    case UploadH => Goto(UploadFiles)
    case ContinueH => Goto(InputPhone)
    case PhoneH => if s.address.Some? && s.text.Some? then Goto(Confirmation) else Next.Raised
    case ConfirmH =>
      if group == "" then Next.Raised
      else if ev == Callback("cancel") then Goto(SelectAddress)
      else End
    case CancelH => End
  }

  /** A handler raises exactly when the address callback does not decode,
      the session lacks the address or text the phone step reads, or the
      confirmation runs without a group id. */
  lemma NextOfRaises(h: Handler, ev: EventKind, group: string, s: Session)
    ensures NextOf(h, ev, group, s).Raised? <==>
      || (h == AddressH && !(ev.Callback? && DecodeAddress(ev.data).Some?))
      || (h == PhoneH && !(s.address.Some? && s.text.Some?))
      || (h == ConfirmH && group == "")
  {
  }

  /** The conversation only moves forward through its states, apart from
      restarts and the end; with the session data the state guarantees, only
      an undecodable address and a missing GROUP_ID raise. */
  lemma StateOrder(st: Option<ConvState>, ev: EventKind, group: string, s: Session)
    requires Route(st, ev).Some? && (st.Some? ==> Ready(st.value, s))
    ensures var n := NextOf(Route(st, ev).value, ev, group, s);
      && (n == Goto(InputText) ==> st == Some(SelectAddress))
      && (n == Goto(UploadFiles) ==> st == Some(InputText) || st == Some(UploadFiles))
      && (n == Goto(InputPhone) ==> st == Some(UploadFiles))
      && (n == Goto(Confirmation) ==> st == Some(InputPhone))
      && (n == End ==> st.Some?)
      && (n.Raised? <==>
            (st == Some(SelectAddress) && ev.Callback? && ev.data != "new_request" && DecodeAddress(ev.data).None?)
            || (st == Some(Confirmation) && group == "" && Route(st, ev) == Some(ConfirmH)))
  {
  }

  /** A "send" press the handler gets past the GROUP_ID check with. */
  predicate SendPress(state: Option<ConvState>, ev: EventKind, group: string) {
    state == Some(Confirmation) && ev == Callback("send") && group != ""
  }

  /** The session `upload_files` leaves: the document, or else the largest
      photo size, appended with its tag; a resent prompt's id remembered. */
  function Uploaded(s: Session, document: Option<FileId>, photo: seq<FileId>, env: Env): (r: Session)
    ensures |r.files| == |s.files| + (if document.Some? || photo != [] then 1 else 0)
    ensures WellFormed(s) ==> WellFormed(r)
    ensures |r.fileTypes| == |s.fileTypes| + (if document.Some? || photo != [] then 1 else 0)
    ensures r.files[..|s.files|] == s.files && r.fileTypes[..|s.fileTypes|] == s.fileTypes
    ensures document.Some? ==> r.files == s.files + [document.value] && r.fileTypes == s.fileTypes + [Document]
    ensures document.None? && photo != [] ==>
      r.files == s.files + [photo[|photo| - 1]] && r.fileTypes == s.fileTypes + [Photo]
    ensures document.None? && photo == [] ==> r.files == s.files && r.fileTypes == s.fileTypes
    ensures r.address == s.address && r.text == s.text && r.phone == s.phone && r.continueSent == s.continueSent
    ensures r.continueMsg == (if s.continueMsg.Some? && s.continueSent && !env.editOk then Some(env.promptId) else s.continueMsg)
  {
    var added := if document.Some? then [document.value] else if photo != [] then [photo[|photo| - 1]] else [];
    var kinds := if document.Some? then [Document] else if photo != [] then [Photo] else [];
    var prompted := s.continueMsg.Some? && s.continueSent;
    s.(files := s.files + added, fileTypes := s.fileTypes + kinds,
       continueMsg := if prompted && !env.editOk then Some(env.promptId) else s.continueMsg)
  }

  /** What `upload_files` sends: the new count edited into the prompt, or a
      new prompt when editing fails; nothing before the first prompt. */
  function UploadSent(chat: int, s: Session, document: Option<FileId>, photo: seq<FileId>, env: Env): seq<Outgoing> {
    var count := |s.files| + if document.Some? || photo != [] then 1 else 0;
    if !(s.continueMsg.Some? && s.continueSent) then []
    else if env.editOk then [CountEdited(chat, s.continueMsg.value, count, AttachmentWord(count))]
    else [CountResent(chat, count, AttachmentWord(count))]
  }

  /** The count `upload_files` shows is the number of attachments now
      recorded, with the word that goes with it. */
  lemma CountShownIsRecorded(chat: int, s: Session, document: Option<FileId>, photo: seq<FileId>, env: Env)
    ensures var sent := UploadSent(chat, s, document, photo, env);
      && |sent| <= 1
      && (sent != [] <==> s.continueMsg.Some? && s.continueSent)
      && forall i :: 0 <= i < |sent| ==>
           && (sent[i].CountEdited? || sent[i].CountResent?)
           && (sent[i].CountEdited? <==> env.editOk)
           && (sent[i].CountEdited? ==> sent[i].msg == s.continueMsg.value)
           && sent[i].count == |Uploaded(s, document, photo, env).files|
           && sent[i].word == AttachmentWord(sent[i].count)
  {
  }

  /** The session handler h leaves for the user it serves, given the one it
      starts from. */
  function SessionAfter(h: Handler, ev: EventKind, group: string, s: Session, env: Env): Session {
    match h
    case StartH => Cleared
    case NewRequestH => Cleared
    case AddressH =>
      if ev.Callback? && DecodeAddress(ev.data).Some? then s.(address := DecodeAddress(ev.data)) else s
    case TextH =>
      if ev.TextMessage? then
        s.(text := Some(ev.text), files := [], fileTypes := [], continueMsg := Some(env.promptId), continueSent := true)
      else s
    case UploadH => if ev.MediaMessage? then Uploaded(s, ev.document, ev.photo, env) else s
    case ContinueH => s
    case PhoneH => if ev.TextMessage? then s.(phone := Some(ev.text)) else s
    case ConfirmH => if group != "" && ev == Callback("cancel") then Cleared else s
    case CancelH => s
  }

  /** What handler h sends in chat `chat`, for user u whose session is s,
      with `number` the counter's value. */
  function SentBy(h: Handler, ev: EventKind, group: string, chat: int, u: User, number: int, s: Session, env: Env): seq<Outgoing> {
    match h
    case StartH => [AddressMenu(chat, AddressKeyboard(), false)]
    case NewRequestH => [AddressMenu(chat, AddressKeyboard(), false)]
    case AddressH =>
      if ev.Callback? && DecodeAddress(ev.data).Some? then
        [AddressChosen(chat, DecodeAddress(ev.data).value), AskText(chat)]
      else []
    case TextH => [ContinuePrompt(chat)]
    case UploadH => if ev.MediaMessage? then UploadSent(chat, s, ev.document, ev.photo, env) else []
    case ContinueH => (if env.markupOk then [ButtonsRemoved(chat)] else []) + [AskContact(chat)]
    case PhoneH =>
      if ev.TextMessage? && s.address.Some? && s.text.Some? then
        [Preview(chat, s.address.value, ev.text, s.text.value, |s.files|)]
      else []
    case ConfirmH =>
      if group == "" then []
      else if ev == Callback("cancel") then [AddressMenu(chat, AddressKeyboard(), true)]
      else SendSends(group, chat, number, u, s, env)
    case CancelH => [Cancelled(chat)]
  }

  /** One update from one user, on values: the update is routed, and its
      handler's session update applied and its returned state recorded, as
      `IntakeBot.Handle` does; an update with no handler changes nothing. */
  function Step(st: Option<ConvState>, s: Session, ev: EventKind, group: string, env: Env)
    : (Option<ConvState>, Session)
  {
    var h := Route(st, ev);
    if h.None? then (st, s)
    else
      var next := match NextOf(h.value, ev, group, s)
                  case Goto(x) => Some(x)
                  case End => None
                  case Raised => st;
      (next, SessionAfter(h.value, ev, group, s, env))
  }

  /** The updates evs one after the other. */
  function Walk(st: Option<ConvState>, s: Session, evs: seq<EventKind>, group: string, env: Env)
    : (Option<ConvState>, Session)
    decreases |evs|
  {
    if evs == [] then (st, s)
    else
      var n := Step(st, s, evs[0], group, env);
      Walk(n.0, n.1, evs[1..], group, env)
  }

  /** The session after the address, text and phone steps of FormWalk. */
  function FormSession(env: Env, text: string, phone: string): Session {
    Session(Some(AddressList[0]), Some(text), Some(phone), [], [], Some(env.promptId), true)
  }

  /** The address step of FormWalk: the first address button decodes. */
  lemma FormAddressStep(group: string, env: Env)
    ensures Step(Some(SelectAddress), Cleared, Callback(AddressCallback(0)), group, env)
      == (Some(InputText), Cleared.(address := Some(AddressList[0])))
  {
    var a := AddressCallback(0);
    assert DecodeAddress(a) == Some(AddressList[0]) by { KeyboardRoundTrip(0); }
    assert a != "new_request" by { assert a[..5] == "addr_"; }
    assert Route(Some(SelectAddress), Callback(a)) == Some(AddressH);
  }

  /** The text, continue and phone steps of FormWalk. */
  lemma FormTextSteps(group: string, env: Env, text: string, phone: string)
    ensures Step(Some(InputText), Cleared.(address := Some(AddressList[0])), TextMessage(text), group, env)
      == (Some(UploadFiles), FormSession(env, text, "").(phone := None))
    ensures Step(Some(UploadFiles), FormSession(env, text, "").(phone := None), Callback("continue_phone"), group, env)
      == (Some(InputPhone), FormSession(env, text, "").(phone := None))
    ensures Step(Some(InputPhone), FormSession(env, text, "").(phone := None), TextMessage(phone), group, env)
      == (Some(Confirmation), FormSession(env, text, phone))
  {
    assert Route(Some(InputText), TextMessage(text)) == Some(TextH);
    assert Route(Some(UploadFiles), Callback("continue_phone")) == Some(ContinueH) by {
      assert Callback("continue_phone") != Callback("new_request");
    }
    assert Route(Some(InputPhone), TextMessage(phone)) == Some(PhoneH);
  }

  /** An update in front of others is taken first. */
  lemma WalkFirst(st: Option<ConvState>, s: Session, ev: EventKind, rest: seq<EventKind>, group: string, env: Env)
    ensures Walk(st, s, [ev] + rest, group, env)
      == Walk(Step(st, s, ev, group, env).0, Step(st, s, ev, group, env).1, rest, group, env)
  {
    assert ([ev] + rest)[1..] == rest;
  }

  /** The five form-filling updates of FormWalk reach the confirmation step. */
  lemma {:induction false} FormFilled(st: Option<ConvState>, s: Session, group: string, env: Env)
    ensures Walk(st, s, [Command("start"), Callback(AddressCallback(0)), TextMessage("leak"),
                         Callback("continue_phone"), TextMessage("+1000")], group, env)
      == (Some(Confirmation), FormSession(env, "leak", "+1000"))
  {
    var s1 := Cleared.(address := Some(AddressList[0]));
    var s2 := FormSession(env, "leak", "").(phone := None);
    var s4 := FormSession(env, "leak", "+1000");
    assert Step(st, s, Command("start"), group, env) == (Some(SelectAddress), Cleared) by {
      assert Route(st, Command("start")) == Some(StartH);
    }
    FormAddressStep(group, env);
    FormTextSteps(group, env, "leak", "+1000");
    WalkFirst(Some(InputPhone), s2, TextMessage("+1000"), [], group, env);
    WalkFirst(Some(UploadFiles), s2, Callback("continue_phone"), [TextMessage("+1000")], group, env);
    WalkFirst(Some(InputText), s1, TextMessage("leak"), [Callback("continue_phone"), TextMessage("+1000")], group, env);
    WalkFirst(Some(SelectAddress), Cleared, Callback(AddressCallback(0)),
              [TextMessage("leak"), Callback("continue_phone"), TextMessage("+1000")], group, env);
    WalkFirst(st, s, Command("start"),
              [Callback(AddressCallback(0)), TextMessage("leak"), Callback("continue_phone"), TextMessage("+1000")], group, env);
  }

  /** The walk through the whole form: /start, the first address button, the
      text "leak", "continue" with no attachments and the phone "+1000" reach
      the confirmation step, whatever state the user was in, with a session
      whose ticket holds the first address, that text, that phone and no
      attachments. The "send" press that follows is a `SendPress`, so
      `IntakeBot.Handle` then appends that ticket under the counter's value
      and advances the counter by one; afterwards the conversation has ended. */
  lemma FormWalk(st: Option<ConvState>, s: Session, group: string, env: Env, u: User, number: int)
    requires group != ""
    ensures var w := Walk(st, s, [Command("start"), Callback(AddressCallback(0)), TextMessage("leak"),
                                  Callback("continue_phone"), TextMessage("+1000")], group, env);
      && w.0 == Some(Confirmation) && Complete(w.1)
      && SendPress(w.0, Callback("send"), group)
      && MakeTicket(number, env.now, u, w.1).address == AddressList[0]
      && MakeTicket(number, env.now, u, w.1).text == "leak"
      && MakeTicket(number, env.now, u, w.1).phone == "+1000"
      && MakeTicket(number, env.now, u, w.1).files == []
      && Walk(w.0, w.1, [Callback("send")], group, env).0 == None
  {
    var s4 := FormSession(env, "leak", "+1000");
    FormFilled(st, s, group, env);
    WalkFirst(Some(Confirmation), s4, Callback("send"), [], group, env);
    assert Route(Some(Confirmation), Callback("send")) == Some(ConfirmH) by {
      assert Callback("send") != Callback("new_request") && Callback("send") != Callback("cancel");
    }
  }

  /** The running bot: the ConversationHandler's states, `user_data`, the
      ticket counter in `bot_data`, the two data files, and everything sent. */
  class IntakeBot {
    /** The conversation state of each user in a conversation. */
    var states: map<int, ConvState>
    /** `user_data` of each user who has one. */
    var sessions: map<int, Session>
    /** `bot_data["application_counter"]`: the number the next ticket gets. */
    var counter: int
    /** data/counter.json. */
    var counterFile: CounterFile
    /** The list held in data/requests.json. */
    var store: seq<Ticket>
    /** Every message sent or edited, in order. */
    var outbox: seq<Outgoing>
    /** GROUP_ID, or "" when it is not set. */
    const group: string
    /** How many tickets the list held when the bot started. */
    ghost const base: nat

    ghost predicate Valid()
      reads this
    {
      SessionsOk(sessions) && StatesOk(states, sessions) && StoreOk(store, base, counter)
    }

    function SessionOf(uid: int): Session
      reads this
    {
      SessionIn(sessions, uid)
    }

    function StateOf(uid: int): Option<ConvState>
      reads this
    {
      if uid in states then Some(states[uid]) else None
    }

    /** `main`: the counter is loaded once at start-up (a `load_counter` that
        raises stops the program, hence the precondition). */
    constructor (file: CounterFile, initial: int, save: SaveOutcome, tickets: seq<Ticket>, groupId: string)
      requires LoadCounter(file, initial, save).CounterLoaded?
      ensures Valid()
      ensures states == map[] && sessions == map[] && outbox == []
      ensures counter == LoadCounter(file, initial, save).value
      ensures counterFile == LoadCounter(file, initial, save).file
      ensures store == tickets && group == groupId && base == |tickets|
    {
      var loaded := LoadCounter(file, initial, save);
      states := map[];
      sessions := map[];
      counter := loaded.value;
      counterFile := loaded.file;
      store := tickets;
      outbox := [];
      group := groupId;
      base := |tickets|;
    }

    /** `start`: a cleared session and the address menu, edited into the
        pressed message when the update is a button press. */
    method Start(uid: int, chat: int, viaCallback: bool) returns (next: Next)
      modifies this
      ensures next == Goto(ConvState.SelectAddress)
      ensures sessions == old(sessions)[uid := Cleared]
      ensures outbox == old(outbox) + [AddressMenu(chat, AddressKeyboard(), viaCallback)]
      ensures states == old(states) && counter == old(counter) && counterFile == old(counterFile) && store == old(store)
    {
      sessions := sessions[uid := Cleared];
      outbox := outbox + [AddressMenu(chat, AddressKeyboard(), viaCallback)];
      next := Goto(ConvState.SelectAddress);
    }

    /** `new_request`: like `start`, always as a new message. */
    method NewRequest(uid: int, chat: int) returns (next: Next)
      modifies this
      ensures next == Goto(ConvState.SelectAddress)
      ensures sessions == old(sessions)[uid := Cleared]
      ensures outbox == old(outbox) + [AddressMenu(chat, AddressKeyboard(), false)]
      ensures states == old(states) && counter == old(counter) && counterFile == old(counterFile) && store == old(store)
    {
      sessions := sessions[uid := Cleared];
      outbox := outbox + [AddressMenu(chat, AddressKeyboard(), false)];
      next := Goto(ConvState.SelectAddress);
    }

    /** `address_selected`: records the decoded address, or raises. */
    method AddressSelected(uid: int, chat: int, data: string) returns (next: Next)
      modifies this
      ensures DecodeAddress(data).None? ==>
        next == Next.Raised && sessions == old(sessions) && outbox == old(outbox)
      ensures DecodeAddress(data).Some? ==>
        var a := DecodeAddress(data).value;
        && next == Goto(ConvState.InputText)
        && sessions == old(sessions)[uid := old(SessionOf(uid)).(address := Some(a))]
        && outbox == old(outbox) + [AddressChosen(chat, a), AskText(chat)]
      ensures states == old(states) && counter == old(counter) && counterFile == old(counterFile) && store == old(store)
    {
      var decoded := DecodeAddress(data);
      if decoded.None? {
        return Next.Raised;
      }
      var a := decoded.value;
      sessions := sessions[uid := SessionOf(uid).(address := Some(a))];
      outbox := outbox + [AddressChosen(chat, a), AskText(chat)];
      next := Goto(ConvState.InputText);
    }

    /** `input_text`: records the text, empties the attachments and sends the
        "continue" prompt, whose id is remembered. */
    method InputText(uid: int, chat: int, text: string, env: Env) returns (next: Next)
      modifies this
      ensures next == Goto(ConvState.UploadFiles)
      ensures sessions == old(sessions)[uid := old(SessionOf(uid)).(
        text := Some(text), files := [], fileTypes := [], continueMsg := Some(env.promptId), continueSent := true)]
      ensures outbox == old(outbox) + [ContinuePrompt(chat)]
      ensures states == old(states) && counter == old(counter) && counterFile == old(counterFile) && store == old(store)
    {
      var s := SessionOf(uid).(text := Some(text), files := [], fileTypes := []);
      outbox := outbox + [ContinuePrompt(chat)];
      sessions := sessions[uid := s.(continueMsg := Some(env.promptId), continueSent := true)];
      next := Goto(ConvState.UploadFiles);
    }

    /** `upload_files`: records the document, or else the largest photo size,
        then updates the attachment count in the prompt, or sends a new prompt
        when editing fails. */
    method UploadFiles(uid: int, chat: int, document: Option<FileId>, photo: seq<FileId>, env: Env) returns (next: Next)
      modifies this
      ensures next == Goto(ConvState.UploadFiles)
      ensures sessions == old(sessions)[uid := Uploaded(old(SessionOf(uid)), document, photo, env)]
      ensures outbox == old(outbox) + UploadSent(chat, old(SessionOf(uid)), document, photo, env)
      ensures states == old(states) && counter == old(counter) && counterFile == old(counterFile) && store == old(store)
    {
      var s := SessionOf(uid);
      var files := s.files;
      var fileTypes := s.fileTypes;
      if document.Some? {
        files := files + [document.value];
        fileTypes := fileTypes + [Document];
      } else if photo != [] {
        files := files + [photo[|photo| - 1]];
        fileTypes := fileTypes + [Photo];
      }
      s := s.(files := files, fileTypes := fileTypes);
      if s.continueMsg.Some? && s.continueSent {
        var count := |files|;
        var word := AttachmentWord(count);
        if env.editOk {
          outbox := outbox + [CountEdited(chat, s.continueMsg.value, count, word)];
        } else {
          outbox := outbox + [CountResent(chat, count, word)];
          s := s.(continueMsg := Some(env.promptId));
        }
      }
      ghost var s0 := old(SessionOf(uid));
      assert s.files == s0.files + if document.Some? then [document.value] else if photo != [] then [photo[|photo| - 1]] else [];
      assert s.fileTypes == s0.fileTypes + if document.Some? then [Document] else if photo != [] then [Photo] else [];
      assert s.continueMsg == if s0.continueMsg.Some? && s0.continueSent && !env.editOk then Some(env.promptId) else s0.continueMsg;
      sessions := sessions[uid := s];
      next := Goto(ConvState.UploadFiles);
    }

    /** `files_continue`: removes the prompt's button (a failure is ignored)
        and asks for contact details. */
    method FilesContinue(chat: int, env: Env) returns (next: Next)
      modifies this
      ensures next == Goto(ConvState.InputPhone)
      ensures outbox == old(outbox) + (if env.markupOk then [ButtonsRemoved(chat)] else []) + [AskContact(chat)]
      ensures sessions == old(sessions)
      ensures states == old(states) && counter == old(counter) && counterFile == old(counterFile) && store == old(store)
    {
      if env.markupOk {
        outbox := outbox + [ButtonsRemoved(chat)];
      }
      outbox := outbox + [AskContact(chat)];
      next := Goto(ConvState.InputPhone);
    }

    /** `input_phone`: records the contact details, then shows the preview with
        the attachment count; reading a missing address or text raises. */
    method InputPhone(uid: int, chat: int, text: string) returns (next: Next)
      modifies this
      ensures var s := old(SessionOf(uid)).(phone := Some(text));
        && sessions == old(sessions)[uid := s]
        && (s.address.None? || s.text.None? ==> next == Next.Raised && outbox == old(outbox))
        && (s.address.Some? && s.text.Some? ==>
              next == Goto(ConvState.Confirmation)
              && outbox == old(outbox) + [Preview(chat, s.address.value, text, s.text.value, |s.files|)])
      ensures states == old(states) && counter == old(counter) && counterFile == old(counterFile) && store == old(store)
    {
      var s := SessionOf(uid).(phone := Some(text));
      sessions := sessions[uid := s];
      if s.address.None? || s.text.None? {
        return Next.Raised;
      }
      outbox := outbox + [Preview(chat, s.address.value, text, s.text.value, |s.files|)];
      next := Goto(ConvState.Confirmation);
    }

    /** `save_request_to_file`: appends the ticket to the list on disk, or
        raises and leaves the file as it was. */
    method SaveRequestToFile(t: Ticket, ok: bool) returns (raised: bool)
      modifies this
      ensures raised == !ok
      ensures store == if ok then Appended(old(store), t) else old(store)
      ensures states == old(states) && sessions == old(sessions) && counter == old(counter)
      ensures counterFile == old(counterFile) && outbox == old(outbox)
    {
      if ok {
        store := Appended(store, t);
      }
      raised := !ok;
    }

    /** One `await` inside the `try` of `confirmation`: skipped once an earlier
        step has raised. `done` are the attempts before it and `sent` the
        outbox before the first of them. */
    method Await(a: Attempt, raisedBefore: bool, ghost done: seq<Attempt>, ghost sent: seq<Outgoing>) returns (raised: bool)
      requires outbox == sent + Completed(done) && raisedBefore == !AllSucceed(done)
      modifies this
      ensures outbox == sent + Completed(done + [a]) && raised == !AllSucceed(done + [a])
      ensures states == old(states) && sessions == old(sessions) && counter == old(counter)
      ensures counterFile == old(counterFile) && store == old(store)
    {
      CompletedSnoc(done, a);
      raised := raisedBefore;
      if !raised {
        if a.ok {
          outbox := outbox + [a.send];
        } else {
          raised := true;
        }
      }
    }

    /** The sends of the `try` block once the ticket is saved, in order,
        each skipped once one before it has raised. */
    method Dispatch(chat: int, t: Ticket, mention: string, env: Env) returns (raised: bool)
      modifies this
      ensures var attempts := DispatchAttempts(group, chat, t, mention, env);
        outbox == old(outbox) + Completed(attempts) && raised == !AllSucceed(attempts)
      ensures states == old(states) && sessions == old(sessions) && counter == old(counter)
      ensures counterFile == old(counterFile) && store == old(store)
    {
      ghost var done: seq<Attempt> := [];
      var docs := Batch(t.files, t.fileTypes, Document);
      var photos := Batch(t.files, t.fileTypes, Photo);
      var a := Attempt(Summary(group, t.number, t.address, t.phone, mention, t.text), env.summaryOk);
      raised := Await(a, false, done, outbox);
      done := done + [a];
      if docs != [] {
        a := Attempt(MediaBatch(group, Document, docs), env.docsOk);
        raised := Await(a, raised, done, old(outbox));
        done := done + [a];
      }
      if photos != [] {
        a := Attempt(MediaBatch(group, Photo, photos), env.photosOk);
        raised := Await(a, raised, done, old(outbox));
        done := done + [a];
      }
      a := Attempt(ButtonsRemoved(chat), env.markupOk);
      raised := Await(a, raised, done, old(outbox));
      done := done + [a];
      a := Attempt(Thanks(chat, t.number), env.thanksOk);
      raised := Await(a, raised, done, old(outbox));
      done := done + [a];
      assert done == DispatchAttempts(group, chat, t, mention, env);
    }

    /** The "send" branch of `confirmation`: the next ticket number is taken
        and the counter saved before anything else; the `except` branch
        retries removing the buttons and apologises. */
    method Submit(u: User, chat: int, env: Env) returns (next: Next)
      modifies this
      ensures var s := old(SessionOf(u.id));
        && next == End
        && counter == old(counter) + 1
        && counterFile == SavedCounter(old(counterFile), old(counter) + 1, env.counterSave)
        && store == (if Saves(s, env) then Appended(old(store), MakeTicket(old(counter), env.now, u, s)) else old(store))
        && outbox == old(outbox) + SendSends(group, chat, old(counter), u, s, env)
      ensures states == old(states) && sessions == old(sessions)
    {
      var number := counter;
      counter := number + 1;
      counterFile := SavedCounter(counterFile, number + 1, env.counterSave);
      var s := SessionOf(u.id);
      if env.counterSave == DirFailed || !Complete(s) {
        Recover(chat, env);
      } else {
        var t := MakeTicket(number, env.now, u, s);
        var raised := SaveRequestToFile(t, env.storeOk);
        if raised {
          Recover(chat, env);
        } else {
          raised := Dispatch(chat, t, u.fullName, env);
          if raised {
            Recover(chat, env);
          }
        }
      }
      next := End;
    }

    /** The `except` branch of `confirmation`: another try at removing the
        buttons, then the failure message. */
    method Recover(chat: int, env: Env)
      modifies this
      ensures outbox == old(outbox) + Recovery(chat, env)
      ensures states == old(states) && sessions == old(sessions) && counter == old(counter)
      ensures counterFile == old(counterFile) && store == old(store)
    {
      if env.retryMarkupOk {
        outbox := outbox + [ButtonsRemoved(chat)];
      }
      outbox := outbox + [SomethingWrong(chat)];
    }

    /** `confirmation`: without GROUP_ID it raises, even for "cancel";
        "cancel" restarts as `start` does on a button press; "send" submits. */
    method Confirmation(u: User, chat: int, data: string, env: Env) returns (next: Next)
      modifies this
      ensures group == "" ==>
        next == Next.Raised && sessions == old(sessions) && outbox == old(outbox)
        && counter == old(counter) && counterFile == old(counterFile) && store == old(store)
      ensures group != "" && data == "cancel" ==>
        next == Goto(ConvState.SelectAddress) && sessions == old(sessions)[u.id := Cleared]
        && outbox == old(outbox) + [AddressMenu(chat, AddressKeyboard(), true)]
        && counter == old(counter) && counterFile == old(counterFile) && store == old(store)
      ensures group != "" && data != "cancel" ==>
        var s := old(SessionOf(u.id));
        && next == End
        && sessions == old(sessions)
        && counter == old(counter) + 1
        && counterFile == SavedCounter(old(counterFile), old(counter) + 1, env.counterSave)
        && store == (if Saves(s, env) then Appended(old(store), MakeTicket(old(counter), env.now, u, s)) else old(store))
        && outbox == old(outbox) + SendSends(group, chat, old(counter), u, s, env)
      ensures states == old(states)
    {
      if group == "" {
        return Next.Raised;
      }
      if data == "cancel" {
        next := Start(u.id, chat, true);
      } else {
        next := Submit(u, chat, env);
      }
    }

    /** `cancel`: the cancellation notice; the conversation ends. */
    method Cancel(chat: int) returns (next: Next)
      modifies this
      ensures next == End && outbox == old(outbox) + [Cancelled(chat)]
      ensures states == old(states) && sessions == old(sessions) && counter == old(counter)
      ensures counterFile == old(counterFile) && store == old(store)
    {
      outbox := outbox + [Cancelled(chat)];
      next := End;
    }
  
    /** A handler other than `confirmation`: none of them touches the
        counter, counter.json or the ticket list. */
    method RunStep(h: Handler, u: User, chat: int, ev: EventKind, env: Env) returns (next: Next)
      requires Valid() && Route(StateOf(u.id), ev) == Some(h) && h != ConfirmH
      modifies this
      ensures next == NextOf(h, ev, group, old(SessionOf(u.id)))
      ensures states == old(states)
      ensures sessions == old(sessions) || sessions == old(sessions)[u.id := SessionOf(u.id)]
      ensures StepReady(old(StateOf(u.id)), next, SessionOf(u.id))
      ensures SessionOf(u.id) == SessionAfter(h, ev, group, old(SessionOf(u.id)), env)
      ensures outbox == old(outbox) + SentBy(h, ev, group, chat, u, old(counter), old(SessionOf(u.id)), env)
      ensures counter == old(counter) && counterFile == old(counterFile) && store == old(store)
    {
      match h {
        case StartH => next := Start(u.id, chat, false);
        case NewRequestH => next := NewRequest(u.id, chat);
        case AddressH => next := AddressSelected(u.id, chat, ev.data);
        case TextH => next := InputText(u.id, chat, ev.text, env);
        case UploadH => next := UploadFiles(u.id, chat, ev.document, ev.photo, env);
        case ContinueH => next := FilesContinue(chat, env);
        case PhoneH => next := InputPhone(u.id, chat, ev.text);
        case CancelH => next := Cancel(chat);
      }
    }

    /** The handler `h` run on an update `Route` sent to it. */
    method Run(h: Handler, u: User, chat: int, ev: EventKind, env: Env) returns (next: Next)
      requires Valid() && Route(StateOf(u.id), ev) == Some(h)
      modifies this
      ensures next == NextOf(h, ev, group, old(SessionOf(u.id)))
      ensures states == old(states)
      ensures sessions == old(sessions) || sessions == old(sessions)[u.id := SessionOf(u.id)]
      ensures StepReady(old(StateOf(u.id)), next, SessionOf(u.id))
      ensures old(outbox) <= outbox
      ensures counter == old(counter) + if SendPress(old(StateOf(u.id)), ev, group) then 1 else 0
      ensures store == old(store) || (
        && SendPress(old(StateOf(u.id)), ev, group) && Complete(old(SessionOf(u.id)))
        && store == Appended(old(store), MakeTicket(old(counter), env.now, u, old(SessionOf(u.id)))))
      ensures SendPress(old(StateOf(u.id)), ev, group) ==>
        outbox == old(outbox) + SendSends(group, chat, old(counter), u, old(SessionOf(u.id)), env)
      ensures SessionOf(u.id) == SessionAfter(h, ev, group, old(SessionOf(u.id)), env)
      ensures outbox == old(outbox) + SentBy(h, ev, group, chat, u, old(counter), old(SessionOf(u.id)), env)
      ensures SendPress(old(StateOf(u.id)), ev, group) ==>
        && counterFile == SavedCounter(old(counterFile), old(counter) + 1, env.counterSave)
        && store == (if Saves(old(SessionOf(u.id)), env)
                     then Appended(old(store), MakeTicket(old(counter), env.now, u, old(SessionOf(u.id))))
                     else old(store))
      ensures !SendPress(old(StateOf(u.id)), ev, group) ==> counterFile == old(counterFile) && store == old(store)
    {
      if h == ConfirmH {
        next := Confirmation(u, chat, ev.data, env);
      } else {
        next := RunStep(h, u, chat, ev, env);
      }
    }

    /** The routed handler `h` runs for user `u`, and the state it returns is
        recorded. Other users are untouched; tickets are only ever appended,
        each under a fresh number; the outbox only grows. */
    method Process(h: Handler, u: User, chat: int, ev: EventKind, env: Env) returns (next: Next)
      requires Valid() && Route(StateOf(u.id), ev) == Some(h)
      modifies this
      ensures Valid()
      ensures next == NextOf(h, ev, group, old(SessionOf(u.id))) && states == Advance(old(states), u.id, next)
      ensures forall v :: v != u.id ==> SessionOf(v) == old(SessionOf(v))
      ensures old(outbox) <= outbox
      ensures counter == old(counter) + if SendPress(old(StateOf(u.id)), ev, group) then 1 else 0
      ensures old(store) <= store && |store| <= |old(store)| + 1
      ensures |store| == |old(store)| + 1 ==>
        && SendPress(old(StateOf(u.id)), ev, group)
        && store[|old(store)|].number == old(counter) && store[|old(store)|].userId == u.id
      ensures |store| == |old(store)| + 1 && (forall i :: 0 <= i < base ==> old(store)[i].number != old(counter)) ==>
        LookupUserId(StoreJson(store), old(counter)) == JInt(u.id)
      ensures SendPress(old(StateOf(u.id)), ev, group) ==>
        next == End
        && outbox == old(outbox) + SendSends(group, chat, old(counter), u, old(SessionOf(u.id)), env)
      ensures SessionOf(u.id) == SessionAfter(h, ev, group, old(SessionOf(u.id)), env)
      ensures outbox == old(outbox) + SentBy(h, ev, group, chat, u, old(counter), old(SessionOf(u.id)), env)
      ensures SendPress(old(StateOf(u.id)), ev, group) ==>
        && counterFile == SavedCounter(old(counterFile), old(counter) + 1, env.counterSave)
        && store == (if Saves(old(SessionOf(u.id)), env)
                     then Appended(old(store), MakeTicket(old(counter), env.now, u, old(SessionOf(u.id))))
                     else old(store))
      ensures !SendPress(old(StateOf(u.id)), ev, group) ==> counterFile == old(counterFile) && store == old(store)
    {
      next := Run(h, u, chat, ev, env);
      StoreAfterStep(old(store), store, base, old(counter), counter, env.now, u, old(SessionOf(u.id)));
      StepKeepsReady(old(states), old(sessions), sessions, u.id, next);
      states := Advance(states, u.id, next);
    }

    /** One update from user `u` in chat `chat`, through the
        ConversationHandler: an update `Route` gives no handler for is
        ignored, and changes nothing; otherwise the handler runs as in
        `Process`. */
    method Handle(u: User, chat: int, ev: EventKind, env: Env) returns (next: Option<Next>)
      requires Valid()
      modifies this
      ensures Valid()
      ensures next.None? <==> Route(old(StateOf(u.id)), ev).None?
      ensures next.None? ==>
        states == old(states) && sessions == old(sessions) && outbox == old(outbox)
        && counter == old(counter) && counterFile == old(counterFile) && store == old(store)
      ensures next.Some? ==>
        next.value == NextOf(Route(old(StateOf(u.id)), ev).value, ev, group, old(SessionOf(u.id)))
        && states == Advance(old(states), u.id, next.value)
      ensures forall v :: v != u.id ==> SessionOf(v) == old(SessionOf(v))
      ensures old(outbox) <= outbox
      ensures counter == old(counter) + if SendPress(old(StateOf(u.id)), ev, group) then 1 else 0
      ensures old(store) <= store && |store| <= |old(store)| + 1
      ensures |store| == |old(store)| + 1 ==>
        && SendPress(old(StateOf(u.id)), ev, group)
        && store[|old(store)|].number == old(counter) && store[|old(store)|].userId == u.id
      ensures |store| == |old(store)| + 1 && (forall i :: 0 <= i < base ==> old(store)[i].number != old(counter)) ==>
        LookupUserId(StoreJson(store), old(counter)) == JInt(u.id)
      ensures SendPress(old(StateOf(u.id)), ev, group) ==>
        next == Some(End)
        && outbox == old(outbox) + SendSends(group, chat, old(counter), u, old(SessionOf(u.id)), env)
      ensures next.Some? ==>
        var h := Route(old(StateOf(u.id)), ev).value;
        && SessionOf(u.id) == SessionAfter(h, ev, group, old(SessionOf(u.id)), env)
        && outbox == old(outbox) + SentBy(h, ev, group, chat, u, old(counter), old(SessionOf(u.id)), env)
      ensures SendPress(old(StateOf(u.id)), ev, group) ==>
        && counterFile == SavedCounter(old(counterFile), old(counter) + 1, env.counterSave)
        && store == (if Saves(old(SessionOf(u.id)), env)
                     then Appended(old(store), MakeTicket(old(counter), env.now, u, old(SessionOf(u.id))))
                     else old(store))
      ensures !SendPress(old(StateOf(u.id)), ev, group) ==> counterFile == old(counterFile) && store == old(store)
    {
      var h := Route(StateOf(u.id), ev);
      if h.None? {
        return None;
      }
      var n := Process(h.value, u, chat, ev, env);
      next := Some(n);
    }
  }
}
