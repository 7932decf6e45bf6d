/** reply.py: routing a staff reply in the group back to the ticket's author.
    The ticket number is read from the replied-to message's text with the
    pattern `.*Зарегистрировано новое обращение\s#(\d+)`, the author's id is
    looked up in the ticket store, and the reply's content is relayed. */
module Reply {
  import opened Wrappers
  import opened Strings
  import opened JsonValue
  import opened Conversation
  import opened Telegram

  const Phrase: string := "Зарегистрировано новое обращение"

  /** Python's `\s` in a str pattern: the characters for which `str.isspace()` holds. */
  predicate IsSpace(c: char) {
    || '\t' <= c <= '\r'
    || '\U{1c}' <= c <= ' '
    || c == '\U{85}' || c == '\U{a0}' || c == '\U{1680}'
    || '\U{2000}' <= c <= '\U{200a}'
    || c == '\U{2028}' || c == '\U{2029}' || c == '\U{202f}' || c == '\U{205f}' || c == '\U{3000}'
  }

  // ---------------------------------------------------------------------------
  // get_request_number: the regular-expression search, step by step
  // ---------------------------------------------------------------------------

  /** End of the greedy `\d+` that starts at i. */
  function RunEnd(s: string, i: nat): (j: nat)
    requires i <= |s|
    ensures i <= j <= |s| && AllDigits(s[i..j])
    ensures j == |s| || !IsDigit(s[j])
    decreases |s| - i
  {
    if i < |s| && IsDigit(s[i]) then
      var j := RunEnd(s, i + 1);
      assert forall k :: 0 <= k < j - i ==> s[i..j][k] == s[i + k];
      j
    else i
  }

  /** End of the line position p is on: `.` matches every character but '\n'. */
  function LineEnd(s: string, p: nat): (e: nat)
    requires p <= |s|
    ensures p <= e <= |s|
    ensures e == |s| || s[e] == '\n'
    ensures forall k :: p <= k < e ==> s[k] != '\n'
    decreases |s| - p
  {
    if p == |s| || s[p] == '\n' then p else LineEnd(s, p + 1)
  }

  /** The number `(\d+)` captures when `Зарегистрировано новое обращение\s#`
      matches at position q: the value of the whole run of digits after '#'. */
  function MatchAt(s: string, q: nat): (r: Option<nat>)
    ensures r.Some? ==> q < |s| && s[q] == Phrase[0]
  {
    var k := q + |Phrase|;
    if k + 2 < |s| && s[q..k] == Phrase && IsSpace(s[k]) && s[k + 1] == '#' && IsDigit(s[k + 2])
    then
      assert s[q] == s[q..k][0];
      Some(DigitsValue(s[k + 2..RunEnd(s, k + 2)]))
    else None
  }

  /** Backtracking of the greedy `.*`: the match start q is tried first, then
      q - 1, and so on down to lo. */
  function LastMatch(s: string, lo: nat, q: nat): (r: Option<nat>)
    requires lo <= q
    ensures r.None? <==> forall j :: lo <= j <= q ==> MatchAt(s, j).None?
    decreases q
  {
    if MatchAt(s, q).Some? then MatchAt(s, q)
    else if q == lo then None
    else LastMatch(s, lo, q - 1)
  }

  /** `re.search`: start positions are tried from p upwards; from each, `.*`
      first runs to the end of the line and then gives characters back. */
  function SearchFrom(s: string, p: nat): Option<nat>
    requires p <= |s|
    decreases |s| - p
  {
    var here := LastMatch(s, p, LineEnd(s, p));
    if here.Some? then here
    else if p == |s| then None
    else SearchFrom(s, p + 1)
  }

  /** `get_request_number(request)`; `None` stands for Python's None. */
  function GetRequestNumber(request: Option<string>): (r: Option<nat>)
    ensures request.None? || request == Some("") ==> r.None?
  {
    if request.None? || request.value == "" then None else SearchFrom(request.value, 0)
  }

  lemma {:induction false} LastMatchSound(s: string, lo: nat, q: nat, v: nat)
    requires lo <= q && LastMatch(s, lo, q) == Some(v)
    ensures exists k :: lo <= k <= q && MatchAt(s, k) == Some(v)
    decreases q
  {
    if MatchAt(s, q).None? {
      LastMatchSound(s, lo, q - 1, v);
    }
  }

  /** The backtracking stops at the largest matching start. */
  lemma {:induction false} LastMatchIsLargest(s: string, lo: nat, q: nat, k: nat)
    requires lo <= k <= q && MatchAt(s, k).Some?
    requires forall j :: k < j <= q ==> MatchAt(s, j).None?
    ensures LastMatch(s, lo, q) == MatchAt(s, k)
    decreases q
  {
    if q != k {
      LastMatchIsLargest(s, lo, q - 1, k);
    }
  }

  lemma {:induction false} SearchSound(s: string, p: nat, v: nat)
    requires p <= |s| && SearchFrom(s, p) == Some(v)
    ensures exists k :: p <= k && MatchAt(s, k) == Some(v)
    decreases |s| - p
  {
    var here := LastMatch(s, p, LineEnd(s, p));
    if here.Some? {
      LastMatchSound(s, p, LineEnd(s, p), v);
    } else {
      SearchSound(s, p + 1, v);
    }
  }

  lemma {:induction false} SearchComplete(s: string, p: nat, k: nat)
    requires p <= k <= |s| && MatchAt(s, k).Some?
    ensures SearchFrom(s, p).Some?
    decreases k - p
  {
    if LastMatch(s, p, LineEnd(s, p)).None? {
      SearchComplete(s, p + 1, k);
    }
  }

  /** m is the largest matching start in [m, e]. */
  ghost predicate LargestUpTo(s: string, m: nat, e: nat) {
    m <= e && MatchAt(s, m).Some? && forall j: nat :: m < j <= e ==> MatchAt(s, j).None?
  }

  /** When the start p itself matches, some largest match in [p, e] exists. */
  lemma {:induction false} LargestMatchExists(s: string, p: nat, e: nat)
    requires p <= e && MatchAt(s, p).Some?
    ensures exists m: nat :: p <= m && LargestUpTo(s, m, e)
    decreases e - p
  {
    if e == p {
      assert LargestUpTo(s, p, e);
    } else if MatchAt(s, e).Some? {
      assert LargestUpTo(s, e, e);
    } else {
      LargestMatchExists(s, p, e - 1);
      var m: nat :| p <= m && LargestUpTo(s, m, e - 1);
      assert LargestUpTo(s, m, e);
    }
  }

  /** A number is found exactly when the fixed part of the pattern followed by
      a digit occurs somewhere, and what is found is the digit run of such an
      occurrence; text without one yields None. */
  lemma FoundIffOccurs(s: string)
    ensures GetRequestNumber(Some(s)).Some? <==> exists q :: MatchAt(s, q).Some?
    ensures forall v :: GetRequestNumber(Some(s)) == Some(v) ==> exists q :: MatchAt(s, q) == Some(v)
  {
    if q :| MatchAt(s, q).Some? {
      SearchComplete(s, 0, q);
    }
    forall v | GetRequestNumber(Some(s)) == Some(v)
      ensures exists q :: MatchAt(s, q) == Some(v)
    {
      SearchSound(s, 0, v);
    }
  }

  /** The greedy `.*`: among the occurrences on the first line, the last one
      gives the number. */
  lemma LastOnFirstLineWins(s: string, q: nat)
    requires MatchAt(s, q).Some?
    requires forall k :: 0 <= k < q ==> s[k] != '\n'
    requires forall j :: q < j <= LineEnd(s, 0) ==> MatchAt(s, j).None?
    ensures GetRequestNumber(Some(s)) == MatchAt(s, q)
  {
    var e := LineEnd(s, 0);
    assert q <= e;
    LastMatchIsLargest(s, 0, e, q);
  }

  /** Start positions on lines before the line that starts at p0 find
      nothing when no occurrence starts before p0: the scan reaches p0. */
  lemma {:induction false} SkipToLine(s: string, p: nat, p0: nat)
    requires p <= p0 <= |s| && (p0 == 0 || s[p0 - 1] == '\n')
    requires forall j :: p <= j < p0 ==> MatchAt(s, j).None?
    ensures SearchFrom(s, p) == SearchFrom(s, p0)
    decreases p0 - p
  {
    if p < p0 {
      var e := LineEnd(s, p);
      assert e < p0;
      assert LastMatch(s, p, e).None?;
      SkipToLine(s, p + 1, p0);
    }
  }

  /** The greedy `.*` on the first line that holds an occurrence: the search
      finds nothing on earlier lines, and of the occurrences on that line the
      last one gives the number. */
  lemma LastOnFirstMatchingLineWins(s: string, p0: nat, q: nat)
    requires p0 <= |s| && (p0 == 0 || s[p0 - 1] == '\n')
    requires forall j :: 0 <= j < p0 ==> MatchAt(s, j).None?
    requires p0 <= q <= LineEnd(s, p0) && MatchAt(s, q).Some?
    requires forall j :: q < j <= LineEnd(s, p0) ==> MatchAt(s, j).None?
    ensures GetRequestNumber(Some(s)) == MatchAt(s, q)
  {
    SkipToLine(s, 0, p0);
    LastMatchIsLargest(s, p0, LineEnd(s, p0), q);
  }

  /** The run end is the first non-digit after i. */
  lemma {:induction false} RunEndIsFirstNonDigit(s: string, i: nat, j: nat)
    requires i <= j <= |s| && AllDigits(s[i..j]) && (j == |s| || !IsDigit(s[j]))
    ensures RunEnd(s, i) == j
    decreases j - i
  {
    if i < j {
      assert IsDigit(s[i..j][0]);
      assert s[i + 1..j] == s[i..j][1..];
      RunEndIsFirstNonDigit(s, i + 1, j);
    }
  }

  /** `\d+` takes the full run of digits: a match whose digits end at a
      non-digit (or the end of the text) captures exactly them. */
  lemma WholeDigitRunCaptured(a: string, sp: char, digits: string, b: string)
    requires IsSpace(sp) && digits != [] && AllDigits(digits)
    requires b == [] || !IsDigit(b[0])
    ensures MatchAt(a + Phrase + [sp] + "#" + digits + b, |a|) == Some(DigitsValue(digits))
  {
    var s := a + Phrase + [sp] + "#" + digits + b;
    var k := |a| + |Phrase|;
    assert s[|a|..k] == Phrase;
    assert s[k] == sp && s[k + 1] == '#';
    assert s[k + 2..k + 2 + |digits|] == digits;
    assert IsDigit(s[k + 2]) by { assert s[k + 2] == digits[0]; }
    assert k + 2 + |digits| == |s| || s[k + 2 + |digits|] == b[0];
    RunEndIsFirstNonDigit(s, k + 2, k + 2 + |digits|);
  }

  // ---------------------------------------------------------------------------
  // get_user_id: first-match lookup in the ticket list
  // ---------------------------------------------------------------------------

  /** The `user_id` of the first entry whose `number` equals n. JNull is
      Python's None: no entry matches, or the entry has no `user_id`. An entry
      that is not an object makes `.get` raise, which the caller turns into
      None. */
  function LookupUserId(items: seq<Json>, n: int): Json
  {
    if items == [] then JNull
    else match items[0]
      case JObject(m) =>
        if EqualsInt(Get(m, "number"), n) then Get(m, "user_id") else LookupUserId(items[1..], n)
      case _ => JNull
  }

  /** Entry i matches n and every entry before it is an object that does not. */
  ghost predicate FirstMatchAt(items: seq<Json>, n: int, i: nat) {
    && i < |items|
    && items[i].JObject?
    && EqualsInt(Get(items[i].fields, "number"), n)
    && forall j :: 0 <= j < i ==> items[j].JObject? && !EqualsInt(Get(items[j].fields, "number"), n)
  }

  /** The first matching entry gives the result; later entries with the same
      number are never looked at. */
  lemma {:induction false} FirstMatchWins(items: seq<Json>, n: int, i: nat)
    requires FirstMatchAt(items, n, i)
    ensures LookupUserId(items, n) == Get(items[i].fields, "user_id")
    decreases i
  {
    if i > 0 {
      assert FirstMatchAt(items[1..], n, i - 1) by {
        forall j | 0 <= j < i - 1
          ensures items[1..][j].JObject? && !EqualsInt(Get(items[1..][j].fields, "number"), n)
        {
          assert items[1..][j] == items[j + 1];
        }
      }
      FirstMatchWins(items[1..], n, i - 1);
    }
  }

  /** A non-null result comes from the first matching entry. */
  lemma {:induction false} LookupFindsFirstMatch(items: seq<Json>, n: int)
    requires LookupUserId(items, n) != JNull
    ensures exists i: nat :: FirstMatchAt(items, n, i) && LookupUserId(items, n) == Get(items[i].fields, "user_id")
  {
    var m := items[0].fields;
    if EqualsInt(Get(m, "number"), n) {
      assert FirstMatchAt(items, n, 0);
    } else {
      LookupFindsFirstMatch(items[1..], n);
      var i: nat :| FirstMatchAt(items[1..], n, i) && LookupUserId(items[1..], n) == Get(items[1..][i].fields, "user_id");
      assert FirstMatchAt(items, n, i + 1) by {
        assert items[i + 1] == items[1..][i];
        forall j | 0 <= j < i + 1
          ensures items[j].JObject? && !EqualsInt(Get(items[j].fields, "number"), n)
        {
          if j > 0 { assert items[j] == items[1..][j - 1]; }
        }
      }
    }
  }

  /** A list of objects none of which matches gives None. */
  lemma {:induction false} NoMatchGivesNone(items: seq<Json>, n: int)
    requires forall j :: 0 <= j < |items| ==> items[j].JObject? && !EqualsInt(Get(items[j].fields, "number"), n)
    ensures LookupUserId(items, n) == JNull
  {
    if items != [] {
      assert forall j :: 0 <= j < |items| - 1 ==> items[1..][j] == items[j + 1];
      NoMatchGivesNone(items[1..], n);
    }
  }

  /** What `get_user_id(n)` returns for a given state of /data/requests.json:
      None when loading raises, when the data is not a list, or from the lookup. */
  function UserIdFor(f: FileState, n: int): (r: Json)
    ensures f.OtherError? ==> r == JNull
    ensures f.Readable? && !f.content.JList? ==> r == JNull
    ensures f.Readable? && f.content.JList? ==> r == LookupUserId(f.content.items, n)
    ensures f.Missing? || f.Undecodable? || f.Unreadable? ==> r == JNull
  {
    match LoadJson(ReaderPath, f)
    case Raised => JNull
    case Loaded(v) => if v.JList? then LookupUserId(v.items, n) else JNull
  }

  /** `get_user_id(n)`: the `for` loop with its early returns. */
  method GetUserId(f: FileState, n: int) returns (r: Json)
    ensures r == UserIdFor(f, n)
  {
    var data := LoadJson(ReaderPath, f);
    if data.Raised? || !data.value.JList? {
      return JNull;
    }
    var items := data.value.items;
    var i := 0;
    while i < |items|
      invariant 0 <= i <= |items|
      invariant LookupUserId(items[i..], n) == LookupUserId(items, n)
      decreases |items| - i
    {
      assert items[i..][1..] == items[i + 1..];
      match items[i] {
        case JObject(m) =>
          if EqualsInt(Get(m, "number"), n) {
            return Get(m, "user_id");
          }
        case _ =>
          return JNull;
      }
      i := i + 1;
    }
    return JNull;
  }

  // ---------------------------------------------------------------------------
  // _send_reply: which content is relayed, and how
  // ---------------------------------------------------------------------------

  datatype RepliedTo = RepliedTo(text: Option<string>)

  /** The staff message: its text or caption and its content fields (a
      missing attachment is None; `photo` is the list of sizes, smallest first). */
  datatype StaffMessage = StaffMessage(
    text: Option<string>,
    caption: Option<string>,
    photo: seq<FileId>,
    animation: Option<FileId>,
    video: Option<FileId>,
    audio: Option<FileId>,
    voice: Option<FileId>,
    document: Option<FileId>,
    replyTo: Option<RepliedTo>)

  datatype GroupUpdate = GroupUpdate(chat: int, message: Option<StaffMessage>)

  /** Position of each content kind in the order `_send_reply` tests them. */
  function Rank(k: ContentKind): nat {
    match k
    case TextReply => 0
    case PhotoReply => 1
    case AnimationReply => 2
    case VideoReply => 3
    case AudioReply => 4
    case VoiceReply => 5
    case DocumentReply => 6
  }

  /** Whether the message's field for kind k is truthy. */
  predicate IsSet(m: StaffMessage, k: ContentKind) {
    match k
    case TextReply => m.text.Some? && m.text.value != ""
    case PhotoReply => m.photo != []
    case AnimationReply => m.animation.Some?
    case VideoReply => m.video.Some?
    case AudioReply => m.audio.Some?
    case VoiceReply => m.voice.Some?
    case DocumentReply => m.document.Some?
  }

  /** k is the first kind, by priority, that the message carries. */
  predicate IsFirstSet(m: StaffMessage, k: ContentKind) {
    IsSet(m, k) && forall j :: Rank(j) < Rank(k) ==> !IsSet(m, j)
  }

  /** The text or caption a relay gets: an icon, the ticket reference `#n`
      (inside `<code>`), and the staff member's own text. */
  function RelayText(icon: char, n: int, body: string): (r: string)
    ensures Contains(r, "#" + IntToString(n))
    ensures EndsWith(r, body)
  {
    var before := [icon] + " Получен ответ на Ваше обращение <code>";
    var after := "</code>.\n\n" + body;
    ContainsInside(before, "#" + IntToString(n), after);
    var r := before + ("#" + IntToString(n)) + after;
    assert r == (before + ("#" + IntToString(n)) + "</code>.\n\n") + body;
    r
  }

  /** `message.caption or ''`. */
  function CaptionOf(m: StaffMessage): string {
    if m.caption.Some? then m.caption.value else ""
  }

  datatype RelayPlan = Relayed(out: Outgoing) | Unsupported | Failed

  /** The one message `_send_reply` sends to the author: plain text, the
      second photo size `photo[1]` (an `IndexError`, caught and reported as
      False, when there is only one), or the file of the first populated kind,
      each with the ticket reference in its text. */
  function RelayOf(m: StaffMessage, n: int, to: Json): (r: RelayPlan)
    ensures r.Unsupported? <==> forall k :: !IsSet(m, k)
    ensures r.Failed? <==> IsFirstSet(m, PhotoReply) && |m.photo| < 2
    ensures r.Relayed? ==> r.out.Relay? && r.out.to == to && IsFirstSet(m, r.out.content)
    ensures r.Relayed? ==> Contains(r.out.text, "#" + IntToString(n))
    ensures r.Relayed? && r.out.content == TextReply ==>
      r.out.media.None? && m.text.Some? && EndsWith(r.out.text, m.text.value)
    ensures r.Relayed? && r.out.content != TextReply ==> EndsWith(r.out.text, CaptionOf(m))
    ensures r.Relayed? && r.out.content == PhotoReply ==> |m.photo| >= 2 && r.out.media == Some(m.photo[1])
    ensures r.Relayed? && r.out.content == AnimationReply ==> r.out.media == m.animation
    ensures r.Relayed? && r.out.content == VideoReply ==> r.out.media == m.video
    ensures r.Relayed? && r.out.content == AudioReply ==> r.out.media == m.audio
    ensures r.Relayed? && r.out.content == VoiceReply ==> r.out.media == m.voice
    ensures r.Relayed? && r.out.content == DocumentReply ==> r.out.media == m.document
  {
    if m.text.Some? && m.text.value != "" then
      assert IsSet(m, TextReply);
      Relayed(Relay(to, TextReply, None, RelayText('\U{1F4DF}', n, m.text.value)))
    else if m.photo != [] then
      assert IsSet(m, PhotoReply);
      if |m.photo| < 2 then Failed
      else Relayed(Relay(to, PhotoReply, Some(m.photo[1]), RelayText('\U{1F4F7}', n, CaptionOf(m))))
    else if m.animation.Some? then
      assert IsSet(m, AnimationReply);
      Relayed(Relay(to, AnimationReply, m.animation, RelayText('\U{1F4FC}', n, CaptionOf(m))))
    else if m.video.Some? then
      assert IsSet(m, VideoReply);
      Relayed(Relay(to, VideoReply, m.video, RelayText('\U{1F4FC}', n, CaptionOf(m))))
    else if m.audio.Some? then
      assert IsSet(m, AudioReply);
      Relayed(Relay(to, AudioReply, m.audio, RelayText('\U{1F4E3}', n, CaptionOf(m))))
    else if m.voice.Some? then
      assert IsSet(m, VoiceReply);
      Relayed(Relay(to, VoiceReply, m.voice, RelayText('\U{1F4E3}', n, CaptionOf(m))))
    else if m.document.Some? then
      assert IsSet(m, DocumentReply);
      Relayed(Relay(to, DocumentReply, m.document, RelayText('\U{1F4C3}', n, CaptionOf(m))))
    else Unsupported
  }

  // ---------------------------------------------------------------------------
  // handle_group_reply: which messages are sent
  // ---------------------------------------------------------------------------

  /** Whether each foreign send of one `handle_group_reply` call would succeed. */
  datatype ReplyEnv = ReplyEnv(relayOk: bool, deliveredOk: bool, notDeliveredOk: bool, noRecipientOk: bool)

  /** The ticket number the handler goes on with; 0 when it returns early
      (no message, not a reply, nothing extracted, or the number 0). */
  function ReplyNumber(u: GroupUpdate): (n: nat)
    ensures n != 0 ==> u.message.Some? && u.message.value.replyTo.Some?
    ensures n != 0 ==> GetRequestNumber(u.message.value.replyTo.value.text) == Some(n)
    ensures (u.message.Some? && u.message.value.replyTo.Some?
             && GetRequestNumber(u.message.value.replyTo.value.text).Some?) ==>
      n == GetRequestNumber(u.message.value.replyTo.value.text).value
    ensures (u.message.None? || u.message.value.replyTo.None?
             || GetRequestNumber(u.message.value.replyTo.value.text).None?) ==> n == 0
  {
    if u.message.None? || u.message.value.replyTo.None? then 0
    else match GetRequestNumber(u.message.value.replyTo.value.text)
      case None => 0
      case Some(n) => n
  }

  /** Whether `_send_reply` returns True. */
  predicate RelaySucceeds(u: GroupUpdate, f: FileState, env: ReplyEnv)
    requires ReplyNumber(u) != 0
  {
    RelayOf(u.message.value, ReplyNumber(u), UserIdFor(f, ReplyNumber(u))).Relayed? && env.relayOk
  }

  /** The messages `handle_group_reply` sends, in order, as the code is written. */
  function GroupReplySends(u: GroupUpdate, f: FileState, env: ReplyEnv): (r: seq<Outgoing>)
    ensures |r| <= 2
  {
    var n := ReplyNumber(u);
    if n == 0 then []
    else
      var to := UserIdFor(f, n);
      if !Truthy(to) then
        if env.noRecipientOk then [NoRecipient(u.chat, n)] else []
      else if RelaySucceeds(u, f, env) then
        [RelayOf(u.message.value, n, to).out]
        + if env.deliveredOk then [Delivered(u.chat, n)]
          else if env.notDeliveredOk then [NotDelivered(u.chat, n)]
          else []
      else []
  }

  /** `handle_group_reply(update)`: a sequence of guarded steps. */
  method HandleGroupReply(u: GroupUpdate, f: FileState, env: ReplyEnv) returns (sends: seq<Outgoing>)
    ensures sends == GroupReplySends(u, f, env)
  {
    sends := [];
    if u.message.None? {
      return;
    }
    var message := u.message.value;
    if message.replyTo.None? {
      return;
    }
    var number := GetRequestNumber(message.replyTo.value.text);
    if number.None? || number.value == 0 {
      return;
    }
    var n := number.value;
    var userId := GetUserId(f, n);
    if !Truthy(userId) {
      if env.noRecipientOk {
        sends := sends + [NoRecipient(u.chat, n)];
      }
      return;
    }
    var plan := RelayOf(message, n, userId);
    var result := plan.Relayed? && env.relayOk;
    if result {
      sends := sends + [plan.out];
      if env.deliveredOk {
        sends := sends + [Delivered(u.chat, n)];
      } else if env.notDeliveredOk {
        sends := sends + [NotDelivered(u.chat, n)];
      }
    }
  }

  /** Nothing is sent when the message is missing, is not a reply, or carries
      no ticket number (0 included). */
  lemma SilentWithoutTicketNumber(u: GroupUpdate, f: FileState, env: ReplyEnv)
    requires
      || u.message.None?
      || u.message.value.replyTo.None?
      || GetRequestNumber(u.message.value.replyTo.value.text) in {None, Some(0)}
    ensures GroupReplySends(u, f, env) == []
  {
  }

  /** An unresolved author gives exactly one notice to the staff chat and no relay. */
  lemma UnresolvedAuthorNotice(u: GroupUpdate, f: FileState, env: ReplyEnv)
    requires ReplyNumber(u) != 0 && !Truthy(UserIdFor(f, ReplyNumber(u))) && env.noRecipientOk
    ensures GroupReplySends(u, f, env) == [NoRecipient(u.chat, ReplyNumber(u))]
  {
  }

  /** Every relay goes to the resolved author and names the ticket. */
  lemma RelayGoesToAuthor(u: GroupUpdate, f: FileState, env: ReplyEnv, i: nat)
    requires i < |GroupReplySends(u, f, env)| && GroupReplySends(u, f, env)[i].Relay?
    ensures ReplyNumber(u) != 0 && i == 0
    ensures GroupReplySends(u, f, env)[i].to == UserIdFor(f, ReplyNumber(u))
    ensures Contains(GroupReplySends(u, f, env)[i].text, "#" + IntToString(ReplyNumber(u)))
  {
  }

  /** The "delivered" notice follows a relay that succeeded, sent first. */
  lemma DeliveredOnlyAfterRelay(u: GroupUpdate, f: FileState, env: ReplyEnv)
    requires Delivered(u.chat, ReplyNumber(u)) in GroupReplySends(u, f, env)
    ensures ReplyNumber(u) != 0 && RelaySucceeds(u, f, env) && env.deliveredOk
    ensures GroupReplySends(u, f, env)[0].Relay?
  {
  }

  /** The "could not deliver" notice is sent only after the relay itself went
      through and the "delivered" notice failed. */
  lemma NotDeliveredOnlyAfterRelay(u: GroupUpdate, f: FileState, env: ReplyEnv)
    requires NotDelivered(u.chat, ReplyNumber(u)) in GroupReplySends(u, f, env)
    ensures ReplyNumber(u) != 0 && RelaySucceeds(u, f, env) && !env.deliveredOk
    ensures GroupReplySends(u, f, env)[0].Relay?
  {
  }

  /** A relay that fails (unsupported content, a one-size photo, or a send
      error caught inside `_send_reply`) produces no notice at all. */
  lemma FailedRelayUnreported(u: GroupUpdate, f: FileState, env: ReplyEnv)
    requires ReplyNumber(u) != 0 && Truthy(UserIdFor(f, ReplyNumber(u))) && !RelaySucceeds(u, f, env)
    ensures GroupReplySends(u, f, env) == []
  {
  }

  /** The notices as evidently intended: "could not deliver" also after a
      relay whose send failed. Every other path, content of a kind the bot
      does not relay included, is the code as written. */
  function IntendedGroupReplySends(u: GroupUpdate, f: FileState, env: ReplyEnv): (r: seq<Outgoing>)
    ensures |r| <= 2
    ensures
      || ReplyNumber(u) == 0
      || !Truthy(UserIdFor(f, ReplyNumber(u)))
      || RelayOf(u.message.value, ReplyNumber(u), UserIdFor(f, ReplyNumber(u))).Unsupported?
      || RelaySucceeds(u, f, env)
      ==> r == GroupReplySends(u, f, env)
  {
    var n := ReplyNumber(u);
    if n == 0 then []
    else
      var to := UserIdFor(f, n);
      if !Truthy(to) then
        if env.noRecipientOk then [NoRecipient(u.chat, n)] else []
      else if RelayOf(u.message.value, n, to).Unsupported? then []
      else if RelaySucceeds(u, f, env) then
        [RelayOf(u.message.value, n, to).out]
        + if env.deliveredOk then [Delivered(u.chat, n)]
          else if env.notDeliveredOk then [NotDelivered(u.chat, n)]
          else []
      else if env.notDeliveredOk then [NotDelivered(u.chat, n)]
      else []
  }

  /** In the intended version, when the notices themselves go through, the
      staff learn the true outcome of every relay attempted: "delivered"
      exactly when it succeeded and "could not deliver" exactly when its send
      failed; unsupported content gets no notice, as in the code. */
  lemma IntendedNoticeTellsOutcome(u: GroupUpdate, f: FileState, env: ReplyEnv)
    requires ReplyNumber(u) != 0 && Truthy(UserIdFor(f, ReplyNumber(u)))
    requires env.deliveredOk && env.notDeliveredOk
    ensures RelayOf(u.message.value, ReplyNumber(u), UserIdFor(f, ReplyNumber(u))).Unsupported? ==>
      IntendedGroupReplySends(u, f, env) == []
    ensures !RelayOf(u.message.value, ReplyNumber(u), UserIdFor(f, ReplyNumber(u))).Unsupported? ==>
      && (Delivered(u.chat, ReplyNumber(u)) in IntendedGroupReplySends(u, f, env) <==> RelaySucceeds(u, f, env))
      && (NotDelivered(u.chat, ReplyNumber(u)) in IntendedGroupReplySends(u, f, env) <==> !RelaySucceeds(u, f, env))
  {
  }
}
