// The conversation record of core/conversation.go and the store of its messages: folding
// in messages, the platform's catalog state and presentation, and the operator's reads, in
// whatever order they arrive.
module Conversations {
  import opened Text
  import opened Wrappers

  datatype MessageStatus = Observed | Queued | Sent | Failed | Cancelled

  // content stands for kind, text and options, and filled says whether they are valid.
  // Times are nanoseconds; 0 is the zero time.
  datatype Message = Message(
    id: string, conversation: string, externalId: string, replyTo: string, incoming: bool, status: MessageStatus,
    at: nat, content: string, filled: bool)

  datatype ChatStatus = Active | Closed | Rejected | Archived | Unknown

  // What the platform shows of the other side.
  datatype Details = Details(title: string, employer: string, employerId: string, url: string)

  // A presentation may leave the status open; its details are trimmed when it is taken in.
  datatype Presentation = Presentation(status: Option<ChatStatus>, details: Details)

  datatype Chat = Chat(
    id: string, details: Details, status: ChatStatus, unread: int, lastId: string,
    lastAt: Option<nat>, lastIncoming: Option<nat>, lastOutgoing: Option<nat>, lastRead: Option<nat>,
    updatedAt: nat, revision: nat)

  datatype Outcome = Refused | Unchanged | Changed

  predicate ValidMessage(m: Message) {
    m.id != "" && m.conversation != "" && m.at > 0 && m.filled && (m.incoming <==> m.status == Observed)
  }

  // A message is observed exactly if it came in.
  lemma ValidMessageTold(m: Message)
    ensures ValidMessage(m) <==>
      m.id != "" && m.conversation != "" && m.at > 0 && m.filled &&
      ((m.incoming && m.status == Observed) || (!m.incoming && m.status in {Queued, Sent, Failed, Cancelled}))
  {
  }

  predicate Later(t: nat, than: Option<nat>) {
    than.None? || t > than.value
  }

  function NewChat(id: string, now: nat): Chat {
    Chat(id, Details("", "", "", ""), Active, 0, "", None, None, None, None, now, 1)
  }

  // ---- one event ----

  function ObserveOutcome(c: Chat, m: Message, now: nat): Outcome {
    if !ValidMessage(m) || m.conversation != c.id || now == 0 || now < c.updatedAt then Refused
    else if c.lastId == m.id then Unchanged
    else Changed
  }

  function AfterObserve(c: Chat, m: Message, now: nat): Chat {
    if ObserveOutcome(c, m, now) != Changed then c
    else
      var newest := c.lastAt.None? || m.at >= c.lastAt.value;
      c.(lastId := if newest then m.id else c.lastId,
         lastAt := if newest then Some(m.at) else c.lastAt,
         lastIncoming := if m.incoming && Later(m.at, c.lastIncoming) then Some(m.at) else c.lastIncoming,
         lastOutgoing := if m.status == Sent && Later(m.at, c.lastOutgoing) then Some(m.at) else c.lastOutgoing,
         updatedAt := now, revision := c.revision + 1)
  }

  // The unread count that is believed: one that only counts what was read is not.
  function Believed(c: Chat, unread: int, reported: Option<nat>): int {
    var incoming := if reported.Some? && Later(reported.value, c.lastIncoming) then reported else c.lastIncoming;
    if unread > 0 && c.lastRead.Some? && (incoming.None? || incoming.value <= c.lastRead.value) then 0 else unread
  }

  function CatalogOutcome(c: Chat, status: ChatStatus, unread: int, reported: Option<nat>, now: nat): Outcome {
    if status == Unknown || unread < 0 || now == 0 || now < c.updatedAt then Refused
    else if c.status == status && c.unread == Believed(c, unread, reported) then Unchanged
    else Changed
  }

  function AfterCatalog(c: Chat, status: ChatStatus, unread: int, reported: Option<nat>, now: nat): Chat {
    if CatalogOutcome(c, status, unread, reported, now) != Changed then c
    else c.(status := status, unread := Believed(c, unread, reported), updatedAt := now, revision := c.revision + 1)
  }

  function ReadOutcome(c: Chat, now: nat): Outcome {
    var cleared := CatalogOutcome(c, c.status, 0, None, now);
    if cleared == Refused then Refused
    else if c.unread <= 0 && c.lastRead.Some? then cleared
    else if Later(now, c.lastRead) then Changed
    else cleared
  }

  function AfterRead(c: Chat, now: nat): Chat {
    var cleared := CatalogOutcome(c, c.status, 0, None, now);
    var c' := AfterCatalog(c, c.status, 0, None, now);
    if cleared == Refused || (c.unread <= 0 && c.lastRead.Some?) || !Later(now, c.lastRead) then c'
    else c'.(lastRead := Some(now), updatedAt := now, revision := c.revision + 1)
  }

  // A blank detail leaves the one shown before.
  function Shown(before: string, text: string): string {
    if Trim(text) == "" then before else Trim(text)
  }

  function Overlaid(before: Details, d: Details): Details {
    Details(Shown(before.title, d.title), Shown(before.employer, d.employer),
      Shown(before.employerId, d.employerId), Shown(before.url, d.url))
  }

  function PresentationOutcome(c: Chat, p: Presentation, now: nat): Outcome {
    if now == 0 || now < c.updatedAt || p.status == Some(Unknown) then Refused
    else if (p.status.None? || p.status.value == c.status) && Overlaid(c.details, p.details) == c.details then Unchanged
    else Changed
  }

  function AfterPresentation(c: Chat, p: Presentation, now: nat): Chat {
    if PresentationOutcome(c, p, now) != Changed then c
    else c.(status := if p.status.Some? then p.status.value else c.status, details := Overlaid(c.details, p.details),
            updatedAt := now, revision := c.revision + 1)
  }

  function StatusOutcome(c: Chat, status: ChatStatus, now: nat): Outcome {
    if status == Unknown || now == 0 || now < c.updatedAt then Refused
    else if c.status == status then Unchanged
    else Changed
  }

  function AfterStatus(c: Chat, status: ChatStatus, now: nat): Chat {
    if StatusOutcome(c, status, now) != Changed then c
    else c.(status := status, updatedAt := now, revision := c.revision + 1)
  }

  // The record the source's methods update.
  class Conversation {
    var chat: Chat

    constructor (id: string, now: nat)
      ensures chat == NewChat(id, now)
    {
      chat := Chat(id, Details("", "", "", ""), Active, 0, "", None, None, None, None, now, 1);
    }

    constructor Copy(chat: Chat)
      ensures this.chat == chat
    {
      this.chat := chat;
    }

    method Observe(m: Message, now: nat) returns (r: Outcome)
      modifies this
      ensures chat == AfterObserve(old(chat), m, now) && r == ObserveOutcome(old(chat), m, now)
    {
      if !ValidMessage(m) || m.conversation != chat.id || now == 0 || now < chat.updatedAt {
        return Refused;
      }
      if chat.lastId == m.id {
        return Unchanged;
      }
      if chat.lastAt.None? || m.at >= chat.lastAt.value {
        chat := chat.(lastId := m.id, lastAt := Some(m.at));
      }
      if m.incoming {
        if Later(m.at, chat.lastIncoming) {
          chat := chat.(lastIncoming := Some(m.at));
        }
      } else if m.status == Sent {
        if Later(m.at, chat.lastOutgoing) {
          chat := chat.(lastOutgoing := Some(m.at));
        }
      }
      chat := chat.(updatedAt := now, revision := chat.revision + 1);
      r := Changed;
    }

    method ObserveCatalogState(status: ChatStatus, unreadCount: int, reported: Option<nat>, now: nat)
        returns (r: Outcome)
      modifies this
      ensures chat == AfterCatalog(old(chat), status, unreadCount, reported, now)
      ensures r == CatalogOutcome(old(chat), status, unreadCount, reported, now)
    {
      if status == Unknown || unreadCount < 0 || now == 0 || now < chat.updatedAt {
        return Refused;
      }
      var lastIncoming := chat.lastIncoming;
      if reported.Some? && Later(reported.value, lastIncoming) {
        lastIncoming := reported;
      }
      var unread := unreadCount;
      if unread > 0 && chat.lastRead.Some? && (lastIncoming.None? || !(lastIncoming.value > chat.lastRead.value)) {
        unread := 0;
      }
      if chat.status == status && chat.unread == unread {
        return Unchanged;
      }
      chat := chat.(status := status, unread := unread);
      chat := chat.(updatedAt := now, revision := chat.revision + 1);
      r := Changed;
    }

    method MarkRead(now: nat) returns (r: Outcome)
      modifies this
      ensures chat == AfterRead(old(chat), now) && r == ReadOutcome(old(chat), now)
    {
      var hadUnread := chat.unread > 0;
      r := ObserveCatalogState(chat.status, 0, None, now);
      if r == Refused {
        return;
      }
      if !hadUnread && chat.lastRead.Some? {
        return;
      }
      if chat.lastRead.Some? && !(now > chat.lastRead.value) {
        return;
      }
      chat := chat.(lastRead := Some(now));
      if r == Unchanged {
        chat := chat.(updatedAt := now, revision := chat.revision + 1);
        r := Changed;
      }
    }

    method ObservePresentation(presentation: Presentation, now: nat) returns (r: Outcome)
      modifies this
      ensures chat == AfterPresentation(old(chat), presentation, now)
      ensures r == PresentationOutcome(old(chat), presentation, now)
    {
      hide Trim;
      if now == 0 || now < chat.updatedAt {
        return Refused;
      }
      if presentation.status == Some(Unknown) {
        return Refused;
      }
      var changed := ShowDetails(presentation.details);
      if presentation.status.Some? && presentation.status.value != chat.status {
        chat := chat.(status := presentation.status.value);
        changed := true;
      }
      if !changed {
        return Unchanged;
      }
      chat := chat.(updatedAt := now, revision := chat.revision + 1);
      r := Changed;
    }

    // The trimmed details one by one, where they are not blank.
    method ShowDetails(d: Details) returns (changed: bool)
      modifies this
      ensures chat == old(chat).(details := Overlaid(old(chat).details, d))
      ensures changed <==> chat.details != old(chat).details
    {
      hide Trim;
      var shown := chat.details;
      var title, employer, employerId, url := Trim(d.title), Trim(d.employer), Trim(d.employerId), Trim(d.url);
      changed := false;
      if title != "" && title != shown.title {
        shown := shown.(title := title);
        changed := true;
      }
      if employer != "" && employer != shown.employer {
        shown := shown.(employer := employer);
        changed := true;
      }
      if employerId != "" && employerId != shown.employerId {
        shown := shown.(employerId := employerId);
        changed := true;
      }
      if url != "" && url != shown.url {
        shown := shown.(url := url);
        changed := true;
      }
      chat := chat.(details := shown);
    }

    method SetStatus(status: ChatStatus, now: nat) returns (r: Outcome)
      modifies this
      ensures chat == AfterStatus(old(chat), status, now) && r == StatusOutcome(old(chat), status, now)
    {
      if status == Unknown || now == 0 || now < chat.updatedAt {
        return Refused;
      }
      if chat.status == status {
        return Unchanged;
      }
      chat := chat.(status := status);
      chat := chat.(updatedAt := now, revision := chat.revision + 1);
      r := Changed;
    }
  }

  // ---- what each event does, field by field ----

  // A change is one revision at the time of the event; anything else leaves the record alone.
  ghost predicate Told(c: Chat, c': Chat, r: Outcome, refused: bool, now: nat) {
    (r == Refused <==> refused) && (r != Changed ==> c' == c) &&
    (r == Changed ==> c'.revision == c.revision + 1 && c'.updatedAt == now && c'.id == c.id)
  }

  // The newest message gives its id and time; an incoming and a sent one count for their side.
  lemma ObserveTold(c: Chat, m: Message, now: nat)
    ensures
      var c' := AfterObserve(c, m, now);
      Told(c, c', ObserveOutcome(c, m, now),
        !ValidMessage(m) || m.conversation != c.id || now == 0 || now < c.updatedAt, now) &&
      (ObserveOutcome(c, m, now) == Changed ==>
        c.lastId != m.id && c'.status == c.status && c'.unread == c.unread && c'.lastRead == c.lastRead &&
        c'.details == c.details &&
        (c'.lastId, c'.lastAt) ==
          (if c.lastAt.Some? && m.at < c.lastAt.value then (c.lastId, c.lastAt) else (m.id, Some(m.at))) &&
        c'.lastIncoming ==
          (if m.incoming && (c.lastIncoming.None? || m.at > c.lastIncoming.value)
           then Some(m.at) else c.lastIncoming) &&
        c'.lastOutgoing ==
          (if !m.incoming && m.status == Sent && (c.lastOutgoing.None? || m.at > c.lastOutgoing.value)
           then Some(m.at) else c.lastOutgoing))
  {
  }

  // Messages that came in after the last read are known of.
  predicate NewerThanRead(c: Chat, reported: Option<nat>) {
    c.lastRead.None? || (c.lastIncoming.Some? && c.lastIncoming.value > c.lastRead.value) ||
    (reported.Some? && reported.value > c.lastRead.value)
  }

  // The catalog's status is taken, and its unread count unless everything known of has been
  // read.
  lemma CatalogTold(c: Chat, status: ChatStatus, unread: int, reported: Option<nat>, now: nat)
    ensures
      var c' := AfterCatalog(c, status, unread, reported, now);
      var r := CatalogOutcome(c, status, unread, reported, now);
      var refused := status == Unknown || unread < 0 || now == 0 || now < c.updatedAt;
      Told(c, c', r, refused, now) &&
      (!refused ==> c'.status == status && c'.unread == if NewerThanRead(c, reported) then unread else 0) &&
      c'.(status := c.status, unread := c.unread, updatedAt := c.updatedAt, revision := c.revision) == c &&
      (r == Changed <==> !refused && (c'.status != c.status || c'.unread != c.unread))
  {
  }

  // A read clears the count; its time is kept if there was something to read, or nothing had
  // been read before.
  lemma ReadTold(c: Chat, now: nat)
    ensures
      var c', r := AfterRead(c, now), ReadOutcome(c, now);
      var refused := c.status == Unknown || now == 0 || now < c.updatedAt;
      Told(c, c', r, refused, now) && c'.status == c.status &&
      (!refused ==>
        c'.unread == 0 &&
        c'.lastRead ==
          if c.lastRead.None? || (c.unread > 0 && now > c.lastRead.value) then Some(now) else c.lastRead) &&
      c'.(unread := c.unread, lastRead := c.lastRead, updatedAt := c.updatedAt, revision := c.revision) == c &&
      (r == Changed <==> c' != c)
  {
  }

  // A presentation overlays what it shows and leaves the rest.
  lemma PresentationTold(c: Chat, p: Presentation, now: nat)
    ensures
      var c', r := AfterPresentation(c, p, now), PresentationOutcome(c, p, now);
      var refused := now == 0 || now < c.updatedAt || p.status == Some(Unknown);
      Told(c, c', r, refused, now) &&
      (!refused ==>
        c'.status == (if p.status.Some? then p.status.value else c.status) &&
        c'.details.title == (if Blank(p.details.title) then c.details.title else Trim(p.details.title)) &&
        c'.details.employer == (if Blank(p.details.employer) then c.details.employer else Trim(p.details.employer)) &&
        c'.details.employerId ==
          (if Blank(p.details.employerId) then c.details.employerId else Trim(p.details.employerId)) &&
        c'.details.url == (if Blank(p.details.url) then c.details.url else Trim(p.details.url))) &&
      c'.(status := c.status, details := c.details, updatedAt := c.updatedAt, revision := c.revision) == c &&
      (r == Changed <==> !refused && (c'.status != c.status || c'.details != c.details))
  {
    hide Trim;
  }

  lemma StatusTold(c: Chat, status: ChatStatus, now: nat)
    ensures
      var c', r := AfterStatus(c, status, now), StatusOutcome(c, status, now);
      var refused := status == Unknown || now == 0 || now < c.updatedAt;
      Told(c, c', r, refused, now) && (!refused ==> c'.status == status) &&
      c'.(status := c.status, updatedAt := c.updatedAt, revision := c.revision) == c &&
      (r == Changed <==> !refused && status != c.status)
  {
  }

  // ---- the message store ----

  const MILLISECOND := 1_000_000

  // Two reports of one message: a reply link may be missing on either side, and times
  // agree to the millisecond.
  predicate SamePayload(a: Message, b: Message) {
    a.conversation == b.conversation && a.externalId == b.externalId &&
    (a.replyTo == b.replyTo || a.replyTo == "" || b.replyTo == "") && a.incoming == b.incoming &&
    a.status == b.status && a.content == b.content && a.at / MILLISECOND == b.at / MILLISECOND
  }

  predicate HasId(stored: seq<Message>, id: string) {
    exists i :: 0 <= i < |stored| && stored[i].id == id
  }

  // The message is stored already, under its id or its external id.
  predicate Known(stored: seq<Message>, m: Message) {
    exists i :: 0 <= i < |stored| && Matches(stored[i], m)
  }

  predicate Matches(stored: Message, m: Message) {
    stored.id == m.id || (m.externalId != "" && stored.externalId == m.externalId)
  }

  // The stored message the store compares with: one of that id, else one of that external id.
  function Found(stored: seq<Message>, m: Message): (r: Message)
    requires Known(stored, m)
    ensures r in stored && Matches(r, m) && (HasId(stored, m.id) ==> r.id == m.id)
  {
    if HasId(stored, m.id) then FirstWith(stored, m, true) else FirstWith(stored, m, false)
  }

  function FirstWith(stored: seq<Message>, m: Message, byId: bool): (r: Message)
    requires exists i :: 0 <= i < |stored| && (if byId then stored[i].id == m.id else Matches(stored[i], m))
    ensures r in stored && if byId then r.id == m.id else Matches(r, m)
  {
    if (if byId then stored[0].id == m.id else Matches(stored[0], m)) then stored[0]
    else FirstWith(stored[1..], m, byId)
  }

  datatype Archive = Archive(chat: Chat, stored: seq<Message>)

  // AppendConversationMessage
  function AppendOutcome(a: Archive, m: Message, now: nat): Outcome {
    if !ValidMessage(m) || m.conversation != a.chat.id then Refused
    else if Known(a.stored, m) then if SamePayload(Found(a.stored, m), m) then Unchanged else Refused
    else if ObserveOutcome(a.chat, m, now) == Refused then Refused
    else Changed
  }

  function AfterAppend(a: Archive, m: Message, now: nat): Archive {
    if AppendOutcome(a, m, now) == Changed then Archive(AfterObserve(a.chat, m, now), a.stored + [m]) else a
  }

  // What becomes of a message: refused if it is no valid message of this conversation, or
  // contradicts a stored one of its id or, failing that, of its external id; skipped if it
  // repeats that one; and otherwise stored and observed, unless the time has gone back.
  lemma AppendTold(a: Archive, m: Message, now: nat)
    ensures
      var r, a' := AppendOutcome(a, m, now), AfterAppend(a, m, now);
      (r != Changed ==> a' == a) &&
      (r == Changed ==> a'.stored == a.stored + [m] && a'.chat == AfterObserve(a.chat, m, now)) &&
      (r == Changed <==>
        ValidMessage(m) && m.conversation == a.chat.id && now > 0 && now >= a.chat.updatedAt &&
        forall i :: 0 <= i < |a.stored| ==>
          a.stored[i].id != m.id && (m.externalId == "" || a.stored[i].externalId != m.externalId)) &&
      (r == Unchanged <==> ValidMessage(m) && m.conversation == a.chat.id && Repeats(a.stored, m))
  {
    hide ValidMessage;
    assert Known(a.stored, m) <==> !(forall i :: 0 <= i < |a.stored| ==>
      a.stored[i].id != m.id && (m.externalId == "" || a.stored[i].externalId != m.externalId)) by {
      if i :| 0 <= i < |a.stored| && (a.stored[i].id == m.id ||
                                      (m.externalId != "" && a.stored[i].externalId == m.externalId)) {
        assert Matches(a.stored[i], m);
      }
    }
    if Known(a.stored, m) {
      FoundIsFirst(a.stored, m);
    }
  }

  // What counts as the same report of a message.
  lemma SamePayloadTold(a: Message, b: Message)
    ensures SamePayload(a, b) ==>
      a.incoming == b.incoming && a.status == b.status && a.content == b.content && a.conversation == b.conversation &&
      a.externalId == b.externalId && -1_000_000 < a.at - b.at < 1_000_000
    ensures a == b.(id := a.id, replyTo := a.replyTo) && (a.replyTo == b.replyTo || a.replyTo == "" || b.replyTo == "")
      ==> SamePayload(a, b)
  {
  }

  // The first stored message of that id, or, without one, of that external id, says the same.
  ghost predicate Repeats(stored: seq<Message>, m: Message) {
    exists i :: 0 <= i < |stored| && IsFirst(stored, m, i) && SamePayload(stored[i], m)
  }

  ghost predicate IsFirst(stored: seq<Message>, m: Message, i: nat)
    requires i < |stored|
  {
    if HasId(stored, m.id) then stored[i].id == m.id && forall j :: 0 <= j < i ==> stored[j].id != m.id
    else
      m.externalId != "" && stored[i].externalId == m.externalId &&
      forall j :: 0 <= j < i ==> stored[j].externalId != m.externalId
  }

  lemma FoundIsFirst(stored: seq<Message>, m: Message)
    requires Known(stored, m)
    ensures exists i :: 0 <= i < |stored| && IsFirst(stored, m, i) && Found(stored, m) == stored[i]
    ensures forall i, j :: 0 <= i < |stored| && 0 <= j < |stored| && IsFirst(stored, m, i) && IsFirst(stored, m, j) ==>
      i == j
  {
    var i := FirstPlace(stored, m, HasId(stored, m.id));
    assert IsFirst(stored, m, i) && Found(stored, m) == stored[i];
  }

  lemma {:induction false} FirstPlace(stored: seq<Message>, m: Message, byId: bool) returns (i: nat)
    requires exists i :: 0 <= i < |stored| && (if byId then stored[i].id == m.id else Matches(stored[i], m))
    ensures i < |stored| && FirstWith(stored, m, byId) == stored[i]
    ensures if byId then stored[i].id == m.id else Matches(stored[i], m)
    ensures forall j :: 0 <= j < i ==> !(if byId then stored[j].id == m.id else Matches(stored[j], m))
  {
    if (if byId then stored[0].id == m.id else Matches(stored[0], m)) {
      i := 0;
    } else {
      var k := FirstPlace(stored[1..], m, byId);
      i := k + 1;
      assert stored[1..][k] == stored[i];
      assert forall j :: 1 <= j < i ==> stored[1..][j - 1] == stored[j];
    }
  }

  class ConversationStore {
    var chat: Chat
    var stored: seq<Message>

    constructor (id: string, now: nat)
      ensures chat == NewChat(id, now) && stored == []
    {
      chat := NewChat(id, now);
      stored := [];
    }

    method Append(m: Message, now: nat) returns (r: Outcome)
      modifies this
      ensures Archive(chat, stored) == AfterAppend(old(Archive(chat, stored)), m, now)
      ensures r == AppendOutcome(old(Archive(chat, stored)), m, now)
    {
      if !ValidMessage(m) || m.conversation != chat.id {
        return Refused;
      }
      var earlier := Lookup(m);
      if earlier.Some? {
        return if SamePayload(earlier.value, m) then Unchanged else Refused;
      }
      var conversation := new Conversation.Copy(chat);
      var observed := conversation.Observe(m, now);
      if observed == Refused {
        return Refused;
      }
      stored := stored + [m];
      chat := conversation.chat;
      r := Changed;
    }

    // By id first, then through all messages by external id.
    method Lookup(m: Message) returns (r: Option<Message>)
      ensures r == if Known(stored, m) then Some(Found(stored, m)) else None
    {
      if HasId(stored, m.id) {
        var i :| 0 <= i < |stored| && stored[i].id == m.id;
        assert Matches(stored[i], m);
        return Some(FirstWith(stored, m, true));
      }
      if m.externalId != "" {
        var i := 0;
        while i < |stored|
          invariant 0 <= i <= |stored|
          invariant forall j :: 0 <= j < i ==> !Matches(stored[j], m)
        {
          if stored[i].externalId == m.externalId {
            FirstIsFirst(stored, m, i);
            return Some(stored[i]);
          }
          i := i + 1;
        }
      }
      r := None;
    }
  }

  lemma {:induction false} FirstIsFirst(stored: seq<Message>, m: Message, i: nat)
    requires i < |stored| && Matches(stored[i], m) && forall j :: 0 <= j < i ==> !Matches(stored[j], m)
    ensures FirstWith(stored, m, false) == stored[i]
  {
    if i > 0 {
      assert stored[1..][i - 1] == stored[i];
      FirstIsFirst(stored[1..], m, i - 1);
    }
  }

  // ---- runs ----

  datatype Event =
    | Arrival(message: Message, now: nat)
    | Catalog(status: ChatStatus, unread: int, reported: Option<nat>, now: nat)
    | Read(now: nat)
    | Presented(presentation: Presentation, now: nat)
    | StatusSet(status: ChatStatus, now: nat)

  // Messages arrive through the store.
  function After(a: Archive, e: Event): Archive {
    match e
    case Arrival(m, now) => AfterAppend(a, m, now)
    case Catalog(status, unread, reported, now) => a.(chat := AfterCatalog(a.chat, status, unread, reported, now))
    case Read(now) => a.(chat := AfterRead(a.chat, now))
    case Presented(p, now) => a.(chat := AfterPresentation(a.chat, p, now))
    case StatusSet(status, now) => a.(chat := AfterStatus(a.chat, status, now))
  }

  function Run(a: Archive, events: seq<Event>): Archive {
    if events == [] then a else After(Run(a, events[..|events| - 1]), events[|events| - 1])
  }

  // The catalog event was not refused and named an incoming time.
  predicate Reports(c: Chat, e: Event) {
    e.Catalog? && e.reported.Some? && CatalogOutcome(c, e.status, e.unread, e.reported, e.now) != Refused
  }

  // The incoming times the catalog reported, those of refused observations left out.
  function Reported(a: Archive, events: seq<Event>): seq<nat> {
    if events == [] then []
    else
      var init, last := events[..|events| - 1], events[|events| - 1];
      var before := Reported(a, init);
      if Reports(Run(a, init).chat, last) then before + [last.reported.value] else before
  }

  datatype Side = All | Incoming | Outgoing

  predicate Counts(side: Side, m: Message) {
    side == All || (side == Incoming && m.incoming) || (side == Outgoing && !m.incoming && m.status == Sent)
  }

  // The time is the largest among the messages of one side.
  ghost predicate Latest(at: Option<nat>, side: Side, messages: seq<Message>) {
    (at.None? ==> forall m :: m in messages ==> !Counts(side, m)) &&
    (at.Some? ==> exists m :: m in messages && Counts(side, m) && m.at == at.value) &&
    (at.Some? ==> forall m :: m in messages && Counts(side, m) ==> m.at <= at.value)
  }

  lemma LatestNext(at: Option<nat>, side: Side, messages: seq<Message>, m: Message)
    requires Latest(at, side, messages)
    ensures Latest(if Counts(side, m) && Later(m.at, at) then Some(m.at) else at, side, messages + [m])
  {
    var all := messages + [m];
    assert m in all;
    forall k | k in all ensures k in messages || k == m {
    }
    if at.Some? {
      var k :| k in messages && Counts(side, k) && k.at == at.value;
      assert k in all;
    }
  }

  ghost predicate Folded(c: Chat, messages: seq<Message>) {
    Latest(c.lastAt, All, messages) && Latest(c.lastIncoming, Incoming, messages) &&
    Latest(c.lastOutgoing, Outgoing, messages) &&
    (c.lastId != "" ==> exists m :: m in messages && m.id == c.lastId)
  }

  lemma FoldedNext(c: Chat, messages: seq<Message>, m: Message, now: nat)
    requires Folded(c, messages) && ObserveOutcome(c, m, now) == Changed
    ensures Folded(AfterObserve(c, m, now), messages + [m])
  {
    var all := messages + [m];
    assert m in all;
    LatestNext(c.lastIncoming, Incoming, messages, m);
    LatestNext(c.lastOutgoing, Outgoing, messages, m);
    LatestNext(c.lastAt, All, messages, m);
    if c.lastId != "" {
      var k :| k in messages && k.id == c.lastId;
      assert k in all;
    }
  }

  // The message would raise one of the three times.
  predicate Raises(c: Chat, m: Message) {
    Later(m.at, c.lastAt) || (m.incoming && Later(m.at, c.lastIncoming)) ||
    (Counts(Outgoing, m) && Later(m.at, c.lastOutgoing))
  }

  // Exactly when one observation keeps the times right: unless it is skipped as the
  // last message although it would raise one of them.
  lemma ObserveFoldsExactly(c: Chat, messages: seq<Message>, m: Message, now: nat)
    requires Folded(c, messages) && ObserveOutcome(c, m, now) != Refused
    ensures Folded(AfterObserve(c, m, now), messages + [m]) <==> !(c.lastId == m.id && Raises(c, m))
  {
    if c.lastId != m.id {
      FoldedNext(c, messages, m, now);
    } else {
      assert m in messages + [m];
      LatestNext(c.lastAt, All, messages, m);
      LatestNext(c.lastIncoming, Incoming, messages, m);
      LatestNext(c.lastOutgoing, Outgoing, messages, m);
    }
  }

  // The limit of Observe alone: reached with a message under the id observed last, it skips
  // it. A queued message sent under its id would leave no outgoing time; the store never
  // lets it through.
  lemma SentUnderSameIdIsLost(id: string, m: Message, now: nat)
    requires ValidMessage(m) && m.conversation == id && !m.incoming && m.status == Queued && now > 0
    ensures var sent := m.(status := Sent);
      var once := AfterObserve(NewChat(id, now), m, now);
      ObserveOutcome(once, sent, now) == Unchanged && !Folded(AfterObserve(once, sent, now), [m, sent])
    ensures AppendOutcome(AfterAppend(Archive(NewChat(id, now), []), m, now), m.(status := Sent), now) == Refused
  {
    var sent := m.(status := Sent);
    assert sent in [m, sent] && Counts(Outgoing, sent);
    var a := AfterAppend(Archive(NewChat(id, now), []), m, now);
    assert a.stored == [m] && Matches(a.stored[0], sent);
    assert Found(a.stored, sent) == m;
  }

  // What the store keeps: valid messages of its conversation, no two under one id or
  // external id, and a record that folds exactly them.
  ghost predicate Stored(a: Archive) {
    (forall i :: 0 <= i < |a.stored| ==> ValidMessage(a.stored[i]) && a.stored[i].conversation == a.chat.id) &&
    (forall i, j :: 0 <= i < j < |a.stored| ==> !Matches(a.stored[i], a.stored[j]))
  }

  ghost predicate KeptArchive(a: Archive) {
    Stored(a) && Folded(a.chat, a.stored)
  }

  // A message that is not stored is never skipped: the record's own check of the last id
  // can no longer fail.
  lemma NewIsNeverSkipped(a: Archive, m: Message, now: nat)
    requires KeptArchive(a) && m.id != "" && !Known(a.stored, m)
    ensures ObserveOutcome(a.chat, m, now) != Unchanged
  {
    LastIsStored(a);
    KnownById(a.stored, m);
  }

  lemma LastIsStored(a: Archive)
    requires Folded(a.chat, a.stored)
    ensures a.chat.lastId != "" ==> HasId(a.stored, a.chat.lastId)
  {
  }

  lemma KnownById(stored: seq<Message>, m: Message)
    ensures HasId(stored, m.id) ==> Known(stored, m)
  {
    if i :| 0 <= i < |stored| && stored[i].id == m.id {
      assert Matches(stored[i], m);
    }
  }

  lemma StoredNext(a: Archive, m: Message, now: nat)
    requires Stored(a) && AppendOutcome(a, m, now) == Changed
    ensures Stored(AfterAppend(a, m, now))
  {
    var all := a.stored + [m];
    forall i, j | 0 <= i < j < |all| ensures !Matches(all[i], all[j]) {
      if j == |a.stored| {
        assert !Matches(a.stored[i], m);
      }
    }
  }

  lemma KeptArchiveStep(a: Archive, e: Event)
    requires KeptArchive(a)
    ensures KeptArchive(After(a, e))
  {
    if e.Arrival? && AppendOutcome(a, e.message, e.now) == Changed {
      NewIsNeverSkipped(a, e.message, e.now);
      StoredNext(a, e.message, e.now);
      FoldedNext(a.chat, a.stored, e.message, e.now);
    } else if !e.Arrival? {
      FoldedElsewhere(a, e);
    }
  }

  predicate SameTimes(a: Chat, b: Chat) {
    b.id == a.id && b.lastId == a.lastId && b.lastAt == a.lastAt && b.lastIncoming == a.lastIncoming &&
    b.lastOutgoing == a.lastOutgoing
  }

  // Other events leave the messages and their times alone.
  lemma TimesElsewhere(a: Archive, e: Event)
    requires !e.Arrival?
    ensures After(a, e).stored == a.stored && SameTimes(a.chat, After(a, e).chat)
  {
    hide Trim;
  }

  lemma FoldedElsewhere(a: Archive, e: Event)
    requires KeptArchive(a) && !e.Arrival?
    ensures KeptArchive(After(a, e))
  {
    TimesElsewhere(a, e);
    hide After, Latest;
  }

  // Main result: after any events, messages arriving in any order, repeatedly or in
  // conflict, the store holds each accepted message once and the three times of the record
  // are the maxima over the messages stored.
  lemma {:induction false} TimesAreMaxima(a: Archive, events: seq<Event>)
    requires KeptArchive(a)
    ensures KeptArchive(Run(a, events))
  {
    hide KeptArchive, After;
    if events != [] {
      TimesAreMaxima(a, events[..|events| - 1]);
      KeptArchiveStep(Run(a, events[..|events| - 1]), events[|events| - 1]);
    }
  }

  lemma NewArchiveIsKept(id: string, now: nat)
    ensures KeptArchive(Archive(NewChat(id, now), []))
  {
  }

  // No event takes revision, update time or read time back, blanks a detail once shown, or
  // loses a message.
  lemma NothingGoesBack(a: Archive, e: Event)
    ensures After(a, e).chat.revision >= a.chat.revision && After(a, e).chat.updatedAt >= a.chat.updatedAt
    ensures a.chat.lastRead.Some? ==>
      After(a, e).chat.lastRead.Some? && After(a, e).chat.lastRead.value >= a.chat.lastRead.value
    ensures After(a, e).chat != a.chat ==> After(a, e).chat.revision == a.chat.revision + 1
    ensures a.chat.details.title != "" ==> After(a, e).chat.details.title != ""
    ensures a.chat.details.employer != "" ==> After(a, e).chat.details.employer != ""
    ensures a.chat.details.employerId != "" ==> After(a, e).chat.details.employerId != ""
    ensures a.chat.details.url != "" ==> After(a, e).chat.details.url != ""
    ensures a.stored <= After(a, e).stored
  {
    hide Trim;
  }

  // Something newer than the last read is known to have come in.
  ghost predicate NewerKnown(c: Chat, messages: seq<Message>, reported: seq<nat>) {
    c.lastRead.Some? &&
    ((exists i :: 0 <= i < |messages| && messages[i].incoming && messages[i].at > c.lastRead.value) ||
     (exists i :: 0 <= i < |reported| && reported[i] > c.lastRead.value))
  }

  ghost predicate HasIncoming(at: Option<nat>, messages: seq<Message>) {
    at.Some? ==> exists i :: 0 <= i < |messages| && messages[i].incoming && messages[i].at == at.value
  }

  lemma NewerStays(c: Chat, c': Chat, messages: seq<Message>, more: seq<Message>, reported: seq<nat>, further: seq<nat>)
    requires NewerKnown(c, messages, reported) && c'.lastRead == c.lastRead
    ensures NewerKnown(c', messages + more, reported + further)
  {
    if i :| 0 <= i < |messages| && messages[i].incoming && messages[i].at > c.lastRead.value {
      assert (messages + more)[i] == messages[i];
    } else {
      var i :| 0 <= i < |reported| && reported[i] > c.lastRead.value;
      assert (reported + further)[i] == reported[i];
    }
  }

  lemma IncomingStays(at: Option<nat>, messages: seq<Message>, more: seq<Message>)
    requires HasIncoming(at, messages)
    ensures HasIncoming(at, messages + more)
  {
    if at.Some? {
      var i :| 0 <= i < |messages| && messages[i].incoming && messages[i].at == at.value;
      assert (messages + more)[i] == messages[i];
    }
  }

  // What every run keeps: a read chat shows unread messages only if something newer
  // than the read was observed, or reported by the catalog.
  lemma {:induction false} UnreadMeansNewer(id: string, start: nat, events: seq<Event>)
    ensures var a := Run(Archive(NewChat(id, start), []), events);
      var reported := Reported(Archive(NewChat(id, start), []), events);
      (a.chat.unread > 0 && a.chat.lastRead.Some? ==> NewerKnown(a.chat, a.stored, reported)) &&
      HasIncoming(a.chat.lastIncoming, a.stored)
  {
    hide After, Reports, NewerKnown, HasIncoming;
    if events != [] {
      var init, last := events[..|events| - 1], events[|events| - 1];
      var a0 := Archive(NewChat(id, start), []);
      UnreadMeansNewer(id, start, init);
      UnreadStep(Run(a0, init), last, Reported(a0, init), Reported(a0, events));
    } else {
      NothingUnread(id, start);
    }
  }

  lemma NothingUnread(id: string, start: nat)
    ensures HasIncoming(NewChat(id, start).lastIncoming, [])
  {
  }

  lemma UnreadStep(a: Archive, e: Event, reported: seq<nat>, after: seq<nat>)
    requires HasIncoming(a.chat.lastIncoming, a.stored)
    requires a.chat.unread > 0 && a.chat.lastRead.Some? ==> NewerKnown(a.chat, a.stored, reported)
    requires after == if Reports(a.chat, e) then reported + [e.reported.value] else reported
    ensures var b := After(a, e);
      (b.chat.unread > 0 && b.chat.lastRead.Some? ==> NewerKnown(b.chat, b.stored, after)) &&
      HasIncoming(b.chat.lastIncoming, b.stored)
  {
    var b := After(a, e);
    var more := if b.stored == a.stored then [] else [e.message];
    var further := if Reports(a.chat, e) then [e.reported.value] else [];
    assert b.stored == a.stored + more && after == reported + further;
    IncomingStays(a.chat.lastIncoming, a.stored, more);
    if b.chat.lastIncoming != a.chat.lastIncoming {
      assert b.stored[|a.stored|] == e.message;
    }
    if a.chat.unread > 0 && a.chat.lastRead.Some? && b.chat.lastRead == a.chat.lastRead {
      NewerStays(a.chat, b.chat, a.stored, more, reported, further);
    } else if e.Catalog? && b.chat.unread > 0 && b.chat.lastRead.Some? {
      if Reports(a.chat, e) {
        assert after[|reported|] == e.reported.value;
      }
    }
  }
}
