/** A chat room between a member and the registrant of a listing. */
module Chat {
  import opened Common

  datatype Message = Message(sender: string, clientId: string, sequence: nat, body: string)

  datatype Room = Room(
    member: string,
    registrant: string,
    last: nat,
    memberRead: nat,
    registrantRead: nat,
    messages: seq<Message>)

  datatype Error = Blank | NotFound | Closed | Mismatch | Ahead

  datatype Sent = Accepted(room: Room, message: Message) | Rejected(error: Error)

  predicate Participant(r: Room, user: string) {
    user == r.member || user == r.registrant
  }

  function Cursor(r: Room, user: string): nat {
    if user == r.member then r.memberRead else r.registrantRead
  }

  function WithCursor(r: Room, user: string, through: nat): Room {
    if user == r.member then r.(memberRead := through) else r.(registrantRead := through)
  }

  /** The message stored under a sender's own identifier. */
  function Find(messages: seq<Message>, sender: string, clientId: string): (r: Option<Message>)
    ensures r.Some? ==> r.value in messages && r.value.sender == sender && r.value.clientId == clientId
    ensures r.None? ==> forall m :: m in messages ==> m.sender != sender || m.clientId != clientId
  {
    if messages == [] then None
    else if messages[0].sender == sender && messages[0].clientId == clientId then Some(messages[0])
    else Find(messages[1..], sender, clientId)
  }

  /** body arrives trimmed; open says that the listing is still public. */
  function Send(r: Room, sender: string, clientId: string, body: string, open: bool): Sent {
    if body == "" then Rejected(Blank)
    else if !Participant(r, sender) then Rejected(NotFound)
    else if !open then Rejected(Closed)
    else
      var existing := Find(r.messages, sender, clientId);
      if existing.Some? then
        if existing.value.body == body then Accepted(r, existing.value) else Rejected(Mismatch)
      else
        var m := Message(sender, clientId, r.last + 1, body);
        Accepted(WithCursor(r.(last := r.last + 1, messages := r.messages + [m]), sender, r.last + 1), m)
  }

  /** The guarded update of a read mark, decided on the room as it was read. */
  function MarkRead(r: Room, seen: Room, user: string, through: nat): Room {
    if through > seen.last || through <= Cursor(seen, user) || Cursor(r, user) >= through then r
    else WithCursor(r, user, through)
  }

  // ---------- runs ----------

  datatype Step =
    | SendStep(sender: string, clientId: string, body: string, open: bool)
    | BeginRead(user: string)
    | EndRead(flight: nat, through: nat)

  datatype Reader = Reader(user: string, seen: Room)

  datatype World = World(room: Room, readers: seq<Reader>)

  function Next(w: World, s: Step): World {
    match s
    case SendStep(sender, clientId, body, open) =>
      var sent := Send(w.room, sender, clientId, body, open);
      if sent.Accepted? then w.(room := sent.room) else w
    case BeginRead(user) =>
      if Participant(w.room, user) then w.(readers := w.readers + [Reader(user, w.room)]) else w
    case EndRead(f, through) =>
      if f < |w.readers| then w.(room := MarkRead(w.room, w.readers[f].seen, w.readers[f].user, through)) else w
  }

  function Run(w: World, steps: seq<Step>): World
    decreases |steps|
  {
    if steps == [] then w else Run(Next(w, steps[0]), steps[1..])
  }

  /** Sequences are 1, 2, 3, ... without gaps, identifiers are unique per sender, cursors stay within the history. */
  ghost predicate Inv(r: Room) {
    && r.member != r.registrant
    && r.last == |r.messages|
    && (forall i :: 0 <= i < |r.messages| ==> r.messages[i].sequence == i + 1)
    && (forall i, j :: 0 <= i < j < |r.messages| ==>
          r.messages[i].sender != r.messages[j].sender || r.messages[i].clientId != r.messages[j].clientId)
    && r.memberRead <= r.last && r.registrantRead <= r.last
  }

  /** History is only appended to and read marks only advance. */
  ghost predicate Grows(a: Room, b: Room) {
    && a.member == b.member && a.registrant == b.registrant
    && a.messages <= b.messages && a.last <= b.last
    && a.memberRead <= b.memberRead && a.registrantRead <= b.registrantRead
  }

  ghost predicate WorldInv(w: World) {
    Inv(w.room) && forall i :: 0 <= i < |w.readers| ==> Grows(w.readers[i].seen, w.room)
  }

  lemma NextKeepsInv(w: World, s: Step)
    requires WorldInv(w)
    ensures WorldInv(Next(w, s)) && Grows(w.room, Next(w, s).room)
  {
    var w' := Next(w, s);
    assert Inv(w'.room) && Grows(w.room, w'.room);
    forall i | 0 <= i < |w'.readers|
      ensures Grows(w'.readers[i].seen, w'.room)
    {
      if i < |w.readers| {
        assert Grows(w.readers[i].seen, w.room);
      }
    }
  }

  lemma {:induction false} RunsKeepInv(w: World, steps: seq<Step>)
    requires WorldInv(w)
    ensures WorldInv(Run(w, steps)) && Grows(w.room, Run(w, steps).room)
    decreases |steps|
  {
    if steps != [] {
      NextKeepsInv(w, steps[0]);
      RunsKeepInv(Next(w, steps[0]), steps[1..]);
    }
  }

  /** A stored message is the one its sender and identifier find. */
  lemma StoredIsFound(r: Room, i: nat)
    requires Inv(r) && i < |r.messages|
    ensures Find(r.messages, r.messages[i].sender, r.messages[i].clientId) == Some(r.messages[i])
  {
    var found := Find(r.messages, r.messages[i].sender, r.messages[i].clientId);
    var j :| 0 <= j < |r.messages| && r.messages[j] == found.value;
    assert i == j;
  }

  lemma AcceptedIsStored(r: Room, sender: string, clientId: string, body: string) returns (i: nat)
    requires Inv(r) && Send(r, sender, clientId, body, true).Accepted?
    ensures var sent := Send(r, sender, clientId, body, true);
            i < |sent.room.messages| && sent.room.messages[i] == sent.message
            && sent.message.sender == sender && sent.message.clientId == clientId && sent.message.body == body
            && Participant(r, sender) && body != ""
  {
    var sent := Send(r, sender, clientId, body, true);
    i :| 0 <= i < |sent.room.messages| && sent.room.messages[i] == sent.message;
  }

  /** However much happens in between, repeating an accepted message while the listing is open returns the original and
      leaves the room as it is, and reusing its identifier for another text is refused. */
  lemma RetryReturnsOriginal(w: World, sender: string, clientId: string, body: string, steps: seq<Step>, other: string)
    requires WorldInv(w) && Send(w.room, sender, clientId, body, true).Accepted?
    requires other != "" && other != body
    ensures var sent := Send(w.room, sender, clientId, body, true);
            var later := Run(w.(room := sent.room), steps).room;
            Send(later, sender, clientId, body, true) == Accepted(later, sent.message)
            && Send(later, sender, clientId, other, true) == Rejected(Mismatch)
  {
    var w1 := Next(w, SendStep(sender, clientId, body, true));
    var i := AcceptedIsStored(w.room, sender, clientId, body);
    NextKeepsInv(w, SendStep(sender, clientId, body, true));
    RunsKeepInv(w1, steps);
    var later := Run(w1, steps).room;
    assert later.messages[i] == w1.room.messages[i];
    StoredIsFound(later, i);
  }

  // ---------- paging back through the history ----------

  /** The messages a page may hold: all, or those before a sequence; 0 counts as no cursor. */
  function Older(messages: seq<Message>, before: Option<nat>): seq<Message> {
    if messages == [] then []
    else
      var rest := Older(messages[..|messages| - 1], before);
      if before.None? || before.value == 0 || messages[|messages| - 1].sequence < before.value then rest + [messages[|messages| - 1]] else rest
  }

  datatype Page = Page(items: seq<Message>, next: Option<nat>)

  /** The newest messages before the cursor, oldest first; the next cursor is the oldest sequence unless that is 1. */
  function ListMessages(messages: seq<Message>, before: Option<nat>, limit: nat): Page {
    var older := Older(messages, before);
    var items := if |older| <= limit then older else older[|older| - limit..];
    Page(items, if items != [] && items[0].sequence > 1 then Some(items[0].sequence) else None)
  }

  lemma {:induction false} OlderIsPrefix(messages: seq<Message>, before: Option<nat>)
    requires forall i :: 0 <= i < |messages| ==> messages[i].sequence == i + 1
    ensures var n := if before.Some? && 0 < before.value <= |messages| then before.value - 1 else |messages|;
            Older(messages, before) == messages[..n]
    decreases |messages|
  {
    if messages != [] {
      OlderIsPrefix(messages[..|messages| - 1], before);
    }
  }

  lemma TailOfPrefix<T>(s: seq<T>, k: nat, n: nat)
    requires k <= n <= |s|
    ensures s[..n][k..] == s[k..n]
  {
  }

  lemma PageIsSlice(messages: seq<Message>, before: Option<nat>, limit: nat)
    requires limit > 0 && (forall i :: 0 <= i < |messages| ==> messages[i].sequence == i + 1)
    requires before.Some? ==> 0 < before.value <= |messages|
    ensures var n := if before.Some? then before.value - 1 else |messages|;
            var k := if n <= limit then 0 else n - limit;
            ListMessages(messages, before, limit) == Page(messages[k..n], if k > 0 then Some(k + 1) else None)
  {
    OlderIsPrefix(messages, before);
    var n := if before.Some? then before.value - 1 else |messages|;
    var k := if n <= limit then 0 else n - limit;
    TailOfPrefix(messages, k, n);
    assert k < n ==> messages[k..n][0] == messages[k];
  }

  /** Everything a reader collects by following the cursors from a page on, oldest first. */
  function ReadBack(messages: seq<Message>, before: Option<nat>, limit: nat): seq<Message>
    requires limit > 0 && (forall i :: 0 <= i < |messages| ==> messages[i].sequence == i + 1)
    requires before.Some? ==> 0 < before.value <= |messages|
    decreases if before.Some? then before.value else |messages| + 1
  {
    var page := ListMessages(messages, before, limit);
    PageIsSlice(messages, before, limit);
    if page.next.None? then page.items else ReadBack(messages, page.next, limit) + page.items
  }

  lemma SlicesJoin<T>(s: seq<T>, k: nat, n: nat)
    requires k <= n <= |s|
    ensures s[..k] + s[k..n] == s[..n]
  {
  }

  lemma {:induction false} ReadBackIsPrefix(messages: seq<Message>, before: Option<nat>, limit: nat)
    requires limit > 0 && (forall i :: 0 <= i < |messages| ==> messages[i].sequence == i + 1)
    requires before.Some? ==> 0 < before.value <= |messages|
    ensures ReadBack(messages, before, limit) == messages[..if before.Some? then before.value - 1 else |messages|]
    decreases if before.Some? then before.value else |messages| + 1
  {
    PageIsSlice(messages, before, limit);
    var n := if before.Some? then before.value - 1 else |messages|;
    if n > limit {
      ReadBackIsPrefix(messages, Some(n - limit + 1), limit);
      SlicesJoin(messages, n - limit, n);
    }
  }

  /** Paging back from the newest page reads every message exactly once, in order, for every page size. */
  lemma PagingReadsEverythingOnce(r: Room, limit: nat)
    requires Inv(r) && limit > 0
    ensures ReadBack(r.messages, None, limit) == r.messages
  {
    ReadBackIsPrefix(r.messages, None, limit);
  }

  /** A further page is announced exactly when older messages remain. */
  lemma NextPageIffOlderMessages(r: Room, limit: nat, before: Option<nat>)
    requires Inv(r) && limit > 0
    ensures var page := ListMessages(r.messages, before, limit);
            page.next.Some? <==> page.items != [] && exists m :: m in r.messages && m.sequence < page.items[0].sequence
  {
    OlderIsPrefix(r.messages, before);
    var page := ListMessages(r.messages, before, limit);
    if page.next.Some? {
      assert r.messages[0] in r.messages;
    }
  }

  /** Messages that arrive while someone pages back do not disturb the pages still to come. */
  lemma PagesAreStable(r: Room, later: Room, limit: nat, before: nat)
    requires Inv(r) && Inv(later) && Grows(r, later) && 0 < before <= r.last
    ensures ListMessages(later.messages, Some(before), limit) == ListMessages(r.messages, Some(before), limit)
  {
    OlderIsPrefix(r.messages, Some(before));
    OlderIsPrefix(later.messages, Some(before));
    assert later.messages[..before - 1] == r.messages[..before - 1];
  }

  // ---------- what sending and reading answer ----------

  ghost predicate Stored(messages: seq<Message>, sender: string, clientId: string, body: string) {
    exists i :: 0 <= i < |messages| && messages[i].sender == sender && messages[i].clientId == clientId && messages[i].body == body
  }

  ghost predicate Used(messages: seq<Message>, sender: string, clientId: string) {
    exists i :: 0 <= i < |messages| && messages[i].sender == sender && messages[i].clientId == clientId
  }

  /** A text is taken exactly from one of the two, while the listing is open, unless its identifier stands for another text;
      a new one gets the next number and moves its sender's own cursor there, a repeated one changes nothing. */
  lemma SendAnswers(r: Room, sender: string, clientId: string, body: string, open: bool)
    requires Inv(r)
    ensures match Send(r, sender, clientId, body, open)
            case Rejected(error) =>
              error == (if body == "" then Blank
                        else if sender != r.member && sender != r.registrant then NotFound
                        else if !open then Closed else Mismatch)
              && (error == Mismatch ==> Used(r.messages, sender, clientId) && !Stored(r.messages, sender, clientId, body))
            case Accepted(r', m) =>
              && body != "" && (sender == r.member || sender == r.registrant) && open
              && m.sender == sender && m.clientId == clientId && m.body == body
              && (Used(r.messages, sender, clientId) ==> r' == r && m in r.messages)
              && (!Used(r.messages, sender, clientId) ==>
                    r' == r.(last := r.last + 1, messages := r.messages + [Message(sender, clientId, r.last + 1, body)],
                             memberRead := if sender == r.member then r.last + 1 else r.memberRead,
                             registrantRead := if sender == r.member then r.registrantRead else r.last + 1)
                    && m == Message(sender, clientId, r.last + 1, body))
  {
    if Stored(r.messages, sender, clientId, body) {
      var i :| 0 <= i < |r.messages| && r.messages[i].sender == sender && r.messages[i].clientId == clientId
               && r.messages[i].body == body;
      StoredIsFound(r, i);
    }
    var found := Find(r.messages, sender, clientId);
    if found.Some? {
      var i :| 0 <= i < |r.messages| && r.messages[i] == found.value;
    }
  }

  /** Reading moves the user's own cursor forward, never past what was there when it was read, and leaves the other's. */
  lemma ReadAnswers(r: Room, seen: Room, user: string, through: nat)
    requires Inv(r) && Grows(seen, r) && Participant(r, user)
    ensures var r' := MarkRead(r, seen, user, through);
            && r' == r.(memberRead := r'.memberRead, registrantRead := r'.registrantRead)
            && (through > seen.last ==> r' == r)
            && (through <= seen.last ==>
                  if user == r.member
                  then r'.registrantRead == r.registrantRead
                       && r'.memberRead == if through > r.memberRead then through else r.memberRead
                  else r'.memberRead == r.memberRead
                       && r'.registrantRead == if through > r.registrantRead then through else r.registrantRead)
  {
  }

  /** Once the listing is closed the history stands still, whatever is sent or read. */
  lemma {:induction false} ClosedListingsTakeNothing(w: World, steps: seq<Step>)
    requires forall i :: 0 <= i < |steps| && steps[i].SendStep? ==> !steps[i].open
    ensures Run(w, steps).room.messages == w.room.messages && Run(w, steps).room.last == w.room.last
    decreases |steps|
  {
    if steps != [] {
      assert steps[0].SendStep? ==> !steps[0].open;
      assert forall i :: 0 <= i < |steps[1..]| ==> steps[1..][i] == steps[i + 1];
      ClosedListingsTakeNothing(Next(w, steps[0]), steps[1..]);
    }
  }

  // ---------- the service ----------

  class ChatRoom {
    const member: string
    const registrant: string
    var last: nat
    var memberRead: nat
    var registrantRead: nat
    var messages: seq<Message>

    function View(): Room
      reads this
    {
      Room(member, registrant, last, memberRead, registrantRead, messages)
    }

    constructor (member: string, registrant: string)
      requires member != registrant
      ensures View() == Room(member, registrant, 0, 0, 0, []) && Inv(View())
    {
      this.member, this.registrant := member, registrant;
      last, memberRead, registrantRead := 0, 0, 0;
      messages := [];
    }

    method SendMessage(sender: string, clientId: string, body: string, open: bool) returns (result: Sent)
      requires Inv(View())
      modifies this
      ensures result == Send(old(View()), sender, clientId, body, open)
      ensures View() == if result.Accepted? then result.room else old(View())
      ensures Inv(View()) && Grows(old(View()), View())
    {
      NextKeepsInv(World(View(), []), SendStep(sender, clientId, body, open));
      if body == "" {
        return Rejected(Blank);
      }
      if sender != member && sender != registrant {
        return Rejected(NotFound);
      }
      if !open {
        return Rejected(Closed);
      }
      var existing := Find(messages, sender, clientId);
      if existing.Some? {
        if existing.value.body != body {
          return Rejected(Mismatch);
        }
        return Accepted(View(), existing.value);
      }
      last := last + 1;
      var message := Message(sender, clientId, last, body);
      messages := messages + [message];
      if sender == member {
        memberRead := last;
      } else {
        registrantRead := last;
      }
      result := Accepted(View(), message);
    }

    /** The second half of marking as read: the update only ever moves the user's own cursor forward. */
    method MarkReadThrough(seen: Room, user: string, through: nat) returns (error: Option<Error>)
      requires Inv(View()) && Grows(seen, View()) && Participant(View(), user)
      modifies this
      ensures error == if through > seen.last then Some(Ahead) else None
      ensures View() == MarkRead(old(View()), seen, user, through) && Inv(View()) && Grows(old(View()), View())
      ensures error.None? ==> Cursor(View(), user) == Max(old(Cursor(View(), user)), through)
    {
      if through > seen.last {
        return Some(Ahead);
      }
      var currentRead := if user == member then seen.memberRead else seen.registrantRead;
      if through > currentRead {
        if user == member {
          if memberRead < through {
            memberRead := through;
          }
        } else if registrantRead < through {
          registrantRead := through;
        }
      }
      error := None;
    }
  }
}
