/** The receiving side of a socket: bytes that arrive, readers that wait for them. */
module TcpInbox {
  type Bytes = seq<bv8>

  /** A reader that found nothing to read. */
  datatype Waiter = Waiter(id: nat, maxBytes: int)

  datatype Reply = Reply(id: nat, bytes: Bytes)

  /** A socket record; `replies` lists what readers were given, in order. */
  datatype Socket = Socket(registered: bool, inbox: Bytes, closed: bool, waiters: seq<Waiter>, replies: seq<Reply>)

  datatype Event =
    | Data(chunk: Bytes)
    | End                                // end, close or error of the connection
    | Receive(id: nat, maxBytes: int)
    | TimeOut(index: nat)                // of a pending waiter
    | Close

  const FRESH := Socket(true, [], false, [], [])

  /** Where subarray(0, n) ends and subarray(n) starts: a negative n counts from the end. */
  function CutAt(length: nat, maxBytes: int): (n: nat)
    ensures n <= length
  {
    var n := if length < maxBytes then length else maxBytes;
    if n >= 0 then n else if length + n >= 0 then length + n else 0
  }

  function Take(s: Socket, id: nat, maxBytes: int): Socket {
    var n := CutAt(|s.inbox|, maxBytes);
    s.(inbox := s.inbox[n..], replies := s.replies + [Reply(id, s.inbox[..n])])
  }

  function GiveNothing(s: Socket, id: nat): Socket { s.(replies := s.replies + [Reply(id, [])]) }

  /** What a reader is given, at once or when its turn comes. */
  function Resolved(s: Socket, w: Waiter): Socket {
    if |s.inbox| > 0 then Take(s, w.id, w.maxBytes) else GiveNothing(s, w.id)
  }

  /** flushWaiters: serve waiters in order while there are bytes or the connection has ended. */
  function Flush(s: Socket): Socket
    decreases |s.waiters|
  {
    if |s.waiters| == 0 || (|s.inbox| == 0 && !s.closed) then s
    else
      var w, rest := s.waiters[0], s.(waiters := s.waiters[1..]);
      Flush(Resolved(rest, w))
  }

  function GiveAll(s: Socket): Socket
    decreases |s.waiters|
  {
    if |s.waiters| == 0 then s else GiveAll(GiveNothing(s.(waiters := s.waiters[1..]), s.waiters[0].id))
  }

  /** One event; none but reads concerns a socket that was closed and forgotten, and a read
      of it finds no record. */
  function Step(s: Socket, e: Event): Socket {
    if !s.registered then s
    else
      match e
      case Data(chunk) => Flush(s.(inbox := s.inbox + chunk))
      case End => Flush(s.(closed := true))
      case Receive(id, maxBytes) =>
        if |s.inbox| > 0 then Take(s, id, maxBytes)
        else if s.closed then GiveNothing(s, id)
        else s.(waiters := s.waiters + [Waiter(id, maxBytes)])
      case TimeOut(i) =>
        if i >= |s.waiters| then s
        else
          Resolved(s.(waiters := s.waiters[..i] + s.waiters[i + 1..]), s.waiters[i])
      case Close => GiveAll(s.(closed := true)).(registered := false)
  }

  function Run(events: seq<Event>): Socket {
    if |events| == 0 then FRESH else Step(Run(events[..|events| - 1]), events[|events| - 1])
  }

  // ---- Conservation ----

  function Delivered(replies: seq<Reply>): Bytes {
    if |replies| == 0 then [] else Delivered(replies[..|replies| - 1]) + replies[|replies| - 1].bytes
  }

  function ReplyIds(replies: seq<Reply>): multiset<nat> {
    if |replies| == 0 then multiset{} else ReplyIds(replies[..|replies| - 1]) + multiset{replies[|replies| - 1].id}
  }

  function WaiterIds(waiters: seq<Waiter>): multiset<nat> {
    if |waiters| == 0 then multiset{} else multiset{waiters[0].id} + WaiterIds(waiters[1..])
  }

  /** What came in while the socket was registered, and who asked. */
  function Arrived(events: seq<Event>): Bytes {
    if |events| == 0 then []
    else
      var before, e := events[..|events| - 1], events[|events| - 1];
      Arrived(before) + if e.Data? && Run(before).registered then e.chunk else []
  }

  function Asked(events: seq<Event>): multiset<nat> {
    if |events| == 0 then multiset{}
    else
      var before, e := events[..|events| - 1], events[|events| - 1];
      Asked(before) + if e.Receive? && Run(before).registered then multiset{e.id} else multiset{}
  }

  /** All bytes the socket has seen, and all readers. */
  function Total(s: Socket): Bytes { Delivered(s.replies) + s.inbox }

  function Readers(s: Socket): multiset<nat> { ReplyIds(s.replies) + WaiterIds(s.waiters) }

  lemma TakeKeeps(s: Socket, id: nat, maxBytes: int)
    ensures Total(Take(s, id, maxBytes)) == Total(s)
    ensures Readers(Take(s, id, maxBytes)) == Readers(s) + multiset{id}
  {
    var n := CutAt(|s.inbox|, maxBytes);
    assert s.inbox == s.inbox[..n] + s.inbox[n..];
    assert (s.replies + [Reply(id, s.inbox[..n])])[..|s.replies|] == s.replies;
  }

  lemma NothingKeeps(s: Socket, id: nat)
    ensures Total(GiveNothing(s, id)) == Total(s)
    ensures Readers(GiveNothing(s, id)) == Readers(s) + multiset{id}
  {
    assert (s.replies + [Reply(id, [])])[..|s.replies|] == s.replies;
  }

  lemma {:induction false} FlushKeeps(s: Socket)
    ensures var r := Flush(s);
            && Total(r) == Total(s) && Readers(r) == Readers(s)
            && r.registered == s.registered && r.closed == s.closed
            && (r.waiters != [] ==> r.inbox == [] && !r.closed)
    decreases |s.waiters|
  {
    hide Total, Readers, Take, GiveNothing, CutAt;
    if |s.waiters| == 0 || (|s.inbox| == 0 && !s.closed) {
    } else {
      var w, rest := s.waiters[0], s.(waiters := s.waiters[1..]);
      FirstWaiter(s);
      var next := Resolved(rest, w);
      TakeKeeps(rest, w.id, w.maxBytes);
      NothingKeeps(rest, w.id);
      SameSocket(rest, w.id, w.maxBytes);
      FlushKeeps(next);
    }
  }

  lemma FirstWaiter(s: Socket)
    requires |s.waiters| > 0
    ensures var rest := s.(waiters := s.waiters[1..]);
            Total(rest) == Total(s) && Readers(rest) + multiset{s.waiters[0].id} == Readers(s)
  {
  }

  lemma SameSocket(s: Socket, id: nat, maxBytes: int)
    ensures var r := Take(s, id, maxBytes);
            r.waiters == s.waiters && r.closed == s.closed && r.registered == s.registered
    ensures var r := GiveNothing(s, id);
            r.waiters == s.waiters && r.closed == s.closed && r.registered == s.registered && r.inbox == s.inbox
  {
  }

  lemma {:induction false} GiveAllKeeps(s: Socket)
    ensures var r := GiveAll(s);
            Total(r) == Total(s) && Readers(r) == Readers(s) && r.waiters == [] && r.closed == s.closed
    decreases |s.waiters|
  {
    if |s.waiters| > 0 {
      var rest := s.(waiters := s.waiters[1..]);
      NothingKeeps(rest, s.waiters[0].id);
      GiveAllKeeps(GiveNothing(rest, s.waiters[0].id));
    }
  }

  lemma {:induction false} WaiterAdded(waiters: seq<Waiter>, w: Waiter)
    ensures WaiterIds(waiters + [w]) == WaiterIds(waiters) + multiset{w.id}
  {
    if |waiters| > 0 {
      assert (waiters + [w])[1..] == waiters[1..] + [w];
      WaiterAdded(waiters[1..], w);
    } else {
      assert (waiters + [w])[1..] == [];
    }
  }

  lemma {:induction false} WaiterRemoved(waiters: seq<Waiter>, i: nat)
    requires i < |waiters|
    ensures WaiterIds(waiters[..i] + waiters[i + 1..]) + multiset{waiters[i].id} == WaiterIds(waiters)
  {
    if i > 0 {
      assert (waiters[..i] + waiters[i + 1..])[1..] == waiters[1..][..i - 1] + waiters[1..][i..];
      WaiterRemoved(waiters[1..], i - 1);
    } else {
      assert waiters[..0] + waiters[1..] == waiters[1..];
    }
  }

  /** A reader waits only while there is nothing to read and more may come. */
  predicate WaitsForBytes(s: Socket) { s.waiters != [] ==> s.inbox == [] && !s.closed }

  lemma StepKeeps(s: Socket, e: Event)
    requires WaitsForBytes(s)
    ensures WaitsForBytes(Step(s, e))
    ensures Total(Step(s, e)) == Total(s) + if e.Data? && s.registered then e.chunk else []
    ensures Readers(Step(s, e)) == Readers(s) + if e.Receive? && s.registered then multiset{e.id} else multiset{}
  {
    hide Readers, Take, GiveNothing, CutAt, Flush, GiveAll, WaiterIds, ReplyIds, Delivered;
    if s.registered {
      match e
      case Data(chunk) =>
        FlushKeeps(s.(inbox := s.inbox + chunk));
        SameReaders(s, s.(inbox := s.inbox + chunk));
      case End =>
        FlushKeeps(s.(closed := true));
        SameReaders(s, s.(closed := true));
      case Receive(id, maxBytes) =>
        TakeKeeps(s, id, maxBytes);
        NothingKeeps(s, id);
        SameSocket(s, id, maxBytes);
        WaiterJoins(s, Waiter(id, maxBytes));
      case TimeOut(i) =>
        if i < |s.waiters| {
          var rest := s.(waiters := s.waiters[..i] + s.waiters[i + 1..]);
          WaiterLeaves(s, i);
          NothingKeeps(rest, s.waiters[i].id);
          SameSocket(rest, s.waiters[i].id, 0);
        }
      case Close =>
        GiveAllKeeps(s.(closed := true));
        SameReaders(s, s.(closed := true));
        SameReaders(GiveAll(s.(closed := true)), Step(s, e));
    }
  }

  lemma SameReaders(s: Socket, r: Socket)
    requires r.replies == s.replies && r.waiters == s.waiters
    ensures Readers(r) == Readers(s)
  {
  }

  lemma WaiterJoins(s: Socket, w: Waiter)
    ensures Readers(s.(waiters := s.waiters + [w])) == Readers(s) + multiset{w.id}
  {
    WaiterAdded(s.waiters, w);
  }

  lemma WaiterLeaves(s: Socket, i: nat)
    requires i < |s.waiters|
    ensures Readers(s.(waiters := s.waiters[..i] + s.waiters[i + 1..])) + multiset{s.waiters[i].id} == Readers(s)
  {
    WaiterRemoved(s.waiters, i);
  }

  /** After any events: the bytes given to readers, in order, followed by the inbox, are the
      bytes that arrived; every reader has been answered once or is waiting; and readers wait
      only while the inbox is empty and the connection open. */
  lemma {:induction false} BytesAreConserved(events: seq<Event>)
    ensures var s := Run(events);
            && Delivered(s.replies) + s.inbox == Arrived(events)
            && ReplyIds(s.replies) + WaiterIds(s.waiters) == Asked(events)
            && WaitsForBytes(s)
    decreases |events|
  {
    if |events| > 0 {
      BytesAreConserved(events[..|events| - 1]);
      StepKeeps(Run(events[..|events| - 1]), events[|events| - 1]);
    }
  }

  // ---- Who gets what ----

  /** The reader gets the front of the inbox: all of it up to a limit that is not negative; a
      negative limit counts the bytes that are left. */
  predicate Answers(w: Waiter, r: Reply, inbox: Bytes, left: Bytes) {
    && r.id == w.id && r.bytes + left == inbox
    && (w.maxBytes >= 0 ==> |r.bytes| == if |inbox| <= w.maxBytes then |inbox| else w.maxBytes)
    && (w.maxBytes < 0 ==> |left| == if |inbox| <= -w.maxBytes then |inbox| else -w.maxBytes)
  }

  /** The readers are answered one after another, each from what the one before left. */
  predicate InOrder(waiters: seq<Waiter>, replies: seq<Reply>, inbox: Bytes, left: Bytes) {
    && |waiters| == |replies|
    && if |waiters| == 0 then left == inbox
       else
         && |replies[0].bytes| <= |inbox|
         && var next := inbox[|replies[0].bytes|..];
            Answers(waiters[0], replies[0], inbox, next) && InOrder(waiters[1..], replies[1..], next, left)
  }

  /** From the one to the other socket the first waiters are answered, in order. */
  predicate ServesFront(s: Socket, r: Socket) {
    && |r.waiters| <= |s.waiters| && s.replies <= r.replies
    && var n := |s.waiters| - |r.waiters|;
       && r.waiters == s.waiters[n..]
       && InOrder(s.waiters[..n], r.replies[|s.replies|..], s.inbox, r.inbox)
  }

  predicate AnsweredBy(s: Socket, w: Waiter, r: Socket) {
    && r.waiters == s.waiters && r.closed == s.closed && r.registered == s.registered
    && |r.replies| == |s.replies| + 1 && s.replies <= r.replies
    && var reply := r.replies[|s.replies|];
       && |reply.bytes| <= |s.inbox| && r.inbox == s.inbox[|reply.bytes|..] && Answers(w, reply, s.inbox, r.inbox)
  }

  lemma ResolveAnswers(s: Socket, w: Waiter)
    ensures AnsweredBy(s, w, Resolved(s, w))
  {
    hide Take, GiveNothing, AnsweredBy;
    TakeAnswers(s, w);
    if s.inbox == [] { NothingAnswers(s, w); }
  }

  lemma TakeAnswers(s: Socket, w: Waiter)
    ensures AnsweredBy(s, w, Take(s, w.id, w.maxBytes))
  {
    hide Answers, CutAt;
    var n := CutAt(|s.inbox|, w.maxBytes);
    CutAnswers(s.inbox, w.id, w.maxBytes);
    assert |s.inbox[..n]| == n;
    OneMore(s.replies, Reply(w.id, s.inbox[..n]));
  }

  lemma NothingAnswers(s: Socket, w: Waiter)
    requires s.inbox == []
    ensures AnsweredBy(s, w, GiveNothing(s, w.id))
  {
    OneMore(s.replies, Reply(w.id, []));
  }

  lemma OneMore(replies: seq<Reply>, r: Reply)
    ensures replies <= replies + [r] && (replies + [r])[|replies|] == r
  {
  }

  lemma CutAnswers(inbox: Bytes, id: nat, maxBytes: int)
    ensures var n := CutAt(|inbox|, maxBytes);
            Answers(Waiter(id, maxBytes), Reply(id, inbox[..n]), inbox, inbox[n..])
  {
    var n := CutAt(|inbox|, maxBytes);
    assert inbox[..n] + inbox[n..] == inbox;
  }

  lemma {:induction false} FlushAnswers(s: Socket)
    ensures var r := Flush(s); ServesFront(s, r) && (r.waiters != [] ==> r.inbox == [] && !s.closed)
    decreases |s.waiters|
  {
    hide Take, GiveNothing, Answers;
    if |s.waiters| == 0 || (|s.inbox| == 0 && !s.closed) {
      assert s.waiters[0..] == s.waiters && s.replies[|s.replies|..] == [];
    } else {
      var w, rest := s.waiters[0], s.(waiters := s.waiters[1..]);
      var next := Resolved(rest, w);
      ResolveAnswers(rest, w);
      FlushAnswers(next);
      FrontGrows(s, next, Flush(next));
    }
  }

  lemma FrontGrows(s: Socket, next: Socket, r: Socket)
    requires |s.waiters| > 0 && next.waiters == s.waiters[1..] && ServesFront(next, r)
    requires AnsweredBy(s.(waiters := s.waiters[1..]), s.waiters[0], next)
    ensures ServesFront(s, r)
  {
    hide Answers;
    var n := |s.waiters| - |r.waiters|;
    var replies := r.replies[|s.replies|..];
    assert r.waiters == s.waiters[n..];
    assert s.waiters[..n][1..] == next.waiters[..n - 1] && s.waiters[..n][0] == s.waiters[0];
    assert replies[1..] == r.replies[|next.replies|..] && replies[0] == next.replies[|s.replies|];
  }

  lemma {:induction false} GiveAllAnswers(s: Socket)
    ensures var r := GiveAll(s);
            && r.waiters == [] && s.replies <= r.replies && |r.replies| == |s.replies| + |s.waiters|
            && r.inbox == s.inbox
            && forall k | 0 <= k < |s.waiters| :: r.replies[|s.replies| + k] == Reply(s.waiters[k].id, [])
    decreases |s.waiters|
  {
    if |s.waiters| > 0 {
      var next := GiveNothing(s.(waiters := s.waiters[1..]), s.waiters[0].id);
      GiveAllAnswers(next);
      forall k | 0 <= k < |s.waiters|
        ensures GiveAll(s).replies[|s.replies| + k] == Reply(s.waiters[k].id, [])
      {
        if k > 0 { assert GiveAll(next).replies[|next.replies| + (k - 1)] == Reply(next.waiters[k - 1].id, []); }
      }
    }
  }

  /** What every event does, in terms of who is answered: arriving bytes and the end of the
      connection serve the first waiters, in order, until the bytes run out (at the end, all
      of them); a reader is served at once or waits behind the others; a waiter whose time is
      out is served out of turn; closing answers all that wait, in order, with nothing. */
  predicate Serves(s: Socket, e: Event, r: Socket) {
    match e
    case Data(chunk) =>
      ServesFront(s.(inbox := s.inbox + chunk), r) && (r.waiters != [] ==> r.inbox == [] && !s.closed)
    case End => ServesFront(s, r) && r.waiters == []
    case Receive(id, maxBytes) =>
      if s.inbox == [] && !s.closed then
        r.waiters == s.waiters + [Waiter(id, maxBytes)] && r.replies == s.replies && r.inbox == s.inbox
      else
        && r.waiters == s.waiters && |r.replies| == |s.replies| + 1 && s.replies <= r.replies
        && Answers(Waiter(id, maxBytes), r.replies[|s.replies|], s.inbox, r.inbox)
    case TimeOut(i) =>
      if i >= |s.waiters| then r == s
      else
        && r.waiters == s.waiters[..i] + s.waiters[i + 1..] && |r.replies| == |s.replies| + 1
        && s.replies <= r.replies && Answers(s.waiters[i], r.replies[|s.replies|], s.inbox, r.inbox)
    case Close =>
      && r.waiters == [] && !r.registered && s.replies <= r.replies && |r.replies| == |s.replies| + |s.waiters|
      && forall k | 0 <= k < |s.waiters| :: r.replies[|s.replies| + k] == Reply(s.waiters[k].id, [])
  }

  lemma ReadersAreServed(s: Socket, e: Event)
    requires s.registered
    ensures Serves(s, e, Step(s, e)) && (Step(s, e).registered <==> !e.Close?)
  {
    hide Flush, Take, GiveNothing, GiveAll, Answers, ServesFront, Serves, Step;
    match e
    case Data(chunk) => DataServes(s, chunk);
    case End => EndServes(s);
    case Receive(id, maxBytes) => ReceiveServes(s, id, maxBytes);
    case TimeOut(i) => TimeOutServes(s, i);
    case Close => CloseServes(s);
  }

  lemma DataServes(s: Socket, chunk: Bytes)
    requires s.registered
    ensures Serves(s, Data(chunk), Step(s, Data(chunk))) && Step(s, Data(chunk)).registered
  {
    hide Flush, ServesFront;
    FlushAnswers(s.(inbox := s.inbox + chunk));
    FlushKeeps(s.(inbox := s.inbox + chunk));
  }

  lemma EndServes(s: Socket)
    requires s.registered
    ensures Serves(s, End, Step(s, End)) && Step(s, End).registered
  {
    hide Flush, ServesFront;
    FlushAnswers(s.(closed := true));
    FlushKeeps(s.(closed := true));
    OnlyClosed(s, Step(s, End));
  }

  lemma ReceiveServes(s: Socket, id: nat, maxBytes: int)
    requires s.registered
    ensures Serves(s, Receive(id, maxBytes), Step(s, Receive(id, maxBytes)))
    ensures Step(s, Receive(id, maxBytes)).registered
  {
    hide Take, GiveNothing, Answers;
    ResolveAnswers(s, Waiter(id, maxBytes));
  }

  lemma TimeOutServes(s: Socket, i: nat)
    requires s.registered
    ensures Serves(s, TimeOut(i), Step(s, TimeOut(i))) && Step(s, TimeOut(i)).registered
  {
    hide Take, GiveNothing, Answers;
    if i < |s.waiters| {
      var rest := s.(waiters := s.waiters[..i] + s.waiters[i + 1..]);
      ResolveAnswers(rest, s.waiters[i]);
      assert Step(s, TimeOut(i)) == Resolved(rest, s.waiters[i]);
    }
  }

  lemma CloseServes(s: Socket)
    requires s.registered
    ensures Serves(s, Close, Step(s, Close)) && !Step(s, Close).registered
  {
    hide GiveAll;
    GiveAllAnswers(s.(closed := true));
  }

  lemma OnlyClosed(s: Socket, r: Socket)
    ensures ServesFront(s.(closed := true), r) <==> ServesFront(s, r)
  {
  }

  // ---- In place ----

  /** The record the event handlers share. */
  class Connection {
    var registered: bool
    var inbox: Bytes
    var closed: bool
    var waiters: seq<Waiter>
    var replies: seq<Reply>

    ghost function View(): Socket
      reads this
    {
      Socket(registered, inbox, closed, waiters, replies)
    }

    constructor ()
      ensures View() == FRESH
    {
      registered, inbox, closed, waiters, replies := true, [], false, [], [];
    }

    method Resolve(id: nat, maxBytes: int)
      modifies this`inbox, this`replies
      ensures View() == Resolved(old(View()), Waiter(id, maxBytes))
    {
      if |inbox| > 0 {
        var n := CutAt(|inbox|, maxBytes);
        replies := replies + [Reply(id, inbox[..n])];
        inbox := inbox[n..];
      } else {
        replies := replies + [Reply(id, [])];
      }
    }

    method FlushWaiters()
      modifies this`inbox, this`replies, this`waiters
      ensures View() == Flush(old(View()))
    {
      while |waiters| > 0 && (|inbox| > 0 || closed)
        invariant Flush(View()) == Flush(old(View()))
        decreases |waiters|
      {
        var waiter := waiters[0];
        waiters := waiters[1..];
        Resolve(waiter.id, waiter.maxBytes);
      }
    }

    method OnData(chunk: Bytes)
      modifies this
      ensures View() == Step(old(View()), Data(chunk))
    {
      if registered {
        inbox := inbox + chunk;
        FlushWaiters();
      }
    }

    method OnEnd()
      modifies this
      ensures View() == Step(old(View()), End)
    {
      if registered {
        closed := true;
        FlushWaiters();
      }
    }

    method OnReceive(id: nat, maxBytes: int)
      modifies this
      ensures View() == Step(old(View()), Receive(id, maxBytes))
    {
      if registered {
        if |inbox| > 0 || closed { Resolve(id, maxBytes); }
        else { waiters := waiters + [Waiter(id, maxBytes)]; }
      }
    }

    method OnTimeOut(index: nat)
      modifies this
      ensures View() == Step(old(View()), TimeOut(index))
    {
      if registered && index < |waiters| {
        var waiter := waiters[index];
        waiters := waiters[..index] + waiters[index + 1..];
        Resolve(waiter.id, waiter.maxBytes);
      }
    }

    method OnClose()
      modifies this
      ensures View() == Step(old(View()), Close)
    {
      if registered {
        closed := true;
        while |waiters| > 0
          invariant GiveAll(View()) == GiveAll(old(View()).(closed := true)) && registered
          decreases |waiters|
        {
          var waiter := waiters[0];
          waiters := waiters[1..];
          replies := replies + [Reply(waiter.id, [])];
        }
        registered := false;
      }
    }
  }
}
