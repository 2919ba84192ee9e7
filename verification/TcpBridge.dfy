/** The TCP bridge: one request at a time through a shared buffer, handed over by a status
    word that goes idle, request, done, idle.  One step is one Atomics operation or one
    access to the buffer between two of them; no wait times out. */
module TcpBridge {
  datatype Status = Idle | Request | Done

  const CAPACITY: nat := 65536

  datatype Call = Call(op: int, arg0: int, arg1: int, payload: seq<bv8>)

  /** What serving a request gives: a result and, for some requests, bytes. */
  datatype Answer = Answer(result: int, bytes: Option)

  datatype Option = None | Some(data: seq<bv8>)

  datatype Reply = Reply(result: int, payload: seq<bv8>)

  datatype Exchange = Exchange(call: Call, reply: Reply)

  /** The shared words and bytes. */
  datatype Shared = Shared(status: Status, op: int, arg0: int, arg1: int, result: int, len: nat, bytes: seq<bv8>)

  datatype MainPc =
    | Ready
    | FillBytes(call: Call)
    | FillWords(call: Call)
    | StoreRequest(call: Call)
    | NotifyRequest(call: Call)
    | Check(call: Call)                // while (load === request)
    | BeforeWait(call: Call)
    | Asleep(call: Call)
    | ReadReply(call: Call)
    | StoreIdle(call: Call, reply: Reply)
    | NotifyIdle(call: Call, reply: Reply)

  datatype WorkerPc =
    | LoadStatus                       // while (load !== request)
    | LoadAgain                        //   wait(status, load)
    | BeforeSleep(seen: Status)
    | Sleeping(seen: Status)
    | ReadRequest
    | Serve(call: Call)
    | WriteReply(call: Call, answer: Answer)
    | StoreDone
    | NotifyDone
    | LoadAck                          // while (load === done)
    | BeforeAckSleep
    | AckSleeping

  datatype Bridge = Bridge(
    shared: Shared, main: MainPc, worker: WorkerPc,
    served: seq<Exchange>,             // by the worker, in order
    returned: seq<Exchange>)           // by call, in order

  datatype Event =
    | Start(call: Call)
    | MainStep
    | WorkerStep(answer: Answer)       // the answer matters only when a request is served

  function Initial(): Bridge {
    Bridge(Shared(Idle, 0, 0, 0, 0, 0, seq(CAPACITY, _ => 0)), Ready, LoadStatus, [], [])
  }

  function Cap(data: seq<bv8>): seq<bv8> { if |data| <= CAPACITY then data else data[..CAPACITY] }

  /** A notify wakes the other side if it sleeps.  While both sides sleep nobody notifies. */
  function NotifyWorker(w: WorkerPc): WorkerPc {
    match w
    case Sleeping(_) => LoadStatus
    case AckSleeping => LoadAck
    case _ => w
  }

  function NotifyMain(m: MainPc): MainPc { if m.Asleep? then Check(m.call) else m }

  function Overlay(data: seq<bv8>, bytes: seq<bv8>): (r: seq<bv8>)
    requires |data| <= |bytes|
    ensures |r| == |bytes| && r[..|data|] == data
  {
    data + bytes[|data|..]
  }

  function StepMain(b: Bridge): Bridge
    requires |b.shared.bytes| == CAPACITY
  {
    match b.main
    case Ready => b
    case FillBytes(c) => b.(shared := b.shared.(bytes := Overlay(Cap(c.payload), b.shared.bytes)), main := FillWords(c))
    case FillWords(c) =>
      b.(shared := b.shared.(op := c.op, arg0 := c.arg0, arg1 := c.arg1, result := -1, len := |Cap(c.payload)|),
         main := StoreRequest(c))
    case StoreRequest(c) => b.(shared := b.shared.(status := Request), main := NotifyRequest(c))
    case NotifyRequest(c) => b.(worker := NotifyWorker(b.worker), main := Check(c))
    case Check(c) => b.(main := if b.shared.status == Request then BeforeWait(c) else ReadReply(c))
    case BeforeWait(c) => b.(main := if b.shared.status == Request then Asleep(c) else Check(c))
    case Asleep(_) => b
    case ReadReply(c) =>
      var payload := if b.shared.len <= CAPACITY then b.shared.bytes[..b.shared.len] else b.shared.bytes;
      b.(main := StoreIdle(c, Reply(b.shared.result, payload)))
    case StoreIdle(c, r) => b.(shared := b.shared.(status := Idle), main := NotifyIdle(c, r))
    case NotifyIdle(c, r) =>
      b.(worker := NotifyWorker(b.worker), main := Ready, returned := b.returned + [Exchange(c, r)])
  }

  /** What the caller gets back: bytes only if the request produced some, else its own. */
  function ReplyOf(call: Call, answer: Answer): Reply {
    Reply(answer.result, match answer.bytes case Some(data) => Cap(data) case None => Cap(call.payload))
  }

  function StepWorker(b: Bridge, answer: Answer): Bridge
    requires |b.shared.bytes| == CAPACITY
  {
    match b.worker
    case LoadStatus => b.(worker := if b.shared.status == Request then ReadRequest else LoadAgain)
    case LoadAgain => b.(worker := BeforeSleep(b.shared.status))
    case BeforeSleep(seen) => b.(worker := if b.shared.status == seen then Sleeping(seen) else LoadStatus)
    case Sleeping(_) => b
    case ReadRequest =>
      var payload := if b.shared.len <= CAPACITY then b.shared.bytes[..b.shared.len] else b.shared.bytes;
      b.(worker := Serve(Call(b.shared.op, b.shared.arg0, b.shared.arg1, payload)))
    case Serve(c) =>
      b.(worker := WriteReply(c, answer), served := b.served + [Exchange(c, ReplyOf(c, answer))])
    case WriteReply(_, a) =>
      var s := match a.bytes
               case Some(data) => b.shared.(bytes := Overlay(Cap(data), b.shared.bytes), len := |Cap(data)|)
               case None => b.shared;
      b.(shared := s.(result := a.result), worker := StoreDone)
    case StoreDone => b.(shared := b.shared.(status := Done), worker := NotifyDone)
    case NotifyDone => b.(main := NotifyMain(b.main), worker := LoadAck)
    case LoadAck => b.(worker := if b.shared.status == Done then BeforeAckSleep else LoadStatus)
    case BeforeAckSleep => b.(worker := if b.shared.status == Done then AckSleeping else LoadAck)
    case AckSleeping => b
  }

  function Step(b: Bridge, e: Event): Bridge
    requires |b.shared.bytes| == CAPACITY
  {
    match e
    case Start(call) => if b.main.Ready? then b.(main := FillBytes(call)) else b
    case MainStep => StepMain(b)
    case WorkerStep(answer) => StepWorker(b, answer)
  }

  // ---- The invariant ----

  /** Main touches the buffer only here. */
  predicate MainOwns(m: MainPc) { m.FillBytes? || m.FillWords? || m.StoreRequest? || m.ReadReply? || m.StoreIdle? }

  predicate WorkerOwns(w: WorkerPc) { w.ReadRequest? || w.Serve? || w.WriteReply? || w.StoreDone? }

  /** Main has handed a request over and waits for it. */
  predicate Waiting(m: MainPc) { m.NotifyRequest? || m.Check? || m.BeforeWait? || m.Asleep? }

  /** The call as the worker sees it: its payload cut to the buffer. */
  function Sent(c: Call): Call { c.(payload := Cap(c.payload)) }

  predicate InBuffer(s: Shared, c: Call)
    requires |s.bytes| == CAPACITY
  {
    && s.op == c.op && s.arg0 == c.arg0 && s.arg1 == c.arg1
    && s.len == |Cap(c.payload)| && s.bytes[..s.len] == Cap(c.payload)
  }

  predicate ReplyInBuffer(s: Shared, r: Reply)
    requires |s.bytes| == CAPACITY
  {
    s.result == r.result && s.len <= CAPACITY && s.bytes[..s.len] == r.payload
  }

  /** The last exchange served is the one main waits for. */
  predicate Answered(b: Bridge, c: Call) {
    && |b.served| == |b.returned| + 1
    && b.served[|b.served| - 1].call == Sent(c)
  }

  /** Between requests; a late notify of the previous one may still be to come. */
  predicate WorkerIdle(w: WorkerPc) { !WorkerOwns(w) }

  /** The worker means to sleep, or sleeps, as long as the status is `request`. */
  predicate SawRequest(w: WorkerPc) { w == BeforeSleep(Request) || w == Sleeping(Request) }

  predicate Matches(served: seq<Exchange>, returned: seq<Exchange>) {
    && |returned| <= |served| <= |returned| + 1
    && forall k | 0 <= k < |returned| ::
         served[k].call == Sent(returned[k].call) && served[k].reply == returned[k].reply
  }

  /** The reply is in the buffer, or main has taken it out. */
  predicate ReplyReady(b: Bridge)
    requires |b.shared.bytes| == CAPACITY
  {
    if b.main.StoreIdle? then Answered(b, b.main.call) && b.served[|b.served| - 1].reply == b.main.reply
    else
      && (b.main.ReadReply? || Waiting(b.main))
      && Answered(b, b.main.call) && ReplyInBuffer(b.shared, b.served[|b.served| - 1].reply)
      && (b.main.Asleep? ==> b.worker.NotifyDone?)
  }

  predicate Inv(b: Bridge) {
    && |b.shared.bytes| == CAPACITY && Matches(b.served, b.returned)
    && (match b.shared.status
        case Idle =>
          && WorkerIdle(b.worker) && (b.worker.AckSleeping? ==> b.main.NotifyIdle?) && !SawRequest(b.worker)
          && (match b.main
              case Ready => |b.served| == |b.returned|
              case FillBytes(_) => |b.served| == |b.returned|
              case FillWords(c) => |b.served| == |b.returned| && b.shared.bytes[..|Cap(c.payload)|] == Cap(c.payload)
              case StoreRequest(c) => |b.served| == |b.returned| && InBuffer(b.shared, c)
              case NotifyIdle(c, r) => Answered(b, c) && b.served[|b.served| - 1].reply == r
              case _ => false)
        case Request =>
          && Waiting(b.main)
          && (match b.worker
              case ReadRequest => |b.served| == |b.returned| && InBuffer(b.shared, b.main.call)
              case Serve(c) => |b.served| == |b.returned| && InBuffer(b.shared, b.main.call) && c == Sent(b.main.call)
              case WriteReply(c, a) =>
                && Answered(b, b.main.call) && InBuffer(b.shared, b.main.call)
                && b.served[|b.served| - 1].reply == ReplyOf(c, a)
                && c == Sent(b.main.call)
              case StoreDone => Answered(b, b.main.call) && ReplyInBuffer(b.shared, b.served[|b.served| - 1].reply)
              case _ =>
                && WorkerIdle(b.worker) && |b.served| == |b.returned| && InBuffer(b.shared, b.main.call)
                && (b.worker.Sleeping? ==> b.worker.seen == Request || b.main.NotifyRequest?)
                && !b.worker.AckSleeping?)
        case Done =>
          && (b.worker.NotifyDone? || b.worker.LoadAck? || b.worker.BeforeAckSleep? || b.worker.AckSleeping?)
          && ReplyReady(b))
  }

  lemma MainKeeps(b: Bridge)
    requires Inv(b)
    ensures Inv(StepMain(b))
  {
  }

  lemma WorkerKeeps(b: Bridge, answer: Answer)
    requires Inv(b)
    ensures Inv(StepWorker(b, answer))
  {
    match b.worker
    case WriteReply(c, a) =>
      var r := StepWorker(b, answer);
      assert ReplyInBuffer(r.shared, ReplyOf(c, a));
    case _ =>
  }

  /** The bridge after a sequence of events. */
  function Run(events: seq<Event>): (b: Bridge)
    ensures |b.shared.bytes| == CAPACITY
    decreases |events|
  {
    if |events| == 0 then Initial() else Step(Run(events[..|events| - 1]), events[|events| - 1])
  }

  /** Every interleaving keeps the invariant. */
  lemma {:induction false} RunKeeps(events: seq<Event>)
    ensures Inv(Run(events))
    decreases |events|
  {
    if |events| > 0 {
      var q, e := Run(events[..|events| - 1]), events[|events| - 1];
      RunKeeps(events[..|events| - 1]);
      MainKeeps(q);
      if e.WorkerStep? { WorkerKeeps(q, e.answer); }
    }
  }

  // ---- Every reachable state ----

  /** The calls main took up, by the events alone. */
  function Issued(events: seq<Event>): seq<Call> {
    if |events| == 0 then []
    else
      var before, e := events[..|events| - 1], events[|events| - 1];
      Issued(before) + if e.Start? && Run(before).main.Ready? then [e.call] else []
  }

  /** The answers the worker was given at the steps that serve a request. */
  function Given(events: seq<Event>): seq<Answer> {
    if |events| == 0 then []
    else
      var before, e := events[..|events| - 1], events[|events| - 1];
      Given(before) + if e.WorkerStep? && Run(before).worker.Serve? then [e.answer] else []
  }

  /** `data` is `whole`, cut to the size of the buffer. */
  predicate IsCut(data: seq<bv8>, whole: seq<bv8>) {
    |data| == (if |whole| <= 65536 then |whole| else 65536) && data == whole[..|data|]
  }

  /** The reply carries the result of the answer and its bytes; without bytes, the caller's own. */
  predicate Carries(reply: Reply, answer: Answer, own: seq<bv8>) {
    && reply.result == answer.result
    && match answer.bytes
       case Some(data) => IsCut(reply.payload, data)
       case None => IsCut(reply.payload, own)
  }

  lemma StepServes(b: Bridge, e: Event)
    requires |b.shared.bytes| == CAPACITY
    ensures Step(b, e).served == b.served +
            if e.WorkerStep? && b.worker.Serve? then [Exchange(b.worker.call, ReplyOf(b.worker.call, e.answer))] else []
  {
    hide Overlay, Cap, ReplyOf;
  }

  lemma StepReturns(b: Bridge, e: Event)
    requires |b.shared.bytes| == CAPACITY
    ensures var m, r := b.main, Step(b, e);
            && r.returned == b.returned + (if e.MainStep? && m.NotifyIdle? then [Exchange(m.call, m.reply)] else [])
            && (m.Ready? ==> r.main == if e.Start? then FillBytes(e.call) else Ready)
            && (!m.Ready? ==> if e.MainStep? && m.NotifyIdle? then r.main.Ready?
                              else !r.main.Ready? && r.main.call == m.call)
  {
    hide Overlay, Cap, ReplyOf;
  }

  lemma ReplyCarries(c: Call, answer: Answer)
    ensures Carries(ReplyOf(c, answer), answer, c.payload)
  {
  }

  lemma {:induction false} GivenIsServed(events: seq<Event>)
    ensures var b, given := Run(events), Given(events);
            && |given| == |b.served|
            && forall k | 0 <= k < |given| :: Carries(b.served[k].reply, given[k], b.served[k].call.payload)
    decreases |events|
  {
    hide Step, Inv, Carries, ReplyOf;
    if |events| > 0 {
      var q, e := Run(events[..|events| - 1]), events[|events| - 1];
      GivenIsServed(events[..|events| - 1]);
      StepServes(q, e);
      if e.WorkerStep? && q.worker.Serve? { ReplyCarries(q.worker.call, e.answer); }
    }
  }

  lemma {:induction false} IssuedIsReturned(events: seq<Event>)
    ensures var b, issued := Run(events), Issued(events);
            && |issued| == |b.returned| + (if b.main.Ready? then 0 else 1)
            && (forall k | 0 <= k < |b.returned| :: b.returned[k].call == issued[k])
            && (!b.main.Ready? ==> b.main.call == issued[|b.returned|])
    decreases |events|
  {
    hide Step, Inv;
    if |events| > 0 {
      IssuedIsReturned(events[..|events| - 1]);
      StepReturns(Run(events[..|events| - 1]), events[|events| - 1]);
    }
  }

  /** The k-th call main took up returns what the worker was given for the k-th request it
      served, and that request was this very call; at most one request is ahead of the calls
      that have returned. */
  lemma CallsArePaired(events: seq<Event>)
    ensures var b, issued, given := Run(events), Issued(events), Given(events);
            && |b.returned| <= |issued| <= |b.returned| + 1
            && |b.returned| <= |given| == |b.served| <= |b.returned| + 1
            && forall k | 0 <= k < |b.returned| ::
                 && b.returned[k].call == issued[k] && Carries(b.returned[k].reply, given[k], issued[k].payload)
                 && var seen := b.served[k].call;
                    && seen.op == issued[k].op && seen.arg0 == issued[k].arg0 && seen.arg1 == issued[k].arg1
                    && IsCut(seen.payload, issued[k].payload)
  {
    hide Step, Given, Issued;
    RunKeeps(events);
    GivenIsServed(events);
    IssuedIsReturned(events);
    var b, issued, given := Run(events), Issued(events), Given(events);
    forall k | 0 <= k < |b.returned|
      ensures Carries(b.returned[k].reply, given[k], issued[k].payload)
      ensures IsCut(b.served[k].call.payload, issued[k].payload)
    {
      assert Carries(b.served[k].reply, given[k], b.served[k].call.payload);
      CutTwice(b.served[k].reply.payload, issued[k].payload);
    }
  }

  lemma CutTwice(data: seq<bv8>, whole: seq<bv8>)
    ensures IsCut(Cap(whole), whole)
    ensures IsCut(data, Cap(whole)) ==> IsCut(data, whole)
  {
  }

  // ---- A call goes through ----

  /** Where the two sides are. */
  predicate At(b: Bridge, m: MainPc, worker: nat, status: Status) {
    b.main == m && b.shared.status == status &&
    worker == match b.worker
              case LoadStatus => 0
              case ReadRequest => 1
              case Serve(_) => 2
              case WriteReply(_, _) => 3
              case StoreDone => 4
              case NotifyDone => 5
              case LoadAck => 6
              case _ => 7
  }

  lemma Next(events: seq<Event>, e: Event)
    ensures Run(events + [e]) == Step(Run(events), e)
    ensures !(e.WorkerStep? && Run(events).worker.Serve?) ==> Given(events + [e]) == Given(events)
    ensures e.WorkerStep? && Run(events).worker.Serve? ==> Given(events + [e]) == Given(events) + [e.answer]
  {
    hide Step;
    assert (events + [e])[..|events|] == events;
  }

  /** Main fills the buffer and hands the request over. */
  lemma Sends(events: seq<Event>, call: Call) returns (es: seq<Event>)
    requires At(Run(events), Ready, 0, Idle)
    ensures At(Run(es), Check(call), 0, Request) && Run(es).returned == Run(events).returned && events <= es
    ensures Given(es) == Given(events)
  {
    hide Run, Given, Overlay;
    es := events + [Start(call)];
    Next(events, Start(call));
    var i := 0;
    var pcs := [FillBytes(call), FillWords(call), StoreRequest(call), NotifyRequest(call), Check(call)];
    while i < 4
      invariant 0 <= i <= 4 && At(Run(es), pcs[i], 0, if i < 3 then Idle else Request)
      invariant Run(es).returned == Run(events).returned && Given(es) == Given(events) && events <= es
    {
      Next(es, MainStep);
      es := es + [MainStep];
      i := i + 1;
    }
  }

  /** The worker takes it out, serves it and hands the reply over. */
  lemma Serves(events: seq<Event>, call: Call, answer: Answer) returns (es: seq<Event>)
    requires At(Run(events), Check(call), 0, Request)
    ensures At(Run(es), Check(call), 6, Done) && Run(es).returned == Run(events).returned && events <= es
    ensures Given(es) == Given(events) + [answer]
  {
    hide Run, Given, Overlay, ReplyOf;
    es := events;
    var i := 0;
    while i < 6
      invariant 0 <= i <= 6 && At(Run(es), Check(call), i, if i < 5 then Request else Done)
      invariant Run(es).returned == Run(events).returned && events <= es
      invariant Given(es) == if i < 3 then Given(events) else Given(events) + [answer]
    {
      Next(es, WorkerStep(answer));
      es := es + [WorkerStep(answer)];
      i := i + 1;
    }
  }

  /** Main takes the reply. */
  lemma Takes(events: seq<Event>, call: Call) returns (es: seq<Event>)
    requires At(Run(events), Check(call), 6, Done)
    ensures |Run(es).returned| == |Run(events).returned| + 1 && Given(es) == Given(events) && events <= es
    ensures Run(es).returned[|Run(events).returned|].call == call
  {
    hide Run, Given;
    es := events + [MainStep];
    Next(events, MainStep);
    Next(es, MainStep);
    es := es + [MainStep];
    Next(es, MainStep);
    es := es + [MainStep];
    Next(es, MainStep);
    es := es + [MainStep];
  }

  /** Whenever main is ready for a call and the worker is about to look for one, any call can
      go through and return any answer. */
  lemma CallCompletes(events: seq<Event>, call: Call, answer: Answer)
    requires Run(events).main.Ready? && Run(events).worker.LoadStatus?
    ensures exists more ::
              var before, after := Run(events).returned, Run(events + more).returned;
              && |after| == |before| + 1 && after[|before|].call == call
              && Carries(after[|before|].reply, answer, call.payload)
  {
    hide Step, Given, Issued, Carries;
    RunKeeps(events);
    var e1 := Sends(events, call);
    var e2 := Serves(e1, call, answer);
    var es := Takes(e2, call);
    var more := es[|events|..];
    assert events + more == es;
    GivenIsServed(events);
    CallsArePaired(es);
    IssuedIsReturned(es);
    assert Given(es)[|Run(events).returned|] == answer;
  }

  /** The two sides never own the buffer at the same time. */
  lemma BufferHasOneOwner(events: seq<Event>)
    ensures var b := Run(events); !(MainOwns(b.main) && WorkerOwns(b.worker))
  {
    RunKeeps(events);
  }

  /** The side that calls loses no wake-up: asleep while the reply is there, it is about to
      be notified. */
  lemma CallerIsWoken(events: seq<Event>)
    ensures var b := Run(events); b.main.Asleep? && b.shared.status == Done ==> b.worker.NotifyDone?
  {
    RunKeeps(events);
  }

  /** The side that serves can lose one: its loop loads the status twice, once to test it and
      once as the value to sleep on.  A request that comes in between is slept through, and
      without a time-out both sides sleep for good. */
  const NOTHING := Answer(0, None)

  ghost predicate Stalled(b: Bridge) {
    b.shared.status == Request && b.main.Asleep? && b.worker.Sleeping?
  }

  lemma Then(events: seq<Event>, e: Event, b: Bridge)
    requires Run(events) == b
    ensures Run(events + [e]) == Step(b, e)
  {
    assert (events + [e])[..|events|] == events;
  }

  /** A port query that is prepared while the worker is between its two loads, and handed
      over before it sleeps. */
  function Halfway(main: MainPc, worker: WorkerPc, status: Status): Bridge {
    var s := if main.FillBytes? || main.FillWords? then Initial().shared else Initial().shared.(op := 7, result := -1);
    Initial().(main := main, worker := worker, shared := s.(status := status))
  }

  const QUERY := Call(7, 0, 0, [])

  lemma StallSteps()
    ensures Step(Initial(), WorkerStep(NOTHING)) == Initial().(worker := LoadAgain)
    ensures Step(Initial().(worker := LoadAgain), Start(QUERY)) == Halfway(FillBytes(QUERY), LoadAgain, Idle)
    ensures Step(Halfway(FillBytes(QUERY), LoadAgain, Idle), MainStep) == Halfway(FillWords(QUERY), LoadAgain, Idle)
    ensures Step(Halfway(FillWords(QUERY), LoadAgain, Idle), MainStep) == Halfway(StoreRequest(QUERY), LoadAgain, Idle)
    ensures Step(Halfway(StoreRequest(QUERY), LoadAgain, Idle), MainStep)
         == Halfway(NotifyRequest(QUERY), LoadAgain, Request)
    ensures Step(Halfway(NotifyRequest(QUERY), LoadAgain, Request), WorkerStep(NOTHING))
         == Halfway(NotifyRequest(QUERY), BeforeSleep(Request), Request)
    ensures Step(Halfway(NotifyRequest(QUERY), BeforeSleep(Request), Request), MainStep)
         == Halfway(Check(QUERY), BeforeSleep(Request), Request)
    ensures Step(Halfway(Check(QUERY), BeforeSleep(Request), Request), WorkerStep(NOTHING))
         == Halfway(Check(QUERY), Sleeping(Request), Request)
    ensures Step(Halfway(Check(QUERY), Sleeping(Request), Request), MainStep)
         == Halfway(BeforeWait(QUERY), Sleeping(Request), Request)
    ensures Step(Halfway(BeforeWait(QUERY), Sleeping(Request), Request), MainStep)
         == Halfway(Asleep(QUERY), Sleeping(Request), Request)
  {
    assert Overlay([], Initial().shared.bytes) == Initial().shared.bytes;
  }

  lemma StallIsReachable()
    ensures exists events :: Stalled(Run(events))
  {
    hide Step, Run, Inv, Halfway;
    var w, m := WorkerStep(NOTHING), MainStep;
    StallSteps();
    assert Run([]) == Initial() by { Starts(); }
    Then([], w, Initial());
    var e1 := [] + [w];
    Then(e1, Start(QUERY), Initial().(worker := LoadAgain));
    var e2 := e1 + [Start(QUERY)];
    Then(e2, m, Halfway(FillBytes(QUERY), LoadAgain, Idle));
    Then(e2 + [m], m, Halfway(FillWords(QUERY), LoadAgain, Idle));
    Then(e2 + [m] + [m], m, Halfway(StoreRequest(QUERY), LoadAgain, Idle));
    var e5 := e2 + [m] + [m] + [m];
    Then(e5, w, Halfway(NotifyRequest(QUERY), LoadAgain, Request));
    Then(e5 + [w], m, Halfway(NotifyRequest(QUERY), BeforeSleep(Request), Request));
    Then(e5 + [w] + [m], w, Halfway(Check(QUERY), BeforeSleep(Request), Request));
    var e8 := e5 + [w] + [m] + [w];
    Then(e8, m, Halfway(Check(QUERY), Sleeping(Request), Request));
    Then(e8 + [m], m, Halfway(BeforeWait(QUERY), Sleeping(Request), Request));
    HalfwayStalls();
    assert Stalled(Run(e8 + [m] + [m]));
  }

  lemma Starts()
    ensures Run([]) == Initial()
  {
  }

  lemma HalfwayStalls()
    ensures Stalled(Halfway(Asleep(QUERY), Sleeping(Request), Request))
  {
  }

  /** Stalled, no step of either side changes anything. */
  lemma StallStays(b: Bridge, e: Event)
    requires Inv(b) && Stalled(b)
    ensures Step(b, e) == b
  {
  }

  // ---- Exactly when the bridge stalls ----

  /** The worker loads the status for the second time, and it is `request` by now. */
  predicate SecondLoad(b: Bridge, e: Event) { e.WorkerStep? && b.worker.LoadAgain? && b.shared.status == Request }

  /** The bridge after more events. */
  function After(b: Bridge, events: seq<Event>): (r: Bridge)
    requires |b.shared.bytes| == CAPACITY
    ensures |r.shared.bytes| == CAPACITY
    decreases |events|
  {
    if |events| == 0 then b else Step(After(b, events[..|events| - 1]), events[|events| - 1])
  }

  ghost predicate NoSecondLoad(b: Bridge, events: seq<Event>)
    requires |b.shared.bytes| == CAPACITY
  {
    forall k | 0 <= k < |events| :: !SecondLoad(After(b, events[..k]), events[k])
  }

  lemma {:induction false} RunAfter(events: seq<Event>, more: seq<Event>)
    ensures Run(events + more) == After(Run(events), more)
    decreases |more|
  {
    if |more| == 0 {
      assert events + more == events;
    } else {
      var n := |more| - 1;
      RunAfter(events, more[..n]);
      Then(events + more[..n], more[n], After(Run(events), more[..n]));
      assert (events + more[..n]) + [more[n]] == events + more;
    }
  }

  /** The worker is going to sleep through the request: it has seen `request` on its second
      load, and the notify of the request comes, or came, before it sleeps. */
  predicate WillStall(b: Bridge) {
    b.worker == BeforeSleep(Request) || (b.worker == Sleeping(Request) && !b.main.NotifyRequest?)
  }

  lemma OnlyTheSecondLoad(b: Bridge, e: Event)
    requires Inv(b) && !WillStall(b) && !SecondLoad(b, e)
    ensures !WillStall(Step(b, e))
  {
  }

  lemma {:induction false} AfterKeeps(b: Bridge, events: seq<Event>)
    requires |b.shared.bytes| == CAPACITY && Inv(b)
    ensures Inv(After(b, events))
    ensures !WillStall(b) && NoSecondLoad(b, events) ==> !WillStall(After(b, events))
    decreases |events|
  {
    hide Inv, WillStall, Step;
    if |events| > 0 {
      var n := |events| - 1;
      var q, e := After(b, events[..n]), events[n];
      AfterKeeps(b, events[..n]);
      StepKeeps(q, e);
      if !WillStall(b) && NoSecondLoad(b, events) {
        assert forall k | 0 <= k < n :: events[..n][..k] == events[..k];
        assert !SecondLoad(After(b, events[..n]), events[n]);
        OnlyTheSecondLoad(q, e);
      }
    }
  }

  lemma StepKeeps(b: Bridge, e: Event)
    requires Inv(b)
    ensures Inv(Step(b, e))
  {
    MainKeeps(b);
    if e.WorkerStep? { WorkerKeeps(b, e.answer); }
  }

  lemma Onward(b: Bridge, events: seq<Event>, e: Event)
    requires |b.shared.bytes| == CAPACITY
    ensures After(b, events + [e]) == Step(After(b, events), e)
    ensures NoSecondLoad(b, events) && !SecondLoad(After(b, events), e) ==> NoSecondLoad(b, events + [e])
  {
    hide Step, SecondLoad;
    var es := events + [e];
    assert es[..|events|] == events;
    assert forall k | 0 <= k < |events| :: es[..k] == events[..k];
  }

  /** How far main is on its way to sleep. */
  function Progress(m: MainPc): nat {
    match m case NotifyRequest(_) => 0 case Check(_) => 1 case BeforeWait(_) => 2 case _ => 3
  }

  lemma MainGoesOn(b: Bridge)
    requires Inv(b) && WillStall(b)
    ensures var r := Step(b, MainStep);
            && Inv(r) && WillStall(r) && Progress(r.main) == (if Progress(b.main) < 3 then Progress(b.main) + 1 else 3)
            && !SecondLoad(b, MainStep)
  {
  }

  lemma WorkerGoesOn(b: Bridge)
    requires Inv(b) && WillStall(b) && Progress(b.main) == 3
    ensures Stalled(Step(b, WorkerStep(NOTHING))) && !SecondLoad(b, WorkerStep(NOTHING))
  {
  }

  /** Main goes to sleep, and then the worker does. */
  function Stalling(): seq<Event> { [] + [MainStep] + [MainStep] + [MainStep] + [WorkerStep(NOTHING)] }

  /** A worker that will stall can: three steps of main and one of the worker do it. */
  lemma StallingStalls(b: Bridge)
    requires |b.shared.bytes| == CAPACITY && Inv(b) && WillStall(b)
    ensures Stalled(After(b, Stalling())) && NoSecondLoad(b, Stalling())
  {
    hide Inv, WillStall, Stalled, Step, SecondLoad, Progress;
    assert After(b, []) == b && NoSecondLoad(b, []);
    hide After, NoSecondLoad;
    var e0: seq<Event> := [];
    var e1 := e0 + [MainStep];
    var e2 := e1 + [MainStep];
    var e3 := e2 + [MainStep];
    MainGoesOn(b);
    Onward(b, e0, MainStep);
    MainGoesOn(After(b, e1));
    Onward(b, e1, MainStep);
    MainGoesOn(After(b, e2));
    Onward(b, e2, MainStep);
    ProgressIsBounded(b.main);
    WorkerGoesOn(After(b, e3));
    Onward(b, e3, WorkerStep(NOTHING));
  }

  lemma ProgressIsBounded(m: MainPc)
    ensures Progress(m) <= 3
  {
  }

  /** From a reachable state the bridge can stall without another second load that sees
      `request` if and only if the worker has just been through one and is not asleep before
      the notify. */
  lemma StallsExactlyWhen(events: seq<Event>)
    ensures (exists more :: NoSecondLoad(Run(events), more) && Stalled(Run(events + more))) <==> WillStall(Run(events))
  {
    hide Inv, Stalled, WillStall, After, NoSecondLoad, Step;
    var b := Run(events);
    RunKeeps(events);
    if WillStall(b) {
      StallingStalls(b);
      RunAfter(events, Stalling());
    }
    forall more | NoSecondLoad(b, more) && Stalled(Run(events + more)) ensures WillStall(b) {
      RunAfter(events, more);
      AfterKeeps(b, more);
      StalledWill(After(b, more));
    }
  }

  lemma StalledWill(b: Bridge)
    requires Inv(b) && Stalled(b)
    ensures WillStall(b)
  {
  }

  /** No run stalls in which no second load sees `request`. */
  lemma StallNeedsTheSecondLoad(events: seq<Event>)
    ensures Stalled(Run(events)) ==> exists k :: 0 <= k < |events| && SecondLoad(Run(events[..k]), events[k])
  {
    hide Inv, Step, Stalled, SecondLoad, NoSecondLoad, After, WillStall, Run;
    if Stalled(Run(events)) && NoSecondLoad(Run([]), events) {
      FromTheStart(events);
      StartWillNot();
      AfterKeeps(Run([]), events);
      StalledWill(Run(events));
    }
    if !NoSecondLoad(Run([]), events) { var k := SomeSecondLoad(events); }
  }

  lemma FromTheStart(events: seq<Event>)
    ensures Run(events) == After(Run([]), events)
  {
    hide Step, After;
    RunAfter([], events);
    assert [] + events == events;
  }

  lemma StartWillNot()
    ensures |Run([]).shared.bytes| == CAPACITY && Inv(Run([])) && !WillStall(Run([]))
  {
    hide Step;
    RunKeeps([]);
  }

  lemma SomeSecondLoad(events: seq<Event>) returns (k: nat)
    requires !NoSecondLoad(Run([]), events)
    ensures k < |events| && SecondLoad(Run(events[..k]), events[k])
  {
    hide Step, After, Run, SecondLoad;
    k :| 0 <= k < |events| && SecondLoad(After(Run([]), events[..k]), events[k]);
    FromTheStart(events[..k]);
  }

  /** And after every second load that sees `request` some continuation stalls. */
  lemma SecondLoadCanStall(events: seq<Event>, e: Event)
    requires SecondLoad(Run(events), e)
    ensures exists more :: Stalled(Run(events + [e] + more))
  {
    hide Inv, Stalled, After, NoSecondLoad;
    RunKeeps(events);
    StepKeeps(Run(events), e);
    Then(events, e, Run(events));
    StallingStalls(Run(events + [e]));
    RunAfter(events + [e], Stalling());
  }

  function MainSteps(events: seq<Event>): nat
    decreases |events|
  {
    if |events| == 0 then 0
    else MainSteps(events[..|events| - 1]) + (if events[|events| - 1].MainStep? then 1 else 0)
  }

  /** The worker sleeps on `request` and the notify is past. */
  predicate Missed(b: Bridge) { b.shared.status == Request && b.worker == Sleeping(Request) && !b.main.NotifyRequest? }

  lemma MissedStep(b: Bridge, e: Event)
    requires Inv(b) && Missed(b)
    ensures Missed(Step(b, e))
    ensures var p, q := Progress(b.main), Progress(Step(b, e).main);
            q == if e.MainStep? && p < 3 then p + 1 else p
  {
  }

  lemma {:induction false} MissedAfter(b: Bridge, more: seq<Event>)
    requires |b.shared.bytes| == CAPACITY && Inv(b) && Missed(b)
    ensures Inv(After(b, more)) && Missed(After(b, more))
    ensures var n := Progress(b.main) + MainSteps(more); Progress(After(b, more).main) == if n < 3 then n else 3
    decreases |more|
  {
    hide Inv, Step, Missed;
    if |more| > 0 {
      var n := |more| - 1;
      MissedAfter(b, more[..n]);
      MissedStep(After(b, more[..n]), more[n]);
      StepKeeps(After(b, more[..n]), more[n]);
    }
  }

  /** Then a stall is only a matter of main going on: whatever happens besides, the bridge is
      stalled as soon as main has taken the steps left to its own sleep, two at most. */
  lemma MissedStalls(events: seq<Event>, more: seq<Event>)
    requires Missed(Run(events))
    ensures Stalled(Run(events + more)) <==> Progress(Run(events).main) + MainSteps(more) >= 3
  {
    hide Step, After, MainSteps;
    RunKeeps(events);
    RunAfter(events, more);
    MissedAfter(Run(events), more);
  }
}
