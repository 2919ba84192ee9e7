/** The task pool: one main thread that enqueues and awaits, any number of workers, and 32
    slots of shared memory.  One step is one Atomics operation (or the bytes copied between
    two of them), so a sequence of events is an interleaving of the threads. */
module TaskPool {
  const JOB_COUNT: nat := 32
  const CONTEXT_MAX: nat := 512
  const WAKE_WORDS: nat := 0x1_0000_0000     // the wake word has 32 bits

  datatype Status = Free | Ready | Running | Done

  /** Header words and payload of a slot.  `job` is not in the slot itself: it is the number
      of the enqueue call that last published it. */
  datatype Slot = Slot(status: Status, entry: int, len: int, core: int, priority: int, result: int,
                       payload: seq<bv8>, job: nat)

  /** What enqueue was called with, after the context length is capped; `data` is what it copies. */
  datatype Request = Request(entry: int, core: int, priority: int, len: int, data: seq<bv8>)

  predicate WellFormed(req: Request) {
    req.len <= CONTEXT_MAX && |req.data| == if req.len < 0 then 0 else req.len
  }

  datatype Result = Succeeded(out: seq<bv8>) | Failed

  /** One execution of an entry: what it was given and what came out. */
  datatype Execution = Execution(entry: int, input: seq<bv8>, result: Result)

  datatype MainPc =
    | Idle
    | Scan(i: nat, req: Request)               // enqueue: load the status of slot i
    | Fill(i: nat, step: nat, req: Request)    // enqueue: store words 1..5, the payload, READY
    | Wake(i: nat)
    | NotifyWorkers(i: nat)
    | AwaitLoad(id: nat)
    | AwaitSleep(id: nat, seen: Status)        // about to Atomics.wait on the status seen
    | Sleeping(id: nat, seen: Status)
    | TimedOut(id: nat)
    | Copy(id: nat)
    | Release(id: nat)
    | NotifySlot(id: nat)

  datatype WorkerPc =
    | Claim(i: nat, again: bool)               // compare-exchange on slot i
    | LoadWake
    | SleepOnWake(seen: nat)
    | Asleep
    | LoadEntry(i: nat)
    | LoadLen(i: nat, entry: int)
    | Execute(i: nat, entry: int, len: int)
    | WriteBack(i: nat, out: seq<bv8>)
    | StoreResult(i: nat, code: int)
    | StoreDone(i: nat)
    | NotifyMain(i: nat)

  datatype Reply =
    | Full                                     // enqueue returned -1
    | Enqueued(id: nat, job: nat)
    | Reaped(id: nat, job: nat, bytes: seq<bv8>) // awaitJob copied the first 8 payload bytes

  datatype Pool = Pool(
    slots: seq<Slot>, wake: nat, main: MainPc, workers: seq<WorkerPc>,
    jobs: seq<Request>,                        // every request published, in order
    executions: seq<seq<Execution>>,           // per job, how it was executed
    replies: seq<Reply>)

  /** What happens next.  The environment decides which call an idle main thread makes, how
      a task entry ends and when a wait times out. */
  datatype Event =
    | Enqueue(req: Request)
    | Await(id: int)
    | Main
    | TimeOut
    | Worker(w: nat, memory: seq<bv8>, throws: bool)

  function Start(n: nat): Pool {
    var empty := Slot(Free, 0, 0, 0, 0, 0, seq(CONTEXT_MAX, _ => 0), 0);
    Pool(seq(JOB_COUNT, _ => empty), 0, Idle, seq(n, _ => Claim(0, false)), [], [], [])
  }

  /** The length a worker uses, and how many result bytes go back. */
  function Clamp(len: int): nat { if len < 0 then 0 else if len < CONTEXT_MAX then len else CONTEXT_MAX }

  function Written(len: int): nat { if len < 0 then 0 else if len < 8 then len else 8 }

  function At(p: Pool, i: nat, slot: Slot): Pool
    requires i < |p.slots|
  {
    p.(slots := p.slots[i := slot])
  }

  /** Atomics.notify on a status word: a main thread sleeping there goes on. */
  function Notify(p: Pool, i: nat): Pool {
    if p.main.Sleeping? && p.main.id == i then p.(main := AwaitLoad(i)) else p
  }

  function FillStep(p: Pool, i: nat, step: nat, req: Request): Pool
    requires i < |p.slots| && WellFormed(req) && |p.slots[i].payload| == CONTEXT_MAX
  {
    var slot := p.slots[i];
    if step == 7 then
      At(p, i, slot.(status := Ready, job := |p.jobs|))
        .(main := Wake(i), jobs := p.jobs + [req], executions := p.executions + [[]],
          replies := p.replies + [Enqueued(i, |p.jobs|)])
    else
      var s' := match step
        case 1 => slot.(entry := req.entry)
        case 2 => slot.(len := req.len)
        case 3 => slot.(core := req.core)
        case 4 => slot.(priority := req.priority)
        case 5 => slot.(result := 0)
        case _ => slot.(payload := req.data + slot.payload[|req.data|..]);
      At(p, i, s').(main := Fill(i, step + 1, req))
  }

  function MainStep(p: Pool): Pool
    requires Shape(p)
  {
    match p.main
    case Idle => p
    case Scan(i, req) =>
      if i >= JOB_COUNT then p.(main := Idle, replies := p.replies + [Full])
      else if p.slots[i].status == Free then p.(main := Fill(i, 1, req))
      else p.(main := Scan(i + 1, req))
    case Fill(i, step, req) => FillStep(p, i, step, req)
    case Wake(i) => p.(wake := (p.wake + 1) % WAKE_WORDS, main := NotifyWorkers(i))
    case NotifyWorkers(_) =>
      p.(main := Idle,
         workers := seq(|p.workers|, w requires 0 <= w < |p.workers| =>
                          if p.workers[w].Asleep? then Claim(0, true) else p.workers[w]))
    case AwaitLoad(id) =>
      if p.slots[id].status == Done then p.(main := Copy(id))
      else if p.slots[id].status == Free then p.(main := Idle)
      else p.(main := AwaitSleep(id, p.slots[id].status))
    case AwaitSleep(id, seen) =>
      if p.slots[id].status == seen then p.(main := Sleeping(id, seen)) else p.(main := AwaitLoad(id))
    case Sleeping(_, _) => p
    case TimedOut(id) => if p.slots[id].status != Done then p.(main := Idle) else p.(main := AwaitLoad(id))
    case Copy(id) =>
      p.(main := Release(id), replies := p.replies + [Reaped(id, p.slots[id].job, p.slots[id].payload[..8])])
    case Release(id) => At(p, id, p.slots[id].(status := Free)).(main := NotifySlot(id))
    case NotifySlot(_) => p.(main := Idle)
  }

  function Put(p: Pool, w: nat, pc: WorkerPc): Pool
    requires w < |p.workers|
  {
    p.(workers := p.workers[w := pc])
  }

  /** The entry runs on its own copy of the context; only its result comes back. */
  function RunEntry(p: Pool, w: nat, i: nat, entry: int, len: int, memory: seq<bv8>, throws: bool): Pool
    requires Shape(p) && w < |p.workers| && i < JOB_COUNT && p.slots[i].job < |p.executions|
  {
    var job := p.slots[i].job;
    var out := seq(Written(len), k requires 0 <= k => if k < |memory| then memory[k] else 0);
    var ran := Execution(entry, p.slots[i].payload[..Clamp(len)], if throws then Failed else Succeeded(out));
    Put(p, w, if throws then StoreResult(i, -1) else WriteBack(i, out))
      .(executions := p.executions[job := p.executions[job] + [ran]])
  }

  function WorkerStep(p: Pool, w: nat, memory: seq<bv8>, throws: bool): Pool
    requires Shape(p) && w < |p.workers|
  {
    match p.workers[w]
    case Claim(i, again) =>
      if i >= JOB_COUNT then Put(p, w, if again then Claim(0, false) else LoadWake)
      else if p.slots[i].status == Ready then Put(At(p, i, p.slots[i].(status := Running)), w, LoadEntry(i))
      else Put(p, w, Claim(i + 1, again))
    case LoadWake => Put(p, w, SleepOnWake(p.wake))
    case SleepOnWake(seen) => Put(p, w, if p.wake == seen then Asleep else Claim(0, true))
    case Asleep => p
    case LoadEntry(i) => Put(p, w, LoadLen(i, p.slots[i].entry))
    case LoadLen(i, entry) => Put(p, w, Execute(i, entry, Clamp(p.slots[i].len)))
    case Execute(i, entry, len) =>
      if p.slots[i].job < |p.executions| then RunEntry(p, w, i, entry, len, memory, throws) else p
    case WriteBack(i, out) =>
      var slot := p.slots[i];
      Put(At(p, i, slot.(payload := out + slot.payload[|out|..])), w, StoreResult(i, 0))
    case StoreResult(i, code) => Put(At(p, i, p.slots[i].(result := code)), w, StoreDone(i))
    case StoreDone(i) => Put(At(p, i, p.slots[i].(status := Done)), w, NotifyMain(i))
    case NotifyMain(i) => Notify(Put(p, w, Claim(0, false)), i)
  }

  /** An event that does not fit the state leaves it alone. */
  function Step(p: Pool, e: Event): Pool
    requires Shape(p)
  {
    match e
    case Enqueue(req) => if p.main.Idle? && WellFormed(req) then p.(main := Scan(0, req)) else p
    case Await(id) => if p.main.Idle? && 0 <= id < JOB_COUNT then p.(main := AwaitLoad(id)) else p
    case Main => MainStep(p)
    case TimeOut => if p.main.Sleeping? then p.(main := TimedOut(p.main.id)) else p
    case Worker(w, memory, throws) => if w < |p.workers| then WorkerStep(p, w, memory, throws) else p
  }

  // ---- The invariant ----

  /** The slot a worker has claimed and not handed back. */
  function Claimed(pc: WorkerPc): int {
    match pc
    case LoadEntry(i) => i
    case LoadLen(i, _) => i
    case Execute(i, _, _) => i
    case WriteBack(i, _) => i
    case StoreResult(i, _) => i
    case StoreDone(i) => i
    case _ => -1
  }

  /** Indices stay in range. */
  ghost predicate Shape(p: Pool) {
    && |p.slots| == JOB_COUNT
    && (forall i | 0 <= i < JOB_COUNT :: |p.slots[i].payload| == CONTEXT_MAX)
    && (forall w | 0 <= w < |p.workers| ::
          && Claimed(p.workers[w]) < JOB_COUNT
          && (p.workers[w].WriteBack? ==> |p.workers[w].out| <= 8))
    && (match p.main
        case Scan(_, req) => WellFormed(req)
        case Fill(i, step, req) => i < JOB_COUNT && 1 <= step <= 7 && WellFormed(req)
        case AwaitLoad(id) => id < JOB_COUNT
        case AwaitSleep(id, _) => id < JOB_COUNT
        case Sleeping(id, _) => id < JOB_COUNT
        case TimedOut(id) => id < JOB_COUNT
        case Copy(id) => id < JOB_COUNT
        case Release(id) => id < JOB_COUNT
        case _ => true)
  }

  /** The slot holds the request it was published with. */
  predicate Holds(slot: Slot, req: Request)
    requires |slot.payload| == CONTEXT_MAX
  {
    && WellFormed(req)
    && slot.entry == req.entry && slot.len == req.len && slot.core == req.core && slot.priority == req.priority
    && slot.result == 0 && slot.payload[..|req.data|] == req.data
  }

  /** The job was executed once, on its own entry and data. */
  predicate ExecutedOnce(req: Request, runs: seq<Execution>) {
    |runs| == 1 && runs[0].entry == req.entry && runs[0].input == req.data
    && (runs[0].result.Succeeded? ==> |runs[0].result.out| == Written(req.len))
  }

  /** The result code is zero exactly if the run succeeded, and then the payload starts with
      what the run returned. */
  predicate Delivered(slot: Slot, runs: seq<Execution>, code: int)
    requires |slot.payload| == CONTEXT_MAX
  {
    && (code == 0 <==> |runs| == 1 && runs[0].result.Succeeded?)
    && (code == 0 ==> |runs[0].result.out| <= 8 && slot.payload[..|runs[0].result.out|] == runs[0].result.out)
  }

  /** The job the last enqueue that returned `id` published, or -1. */
  function LastJob(replies: seq<Reply>, id: nat): int {
    if |replies| == 0 then -1
    else
      var last := replies[|replies| - 1];
      if last.Enqueued? && last.id == id then last.job else LastJob(replies[..|replies| - 1], id)
  }

  lemma LastJobAfter(replies: seq<Reply>, reply: Reply, id: nat)
    ensures LastJob(replies + [reply], id) ==
            if reply.Enqueued? && reply.id == id then reply.job else LastJob(replies, id)
  {
    assert (replies + [reply])[..|replies|] == replies;
  }

  ghost predicate SlotOk(p: Pool, i: nat)
    requires Shape(p) && i < JOB_COUNT && |p.jobs| == |p.executions|
  {
    var slot := p.slots[i];
    slot.status != Free ==>
      && slot.job < |p.jobs| && LastJob(p.replies, i) == slot.job
      && (slot.status == Ready ==> Holds(slot, p.jobs[slot.job]) && p.executions[slot.job] == [])
      && (slot.status == Running ==> exists w :: 0 <= w < |p.workers| && Claimed(p.workers[w]) == i)
      && (slot.status == Done ==> ExecutedOnce(p.jobs[slot.job], p.executions[slot.job])
                                  && Delivered(slot, p.executions[slot.job], slot.result))
  }

  ghost predicate WorkerOk(p: Pool, w: nat)
    requires Shape(p) && w < |p.workers| && |p.jobs| == |p.executions|
  {
    var pc := p.workers[w];
    Claimed(pc) >= 0 ==>
      var slot := p.slots[Claimed(pc)];
      && slot.status == Running && slot.job < |p.jobs|
      && var req, runs := p.jobs[slot.job], p.executions[slot.job];
         match pc
         case LoadEntry(_) => Holds(slot, req) && runs == []
         case LoadLen(_, entry) => Holds(slot, req) && runs == [] && entry == req.entry
         case Execute(_, entry, len) => Holds(slot, req) && runs == [] && entry == req.entry && len == Clamp(req.len)
         case WriteBack(_, out) => ExecutedOnce(req, runs) && runs[0].result == Succeeded(out)
         case StoreResult(_, code) => ExecutedOnce(req, runs) && Delivered(slot, runs, code)
         case StoreDone(_) => ExecutedOnce(req, runs) && Delivered(slot, runs, slot.result)
         case _ => true
  }

  /** What the main thread has stored so far into the slot it is filling. */
  predicate Filled(slot: Slot, step: nat, req: Request)
    requires |slot.payload| == CONTEXT_MAX && WellFormed(req)
  {
    && slot.status == Free
    && (step > 1 ==> slot.entry == req.entry)
    && (step > 2 ==> slot.len == req.len)
    && (step > 3 ==> slot.core == req.core)
    && (step > 4 ==> slot.priority == req.priority)
    && (step > 5 ==> slot.result == 0)
    && (step > 6 ==> slot.payload[..|req.data|] == req.data)
  }

  ghost predicate MainOk(p: Pool)
    requires Shape(p)
  {
    match p.main
    case Scan(i, _) => forall k | 0 <= k < i && k < JOB_COUNT :: p.slots[k].status != Free
    case Fill(i, step, req) => Filled(p.slots[i], step, req)
    case AwaitSleep(_, seen) => seen != Done
    case Sleeping(id, seen) =>
      && seen != Done
      && (p.slots[id].status == Done ==> exists w :: 0 <= w < |p.workers| && p.workers[w] == NotifyMain(id))
    case Copy(id) => p.slots[id].status == Done
    case Release(id) => p.slots[id].status == Done
    case _ => true
  }

  ghost predicate Inv(p: Pool) {
    && Shape(p) && |p.jobs| == |p.executions|
    && MainOk(p)
    && (forall i | 0 <= i < JOB_COUNT :: SlotOk(p, i))
    && (forall w | 0 <= w < |p.workers| :: WorkerOk(p, w))
    && (forall i, j | 0 <= i < j < JOB_COUNT ::
          p.slots[i].status != Free && p.slots[j].status != Free ==> p.slots[i].job != p.slots[j].job)
    && (forall v, w | 0 <= v < w < |p.workers| ::
          Claimed(p.workers[v]) >= 0 ==> Claimed(p.workers[v]) != Claimed(p.workers[w]))
    && (forall j | 0 <= j < |p.executions| :: |p.executions[j]| <= 1)
  }

  lemma StartOk(n: nat)
    ensures Inv(Start(n))
  {
  }

  // ---- Main steps ----

  lemma ScanKeeps(p: Pool)
    requires Inv(p) && p.main.Scan?
    ensures Inv(MainStep(p))
  {
    hide Holds, Delivered, ExecutedOnce;
    var r := MainStep(p);
    forall k | 0 <= k < JOB_COUNT ensures SlotOk(r, k) { assert SlotOk(p, k); LastJobAfter(p.replies, Full, k); }
    forall w | 0 <= w < |r.workers| ensures WorkerOk(r, w) { assert WorkerOk(p, w); }
  }

  lemma FillKeeps(p: Pool)
    requires Inv(p) && p.main.Fill? && p.main.step < 7
    ensures Inv(MainStep(p))
  {
    hide Delivered, ExecutedOnce;
    var i, step, req := p.main.i, p.main.step, p.main.req;
    var r := MainStep(p);
    assert forall k | 0 <= k < JOB_COUNT && k != i :: r.slots[k] == p.slots[k];
    assert r.slots[i].status == Free;
    if step == 6 {
      assert r.slots[i].payload[..|req.data|] == req.data;
    }
    forall k | 0 <= k < JOB_COUNT ensures SlotOk(r, k) { assert SlotOk(p, k); }
    forall w | 0 <= w < |r.workers| ensures WorkerOk(r, w) { assert WorkerOk(p, w); }
  }

  lemma PublishKeeps(p: Pool)
    requires Inv(p) && p.main.Fill? && p.main.step == 7
    ensures Inv(MainStep(p))
  {
    hide Delivered, ExecutedOnce;
    var i := p.main.i;
    var r := MainStep(p);
    assert forall k | 0 <= k < JOB_COUNT && k != i :: r.slots[k] == p.slots[k];
    assert forall j | 0 <= j < |p.jobs| :: r.jobs[j] == p.jobs[j] && r.executions[j] == p.executions[j];
    forall k | 0 <= k < JOB_COUNT ensures SlotOk(r, k) {
      assert SlotOk(p, k);
      LastJobAfter(p.replies, Enqueued(i, |p.jobs|), k);
    }
    forall k | 0 <= k < JOB_COUNT && k != i && p.slots[k].status != Free
      ensures r.slots[k].job < |p.jobs|
    {
      assert SlotOk(p, k);
    }
    forall w | 0 <= w < |r.workers| ensures WorkerOk(r, w) { assert WorkerOk(p, w); }
  }

  lemma NotifyWorkersKeeps(p: Pool)
    requires Inv(p) && p.main.NotifyWorkers?
    ensures Inv(MainStep(p))
  {
    var r := MainStep(p);
    assert forall w | 0 <= w < |p.workers| :: Claimed(r.workers[w]) == Claimed(p.workers[w]);
    forall k | 0 <= k < JOB_COUNT ensures SlotOk(r, k) {
      assert SlotOk(p, k);
      if p.slots[k].status == Running {
        var w :| 0 <= w < |p.workers| && Claimed(p.workers[w]) == k;
        assert Claimed(r.workers[w]) == k;
      }
    }
    forall w | 0 <= w < |r.workers| ensures WorkerOk(r, w) { assert WorkerOk(p, w); }
  }

  lemma ReleaseKeeps(p: Pool)
    requires Inv(p) && p.main.Release?
    ensures Inv(MainStep(p))
  {
    var id := p.main.id;
    var r := MainStep(p);
    assert forall k | 0 <= k < JOB_COUNT && k != id :: r.slots[k] == p.slots[k];
    forall k | 0 <= k < JOB_COUNT ensures SlotOk(r, k) { assert SlotOk(p, k); }
    forall w | 0 <= w < |r.workers| ensures WorkerOk(r, w) { assert WorkerOk(p, w); }
  }

  lemma OtherMainKeeps(p: Pool)
    requires Inv(p) && !p.main.Scan? && !p.main.Fill? && !p.main.NotifyWorkers? && !p.main.Release?
    ensures Inv(MainStep(p))
  {
    hide Holds, Delivered, ExecutedOnce, Filled;
    var r := MainStep(p);
    assert r.slots == p.slots && r.workers == p.workers && r.jobs == p.jobs && r.executions == p.executions;
    forall k | 0 <= k < JOB_COUNT ensures SlotOk(r, k) {
      assert SlotOk(p, k);
      if p.main.Copy? { LastJobAfter(p.replies, r.replies[|p.replies|], k); }
    }
    forall w | 0 <= w < |r.workers| ensures WorkerOk(r, w) { assert WorkerOk(p, w); }
  }

  // ---- Worker steps ----

  /** A worker that neither claims nor hands back a slot. */
  lemma IdleWorkerKeeps(p: Pool, w: nat, pc: WorkerPc)
    requires Inv(p) && w < |p.workers| && Claimed(p.workers[w]) < 0 && Claimed(pc) < 0 && !p.workers[w].NotifyMain?
    ensures Inv(Put(p, w, pc))
  {
    var r := Put(p, w, pc);
    assert forall v | 0 <= v < |p.workers| && v != w :: r.workers[v] == p.workers[v];
    OthersStay(p, r, w);
    forall v | 0 <= v < |r.workers| ensures WorkerOk(r, v) { assert WorkerOk(p, v); }
    SleepersStay(p, r, w);
  }

  /** Slots stay all right when another worker than their own moves. */
  lemma OthersStay(p: Pool, r: Pool, w: nat)
    requires Inv(p) && Shape(r) && r.slots == p.slots && r.jobs == p.jobs && r.executions == p.executions
    requires r.replies == p.replies
    requires |r.workers| == |p.workers| && w < |p.workers| && Claimed(p.workers[w]) == Claimed(r.workers[w])
    requires forall v | 0 <= v < |p.workers| && v != w :: r.workers[v] == p.workers[v]
    ensures forall k | 0 <= k < JOB_COUNT :: SlotOk(r, k)
  {
    forall k | 0 <= k < JOB_COUNT ensures SlotOk(r, k) {
      assert SlotOk(p, k);
      if p.slots[k].status == Running {
        var v :| 0 <= v < |p.workers| && Claimed(p.workers[v]) == k;
        assert Claimed(r.workers[v]) == k;
      }
    }
  }

  lemma SleepersStay(p: Pool, r: Pool, w: nat)
    requires Inv(p) && Shape(r) && r.slots == p.slots && r.main == p.main
    requires |r.workers| == |p.workers| && w < |p.workers| && !p.workers[w].NotifyMain?
    requires forall v | 0 <= v < |p.workers| && v != w :: r.workers[v] == p.workers[v]
    ensures MainOk(r)
  {
    if p.main.Sleeping? && p.slots[p.main.id].status == Done {
      var v :| 0 <= v < |p.workers| && p.workers[v] == NotifyMain(p.main.id);
      assert r.workers[v] == NotifyMain(p.main.id);
    }
  }

  /** A worker takes a READY slot. */
  lemma ClaimKeeps(p: Pool, w: nat)
    requires Inv(p) && w < |p.workers| && p.workers[w].Claim? && p.workers[w].i < JOB_COUNT
    requires p.slots[p.workers[w].i].status == Ready
    ensures Inv(WorkerStep(p, w, [], false))
  {
    hide MainOk, SlotOk, WorkerOk;
    var i := p.workers[w].i;
    var r := Put(At(p, i, p.slots[i].(status := Running)), w, LoadEntry(i));
    assert forall k | 0 <= k < JOB_COUNT && k != i :: r.slots[k] == p.slots[k];
    assert forall v | 0 <= v < |p.workers| && v != w :: r.workers[v] == p.workers[v];
    NotClaimed(p, i);
    forall k | 0 <= k < JOB_COUNT ensures SlotOk(r, k) { ClaimSlot(p, r, w, i, k); }
    forall v | 0 <= v < |r.workers| ensures WorkerOk(r, v) { ClaimWorker(p, r, w, i, v); }
    AwakeStay(p, r, w, i);
  }

  lemma NotClaimed(p: Pool, i: nat)
    requires Inv(p) && i < JOB_COUNT && p.slots[i].status == Ready
    ensures forall v | 0 <= v < |p.workers| :: Claimed(p.workers[v]) != i
  {
    hide MainOk, SlotOk, Holds;
    forall v | 0 <= v < |p.workers| ensures Claimed(p.workers[v]) != i { assert WorkerOk(p, v); }
  }

  lemma ClaimSlot(p: Pool, r: Pool, w: nat, i: nat, k: nat)
    requires Inv(p) && Shape(r) && w < |p.workers| && p.workers[w].Claim? && i < JOB_COUNT && k < JOB_COUNT
    requires p.slots[i].status == Ready && r == Put(At(p, i, p.slots[i].(status := Running)), w, LoadEntry(i))
    ensures SlotOk(r, k)
  {
    hide MainOk, WorkerOk, Holds, Delivered, ExecutedOnce;
    assert SlotOk(p, k);
    if k == i {
      assert Claimed(r.workers[w]) == i;
    } else if p.slots[k].status == Running {
      var v :| 0 <= v < |p.workers| && Claimed(p.workers[v]) == k;
      assert r.workers[v] == p.workers[v];
    }
  }

  lemma ClaimWorker(p: Pool, r: Pool, w: nat, i: nat, v: nat)
    requires Inv(p) && Shape(r) && w < |p.workers| && i < JOB_COUNT && v < |p.workers|
    requires p.slots[i].status == Ready && r == Put(At(p, i, p.slots[i].(status := Running)), w, LoadEntry(i))
    requires forall u | 0 <= u < |p.workers| :: Claimed(p.workers[u]) != i
    ensures WorkerOk(r, v)
  {
    hide MainOk, Delivered, ExecutedOnce;
    if v == w { assert SlotOk(p, i); } else { assert WorkerOk(p, v); }
  }

  lemma AwakeStay(p: Pool, r: Pool, w: nat, i: nat)
    requires Inv(p) && Shape(r) && i < JOB_COUNT && r.main == p.main && p.slots[i].status in {Ready, Running}
    requires forall k | 0 <= k < JOB_COUNT && k != i :: r.slots[k] == p.slots[k]
    requires r.slots[i].status != Free
    requires |r.workers| == |p.workers| && w < |p.workers| && !p.workers[w].NotifyMain?
    requires forall v | 0 <= v < |p.workers| && v != w :: r.workers[v] == p.workers[v]
    requires r.slots[i].status == Done ==> r.workers[w] == NotifyMain(i)
    ensures MainOk(r)
  {
    if p.main.Sleeping? && p.slots[p.main.id].status == Done {
      var v :| 0 <= v < |p.workers| && p.workers[v] == NotifyMain(p.main.id);
      assert r.workers[v] == NotifyMain(p.main.id);
    }
  }

  /** A worker goes on with the slot it has claimed, or hands it back as DONE; it touches
      nothing but that slot and the record of its job. */
  lemma OwnerKeeps(p: Pool, r: Pool, w: nat, i: nat)
    requires Inv(p) && w < |p.workers| && Claimed(p.workers[w]) == i && i < JOB_COUNT && Shape(r)
    requires r == p.(slots := r.slots, workers := r.workers, executions := r.executions)
    requires |r.workers| == |p.workers| && |r.executions| == |p.executions|
    requires forall k | 0 <= k < JOB_COUNT && k != i :: r.slots[k] == p.slots[k]
    requires forall v | 0 <= v < |p.workers| && v != w :: r.workers[v] == p.workers[v]
    requires forall j | 0 <= j < |p.executions| && j != p.slots[i].job :: r.executions[j] == p.executions[j]
    requires r.slots[i].job == p.slots[i].job < |p.jobs| && |r.executions[p.slots[i].job]| <= 1
    requires || (r.slots[i].status == Running && Claimed(r.workers[w]) == i && WorkerOk(r, w))
             || (r.slots[i].status == Done && r.workers[w] == NotifyMain(i) && SlotOk(r, i))
    ensures Inv(r)
  {
    hide MainOk, Holds, Delivered, ExecutedOnce;
    assert WorkerOk(p, w);
    forall k | 0 <= k < JOB_COUNT ensures SlotOk(r, k) {
      assert SlotOk(p, k);
      if k != i && p.slots[k].status == Running {
        var v :| 0 <= v < |p.workers| && Claimed(p.workers[v]) == k;
        assert Claimed(r.workers[v]) == k;
      }
      if k == i && r.slots[i].status == Running { assert Claimed(r.workers[w]) == i; }
    }
    forall v | 0 <= v < |r.workers| ensures WorkerOk(r, v) {
      assert WorkerOk(p, v);
      if v != w && Claimed(p.workers[v]) >= 0 { assert Claimed(p.workers[v]) != i; }
    }
    AwakeStay(p, r, w, i);
  }

  lemma OwnerReads(p: Pool, w: nat)
    requires Inv(p) && w < |p.workers| && (p.workers[w].LoadEntry? || p.workers[w].LoadLen?)
    ensures Inv(WorkerStep(p, w, [], false))
  {
    hide MainOk;
    var i := Claimed(p.workers[w]);
    assert WorkerOk(p, w) && SlotOk(p, i);
    OwnerKeeps(p, WorkerStep(p, w, [], false), w, i);
  }

  lemma OwnerExecutes(p: Pool, w: nat, memory: seq<bv8>, throws: bool)
    requires Inv(p) && w < |p.workers| && p.workers[w].Execute?
    ensures Inv(WorkerStep(p, w, memory, throws))
  {
    hide MainOk;
    var i := Claimed(p.workers[w]);
    assert WorkerOk(p, w) && SlotOk(p, i);
    var r := WorkerStep(p, w, memory, throws);
    var job := p.slots[i].job;
    assert r.executions[job] == [r.executions[job][0]];
    OwnerKeeps(p, r, w, i);
  }

  lemma OwnerStores(p: Pool, w: nat)
    requires Inv(p) && w < |p.workers|
    requires p.workers[w].WriteBack? || p.workers[w].StoreResult? || p.workers[w].StoreDone?
    ensures Inv(WorkerStep(p, w, [], false))
  {
    hide MainOk;
    var i := Claimed(p.workers[w]);
    assert WorkerOk(p, w) && SlotOk(p, i);
    var r := WorkerStep(p, w, [], false);
    if p.workers[w].WriteBack? {
      assert r.slots[i].payload[..|p.workers[w].out|] == p.workers[w].out;
    }
    OwnerKeeps(p, r, w, i);
  }

  lemma OwnerSteps(p: Pool, w: nat, memory: seq<bv8>, throws: bool)
    requires Inv(p) && w < |p.workers| && Claimed(p.workers[w]) >= 0
    ensures Inv(WorkerStep(p, w, memory, throws))
  {
    hide Inv;
    match p.workers[w]
    case LoadEntry(_) => OwnerReads(p, w);
    case LoadLen(_, _) => OwnerReads(p, w);
    case Execute(_, _, _) => OwnerExecutes(p, w, memory, throws);
    case _ => OwnerStores(p, w);
  }

  lemma NotifyMainKeeps(p: Pool, w: nat)
    requires Inv(p) && w < |p.workers| && p.workers[w].NotifyMain?
    ensures Inv(WorkerStep(p, w, [], false))
  {
    hide Holds, Delivered, ExecutedOnce, Filled;
    var i := p.workers[w].i;
    var r := Put(p, w, Claim(0, false));
    assert forall v | 0 <= v < |p.workers| && v != w :: r.workers[v] == p.workers[v];
    OthersStay(p, r, w);
    forall v | 0 <= v < |r.workers| ensures WorkerOk(r, v) { assert WorkerOk(p, v); }
    if p.main.Sleeping? && p.main.id == i {
      Awakened(p, r, i);
    } else {
      if p.main.Sleeping? && p.slots[p.main.id].status == Done {
        var v :| 0 <= v < |p.workers| && p.workers[v] == NotifyMain(p.main.id);
        assert r.workers[v] == NotifyMain(p.main.id);
      }
      assert MainOk(r);
    }
  }

  lemma Awakened(p: Pool, r: Pool, i: nat)
    requires Inv(p) && p.main.Sleeping? && p.main.id == i && Shape(r) && r.slots == p.slots && r.jobs == p.jobs
    requires r.executions == p.executions && |r.workers| == |p.workers|
    requires forall k | 0 <= k < JOB_COUNT :: SlotOk(r, k)
    requires forall v | 0 <= v < |r.workers| :: WorkerOk(r, v)
    requires forall v, w | 0 <= v < w < |r.workers| ::
               Claimed(r.workers[v]) >= 0 ==> Claimed(r.workers[v]) != Claimed(r.workers[w])
    ensures Inv(r.(main := AwaitLoad(i)))
  {
    var q := r.(main := AwaitLoad(i));
    forall k | 0 <= k < JOB_COUNT ensures SlotOk(q, k) { assert SlotOk(r, k); }
    forall v | 0 <= v < |r.workers| ensures WorkerOk(q, v) { assert WorkerOk(r, v); }
  }

  /** Every step of every thread keeps the invariant. */
  lemma StepKeeps(p: Pool, e: Event)
    requires Inv(p)
    ensures Inv(Step(p, e))
  {
    hide Inv, MainStep, WorkerStep;
    match e
    case Main => MainKeeps(p);
    case Worker(w, memory, throws) => if w < |p.workers| { WorkerKeeps(p, w, memory, throws); }
    case _ => CallKeeps(p, e);
  }

  lemma MainKeeps(p: Pool)
    requires Inv(p)
    ensures Inv(MainStep(p))
  {
    hide Inv, MainStep;
    if p.main.Scan? { ScanKeeps(p); }
    else if p.main.Fill? {
      FillInRange(p);
      if p.main.step == 7 { PublishKeeps(p); } else { FillKeeps(p); }
    }
    else if p.main.NotifyWorkers? { NotifyWorkersKeeps(p); }
    else if p.main.Release? { ReleaseKeeps(p); }
    else { OtherMainKeeps(p); }
  }

  lemma FillInRange(p: Pool)
    requires Inv(p) && p.main.Fill?
    ensures p.main.step <= 7
  {
  }

  lemma CallKeeps(p: Pool, e: Event)
    requires Inv(p) && !e.Main? && !e.Worker?
    ensures Inv(Step(p, e))
  {
    hide Holds, Delivered, ExecutedOnce, Filled;
    var r := Step(p, e);
    forall k | 0 <= k < JOB_COUNT ensures SlotOk(r, k) { assert SlotOk(p, k); }
    forall w | 0 <= w < |r.workers| ensures WorkerOk(r, w) { assert WorkerOk(p, w); }
  }

  /** The steps of a worker that has claimed nothing. */
  lemma WorkerStepIs(p: Pool, w: nat, memory: seq<bv8>, throws: bool)
    requires Shape(p) && w < |p.workers|
    ensures var r := WorkerStep(p, w, memory, throws);
            match p.workers[w]
            case NotifyMain(_) => r == WorkerStep(p, w, [], false)
            case Asleep => r == p
            case LoadWake => r == Put(p, w, SleepOnWake(p.wake))
            case SleepOnWake(seen) => r == Put(p, w, if p.wake == seen then Asleep else Claim(0, true))
            case Claim(i, again) =>
              if i >= JOB_COUNT then r == Put(p, w, if again then Claim(0, false) else LoadWake)
              else if p.slots[i].status == Ready then r == WorkerStep(p, w, [], false)
              else r == Put(p, w, Claim(i + 1, again))
            case _ => true
  {
  }

  lemma WorkerKeeps(p: Pool, w: nat, memory: seq<bv8>, throws: bool)
    requires Inv(p) && w < |p.workers|
    ensures Inv(WorkerStep(p, w, memory, throws))
  {
    hide MainOk, SlotOk, WorkerOk, WorkerStep;
    var pc := p.workers[w];
    WorkerStepIs(p, w, memory, throws);
    if Claimed(pc) >= 0 { OwnerSteps(p, w, memory, throws); }
    else {
      match pc
      case NotifyMain(_) => NotifyMainKeeps(p, w);
      case Asleep =>
      case LoadWake => IdleWorkerKeeps(p, w, SleepOnWake(p.wake));
      case SleepOnWake(seen) => IdleWorkerKeeps(p, w, if p.wake == seen then Asleep else Claim(0, true));
      case Claim(i, again) =>
        if i >= JOB_COUNT { IdleWorkerKeeps(p, w, if again then Claim(0, false) else LoadWake); }
        else if p.slots[i].status == Ready { ClaimKeeps(p, w); }
        else { IdleWorkerKeeps(p, w, Claim(i + 1, again)); }
      case _ =>
    }
  }

  // ---- Every reachable state ----

  /** The pool after a sequence of events, from a start with `n` workers. */
  function Run(n: nat, events: seq<Event>): (p: Pool)
    ensures Inv(p)
    decreases |events|
  {
    if |events| == 0 then
      StartOk(n);
      Start(n)
    else
      var q := Run(n, events[..|events| - 1]);
      StepKeeps(q, events[|events| - 1]);
      Step(q, events[|events| - 1])
  }

  /** A RUNNING slot has exactly one worker, and no other slot has one. */
  lemma RunningHasOneWorker(n: nat, events: seq<Event>, i: nat)
    requires i < 32
    ensures var p := Run(n, events);
            p.slots[i].status == Running <==>
            exists w :: 0 <= w < |p.workers| && Claimed(p.workers[w]) == i
                   && forall v | 0 <= v < |p.workers| && v != w :: Claimed(p.workers[v]) != i
  {
    var p := Run(n, events);
    assert SlotOk(p, i);
    if p.slots[i].status == Running {
      var w :| 0 <= w < |p.workers| && Claimed(p.workers[w]) == i;
      assert forall v | 0 <= v < |p.workers| && v != w :: Claimed(p.workers[v]) != i;
    }
    forall w | 0 <= w < |p.workers| && Claimed(p.workers[w]) == i ensures p.slots[i].status == Running {
      assert WorkerOk(p, w);
    }
  }

  /** No job runs twice, and what runs is the entry and the data it was enqueued with. */
  lemma ExecutedAtMostOnce(n: nat, events: seq<Event>, job: nat)
    requires job < |Run(n, events).jobs|
    ensures var p := Run(n, events);
            |p.executions[job]| <= 1
            && (forall i | 0 <= i < JOB_COUNT && p.slots[i].job == job && p.slots[i].status == Done ::
                  ExecutedOnce(p.jobs[job], p.executions[job]))
  {
    var p := Run(n, events);
    forall i | 0 <= i < JOB_COUNT && p.slots[i].job == job && p.slots[i].status == Done
      ensures ExecutedOnce(p.jobs[job], p.executions[job])
    {
      assert SlotOk(p, i);
    }
  }

  /** The worker has claimed slot `i` and not yet run its entry. */
  predicate BeforeRun(pc: WorkerPc, i: nat) {
    (pc.LoadEntry? || pc.LoadLen? || pc.Execute?) && pc.i == i
  }

  /** Between publishing and the execution of the entry nobody rewrites the words or the
      payload of a slot: not while it is READY, nor while its worker loads them, and what
      the worker has loaded so far is what was published. */
  lemma PublishedIsUntouched(n: nat, events: seq<Event>, i: nat)
    requires i < 32
    ensures var p := Run(n, events);
            && (p.slots[i].status == Ready ==> p.slots[i].job < |p.jobs| && Holds(p.slots[i], p.jobs[p.slots[i].job]))
            && (forall w | 0 <= w < |p.workers| && BeforeRun(p.workers[w], i) ::
                  && p.slots[i].job < |p.jobs|
                  && var pc, req := p.workers[w], p.jobs[p.slots[i].job];
                     && Holds(p.slots[i], req)
                     && (!pc.LoadEntry? ==> pc.entry == req.entry)
                     && (pc.Execute? ==> 0 <= pc.len <= 512 && p.slots[i].payload[..pc.len] == req.data))
  {
    var p := Run(n, events);
    assert SlotOk(p, i);
    forall w | 0 <= w < |p.workers| && BeforeRun(p.workers[w], i)
      ensures p.slots[i].job < |p.jobs|
      ensures var pc, req := p.workers[w], p.jobs[p.slots[i].job];
              && Holds(p.slots[i], req)
              && (!pc.LoadEntry? ==> pc.entry == req.entry)
              && (pc.Execute? ==> 0 <= pc.len <= 512 && p.slots[i].payload[..pc.len] == req.data)
    {
      assert WorkerOk(p, w);
    }
  }

  /** Which steps reply, and with what. */
  lemma StepReplies(p: Pool, e: Event)
    requires Inv(p)
    ensures var r := Step(p, e);
            || r.replies == p.replies
            || (p.main.Scan? && p.main.i >= JOB_COUNT && r == p.(main := Idle, replies := p.replies + [Full]))
            || (p.main.Fill? && r.replies == p.replies + [Enqueued(p.main.i, |p.jobs|)])
            || (p.main.Copy? && p.main.id < JOB_COUNT
                && r.replies == p.replies + [Reaped(p.main.id, p.slots[p.main.id].job,
                                                    p.slots[p.main.id].payload[..8])])
  {
    hide SlotOk, WorkerOk, MainOk;
  }

  /** enqueue returns -1 only when no slot is free at that moment. */
  lemma FullMeansFull(n: nat, events: seq<Event>)
    requires |events| > 0
    ensures var p, r := Run(n, events[..|events| - 1]), Run(n, events);
            |r.replies| > |p.replies| && r.replies[|p.replies|] == Full ==>
              |r.slots| == 32 && forall i | 0 <= i < 32 :: r.slots[i].status != Free
  {
    hide Step, SlotOk, WorkerOk;
    var p := Run(n, events[..|events| - 1]);
    StepReplies(p, events[|events| - 1]);
    assert MainOk(p);
  }

  // ---- What comes back ----

  /** In event `e` worker `w` runs the entry of `job`, which leaves `memory`. */
  ghost predicate Ran(n: nat, events: seq<Event>, e: nat, job: nat, w: nat, memory: seq<bv8>, throws: bool)
    requires e < |events|
  {
    && events[e] == Worker(w, memory, throws)
    && var p := Run(n, events[..e]);
       && w < |p.workers| && p.workers[w].Execute? && 0 <= p.workers[w].i < |p.slots|
       && p.slots[p.workers[w].i].job == job
  }

  /** The run was of the request, on its own data; if it did not throw it returned the first
      bytes it left in memory, eight at most and no more than it was given. */
  predicate Records(runs: seq<Execution>, req: Request, memory: seq<bv8>, throws: bool) {
    && |runs| == 1 && runs[0].entry == req.entry && runs[0].input == req.data
    && if throws then runs[0].result == Failed
       else runs[0].result.Succeeded? && FirstBytes(runs[0].result.out, req.len, memory)
  }

  predicate FirstBytes(out: seq<bv8>, len: int, memory: seq<bv8>) {
    && |out| == (if len < 0 then 0 else if len < 8 then len else 8)
    && forall k | 0 <= k < |out| :: out[k] == if k < |memory| then memory[k] else 0
  }

  /** What a step does to the record: it publishes a job that has not run, it runs a job that
      has not run, or it leaves the record alone. */
  lemma StepRecords(p: Pool, e: Event)
    requires Inv(p)
    ensures var r := Step(p, e);
            || (r.jobs == p.jobs && r.executions == p.executions)
            || (exists req :: r.jobs == p.jobs + [req] && r.executions == p.executions + [[]])
            || (e.Worker? && e.w < |p.workers| && p.workers[e.w].Execute?)
  {
    hide SlotOk, WorkerOk, MainOk, Clamp, Written;
    if e.Main? && p.main.Fill? && p.main.step == 7 { assert Step(p, e).jobs == p.jobs + [p.main.req]; }
  }

  lemma RunRecords(p: Pool, w: nat, memory: seq<bv8>, throws: bool)
    requires Inv(p) && w < |p.workers| && p.workers[w].Execute?
    ensures Claimed(p.workers[w]) == p.workers[w].i < |p.slots|
    ensures var job, r := p.slots[p.workers[w].i].job, WorkerStep(p, w, memory, throws);
            && job < |p.jobs| == |p.executions| && p.executions[job] == []
            && r.jobs == p.jobs && |r.executions| == |p.executions|
            && Records(r.executions[job], p.jobs[job], memory, throws)
            && forall j | 0 <= j < |p.executions| && j != job :: r.executions[j] == p.executions[j]
  {
    hide MainOk, SlotOk;
    assert WorkerOk(p, w);
  }

  /** A record, once made, stays. */
  lemma RecordStays(p: Pool, e: Event, job: nat)
    requires Inv(p) && job < |p.jobs| && |p.executions[job]| == 1
    ensures var r := Step(p, e);
            && job < |r.jobs| && job < |r.executions|
            && r.jobs[job] == p.jobs[job] && r.executions[job] == p.executions[job]
  {
    hide Inv, Step, Records;
    StepRecords(p, e);
    RecordsMatch(p);
    if e.Worker? && e.w < |p.workers| && p.workers[e.w].Execute? {
      StepIsWorkers(p, e);
      RunRecords(p, e.w, e.memory, e.throws);
    }
  }

  lemma RecordsMatch(p: Pool)
    requires Inv(p)
    ensures Shape(p) && |p.jobs| == |p.executions|
  {
  }

  lemma StepIsWorkers(p: Pool, e: Event)
    requires Shape(p) && e.Worker? && e.w < |p.workers|
    ensures Step(p, e) == WorkerStep(p, e.w, e.memory, e.throws)
  {
  }

  /** Whatever happens later, the record of a job is what came of the event that ran it. */
  lemma {:induction false} RunIsRecorded(n: nat, events: seq<Event>, e: nat, job: nat, w: nat, memory: seq<bv8>,
                                         throws: bool)
    requires e < |events| && Ran(n, events, e, job, w, memory, throws)
    ensures var p := Run(n, events);
            job < |p.jobs| && job < |p.executions| && Records(p.executions[job], p.jobs[job], memory, throws)
    decreases |events|
  {
    hide Inv, Step, WorkerStep, FirstBytes;
    var before := events[..|events| - 1];
    var p := Run(n, before);
    if e == |events| - 1 {
      RecordsMatch(p);
      StepIsWorkers(p, events[e]);
      RunRecords(p, w, memory, throws);
    } else {
      assert before[..e] == events[..e];
      RunIsRecorded(n, before, e, job, w, memory, throws);
      RecordStays(p, events[|events| - 1], job);
    }
  }

  /** And every record came of such an event. */
  lemma {:induction false} RecordHasARun(n: nat, events: seq<Event>, job: nat)
    requires job < |Run(n, events).executions| && |Run(n, events).executions[job]| == 1
    ensures exists e, w, memory, throws :: 0 <= e < |events| && Ran(n, events, e, job, w, memory, throws)
    decreases |events|
  {
    hide Inv, Step, WorkerStep, Records, FirstBytes;
    StartsUnrecorded(n);
    var last := |events| - 1;
    var before := events[..last];
    var p := Run(n, before);
    RecordsMatch(p);
    StepRecords(p, events[last]);
    if job < |p.executions| && |p.executions[job]| == 1 {
      RecordHasARun(n, before, job);
      var e, w, memory, throws :| 0 <= e < last && Ran(n, before, e, job, w, memory, throws);
      assert before[..e] == events[..e];
      assert Ran(n, events, e, job, w, memory, throws);
    } else {
      var e := events[last];
      StepIsWorkers(p, e);
      RunRecords(p, e.w, e.memory, e.throws);
      assert Ran(n, events, last, job, e.w, e.memory, e.throws);
    }
  }

  lemma StartsUnrecorded(n: nat)
    ensures Run(n, []).executions == []
  {
  }

  /** What a completed await copies: the job is the one the last enqueue that returned this
      id published.  One event ran it, on its own data; if that run did not throw, the copy
      starts with the first bytes it left in memory, and the result word says whether it did. */
  lemma AwaitCopiesOwnResult(n: nat, events: seq<Event>)
    requires |events| > 0
    ensures var p, r := Run(n, events[..|events| - 1]), Run(n, events);
            |r.replies| > |p.replies| && r.replies[|p.replies|].Reaped? ==>
              var reply := r.replies[|p.replies|];
              && reply.id < 32 && reply.job < |p.jobs| == |p.executions| && |reply.bytes| == 8
              && LastJob(p.replies, reply.id) == reply.job
              && (exists e, w, memory, throws :: 0 <= e < |events| && Ran(n, events, e, reply.job, w, memory, throws))
              && forall e, w, memory, throws | 0 <= e < |events| && Ran(n, events, e, reply.job, w, memory, throws) ::
                   && Records(p.executions[reply.job], p.jobs[reply.job], memory, throws)
                   && (p.slots[reply.id].result == 0 <==> !throws)
                   && (!throws ==> var n := p.jobs[reply.job].len;
                                   FirstBytes(reply.bytes[..if n < 0 then 0 else if n < 8 then n else 8], n, memory))
  {
    hide Step, WorkerOk, Records, FirstBytes, Inv;
    var last := |events| - 1;
    var p, r := Run(n, events[..last]), Run(n, events);
    StepReplies(p, events[last]);
    if |r.replies| > |p.replies| && r.replies[|p.replies|].Reaped? {
      var reply := r.replies[|p.replies|];
      CopyIsDone(p);
      RecordStays(p, events[last], reply.job);
      RecordHasARun(n, events, reply.job);
      forall e, w, memory, throws | 0 <= e < |events| && Ran(n, events, e, reply.job, w, memory, throws)
        ensures Records(p.executions[reply.job], p.jobs[reply.job], memory, throws)
        ensures p.slots[reply.id].result == 0 <==> !throws
        ensures !throws ==> var n := p.jobs[reply.job].len;
                            FirstBytes(reply.bytes[..if n < 0 then 0 else if n < 8 then n else 8], n, memory)
      {
        RunIsRecorded(n, events, e, reply.job, w, memory, throws);
        RecordedBytes(p.executions[reply.job], p.jobs[reply.job], memory, throws);
      }
    }
  }

  lemma RecordedBytes(runs: seq<Execution>, req: Request, memory: seq<bv8>, throws: bool)
    requires Records(runs, req, memory, throws)
    ensures |runs| == 1 && (runs[0].result.Succeeded? <==> !throws)
    ensures !throws ==> var out := runs[0].result.out;
                        && FirstBytes(out, req.len, memory)
                        && |out| == if req.len < 0 then 0 else if req.len < 8 then req.len else 8
  {
  }

  /** What main finds in the slot it copies from. */
  lemma CopyIsDone(p: Pool)
    requires Inv(p) && p.main.Copy?
    ensures Shape(p) && p.main.id < JOB_COUNT && |p.jobs| == |p.executions|
    ensures var slot := p.slots[p.main.id];
            && slot.job < |p.jobs| && LastJob(p.replies, p.main.id) == slot.job
            && |p.executions[slot.job]| == 1 && |slot.payload[..8]| == 8
            && var result := p.executions[slot.job][0].result;
               && (slot.result == 0 <==> result.Succeeded?)
               && (result.Succeeded? ==> |result.out| <= 8 && slot.payload[..8][..|result.out|] == result.out)
  {
    hide WorkerOk;
    assert MainOk(p) && SlotOk(p, p.main.id);
  }

  // ---- A job goes through ----

  /** How far worker `w` is with slot `i`, and what the slot is. */
  predicate WorkerAt(p: Pool, w: nat, i: nat, stage: nat, status: Status) {
    && w < |p.workers| && i < |p.slots| && p.slots[i].status == status
    && match p.workers[w]
       case Claim(k, _) => stage == 0 && k == i
       case LoadEntry(k) => stage == 1 && k == i
       case LoadLen(k, _) => stage == 2 && k == i
       case Execute(k, _, _) => stage == 3 && k == i
       case WriteBack(k, _) => stage == 4 && k == i
       case StoreResult(k, _) => stage == 5 && k == i
       case StoreDone(k) => stage == 6 && k == i
       case NotifyMain(k) => stage == 7 && k == i
       case _ => false
  }

  lemma Next(n: nat, events: seq<Event>, e: Event)
    ensures Run(n, events + [e]) == Step(Run(n, events), e)
  {
    hide Step, Inv;
    assert (events + [e])[..|events|] == events;
  }

  lemma SlotCount(p: Pool)
    requires Inv(p)
    ensures |p.slots| == JOB_COUNT
  {
  }

  /** Slot `i` is the first one with this status. */
  predicate IsFirst(p: Pool, i: nat, status: Status) {
    i < |p.slots| && p.slots[i].status == status && forall k | 0 <= k < i :: p.slots[k].status != status
  }

  /** A worker that sleeps is back at the start of its scan. */
  function Awoken(pc: WorkerPc): WorkerPc { if pc.Asleep? then Claim(0, true) else pc }

  /** Enqueue publishes in the first free slot, and wakes every worker that sleeps. */
  lemma Enqueues(n: nat, events: seq<Event>, i: nat, req: Request) returns (es: seq<Event>)
    requires WellFormed(req) && Run(n, events).main.Idle? && IsFirst(Run(n, events), i, Free)
    ensures var p, r := Run(n, events), Run(n, es);
            && events <= es && r.main.Idle? && i < |r.slots| == |p.slots| && r.slots[i].status == Ready
            && r.slots[i].job == |p.jobs| && (forall k | 0 <= k < |p.slots| && k != i :: r.slots[k] == p.slots[k])
            && r.jobs == p.jobs + [req] && r.replies == p.replies + [Enqueued(i, |p.jobs|)]
            && |r.workers| == |p.workers| && r.wake == (p.wake + 1) % 0x1_0000_0000
            && forall w | 0 <= w < |p.workers| :: r.workers[w] == Awoken(p.workers[w])
  {
    hide Run, Inv;
    var p := Run(n, events);
    SlotCount(p);
    es := events + [Enqueue(req)];
    Next(n, events, Enqueue(req));
    var k := 0;
    while k < i
      invariant 0 <= k <= i && events <= es && Run(n, es) == p.(main := Scan(k, req))
    {
      Next(n, es, Main);
      es := es + [Main];
      k := k + 1;
    }
    Next(n, es, Main);
    es := es + [Main];
    var step := 1;
    while step < 7
      invariant 1 <= step <= 7 && events <= es
      invariant Run(n, es) == p.(main := Fill(i, step, req), slots := Run(n, es).slots)
      invariant |Run(n, es).slots| == |p.slots|
      invariant forall k | 0 <= k < |p.slots| && k != i :: Run(n, es).slots[k] == p.slots[k]
    {
      Next(n, es, Main);
      es := es + [Main];
      step := step + 1;
    }
    Next(n, es, Main);
    es := es + [Main];
    Next(n, es, Main);
    es := es + [Main];
    Next(n, es, Main);
    es := es + [Main];
  }

  /** A scan comes to the first slot that is READY. */
  lemma Finds(n: nat, events: seq<Event>, w: nat, i: nat) returns (es: seq<Event>)
    requires var p := Run(n, events); WorkerAt(p, w, 0, 0, p.slots[0].status) && i <= |p.slots|
    requires forall k | 0 <= k < i :: Run(n, events).slots[k].status != Ready
    ensures var p, r := Run(n, events), Run(n, es);
            && events <= es && w < |r.workers| && r.workers[w] == Claim(i, p.workers[w].again)
            && r == p.(workers := p.workers[w := r.workers[w]])
  {
    hide Run, Inv;
    es := events;
    var p, scan, k := Run(n, events), Worker(w, [], false), 0;
    assert p.workers == p.workers[w := p.workers[w]];
    while k < i
      invariant 0 <= k <= i && events <= es
      invariant Run(n, es) == p.(workers := p.workers[w := Claim(k, p.workers[w].again)])
    {
      Next(n, es, scan);
      ScansOn(Run(n, es), w, k);
      es := es + [scan];
      k := k + 1;
      assert p.workers[w := Claim(k - 1, p.workers[w].again)][w := Claim(k, p.workers[w].again)] ==
             p.workers[w := Claim(k, p.workers[w].again)];
    }
  }

  lemma ScansOn(p: Pool, w: nat, k: nat)
    requires Inv(p) && w < |p.workers| && p.workers[w].Claim? && p.workers[w].i == k < |p.slots|
    requires p.slots[k].status != Ready
    ensures Step(p, Worker(w, [], false)) == p.(workers := p.workers[w := Claim(k + 1, p.workers[w].again)])
  {
    hide MainOk, SlotOk, WorkerOk;
  }

  /** The worker claims the slot, runs the job and hands the slot back. */
  lemma Works(n: nat, events: seq<Event>, w: nat, i: nat, memory: seq<bv8>) returns (es: seq<Event>, e: nat)
    requires Run(n, events).main.Idle? && WorkerAt(Run(n, events), w, i, 0, Ready)
    ensures var p, r := Run(n, events), Run(n, es);
            && events <= es && r.main.Idle? && WorkerAt(r, w, i, 7, Done) && r.slots[i].job == p.slots[i].job
            && r.jobs == p.jobs && r.replies == p.replies
            && e < |es| && Ran(n, es, e, p.slots[i].job, w, memory, false)
  {
    hide Run, Inv, Ran;
    es, e := events, 0;
    var p, run, stage := Run(n, events), Worker(w, memory, false), 0;
    while stage < 7
      invariant 0 <= stage <= 7 && events <= es && Run(n, es).main.Idle?
      invariant WorkerAt(Run(n, es), w, i, stage, if stage == 0 then Ready else if stage < 7 then Running else Done)
      invariant Run(n, es).slots[i].job == p.slots[i].job && Run(n, es).jobs == p.jobs
      invariant Run(n, es).replies == p.replies
      invariant stage > 3 ==> e < |es| && Ran(n, es, e, p.slots[i].job, w, memory, false)
    {
      Next(n, es, run);
      WorksOn(Run(n, es), w, i, stage, memory);
      if stage == 3 { e := |es|; RanNow(n, es, w, i, memory); }
      if stage > 3 { RanInPrefix(n, es, es + [run], e, p.slots[i].job, w, memory); }
      es := es + [run];
      stage := stage + 1;
    }
  }

  lemma RanNow(n: nat, events: seq<Event>, w: nat, i: nat, memory: seq<bv8>)
    requires WorkerAt(Run(n, events), w, i, 3, Running)
    ensures var es := events + [Worker(w, memory, false)];
            Ran(n, es, |events|, Run(n, events).slots[i].job, w, memory, false)
  {
    hide Run, Inv;
    var es := events + [Worker(w, memory, false)];
    assert es[..|events|] == events;
  }

  lemma RanInPrefix(n: nat, events: seq<Event>, es: seq<Event>, e: nat, job: nat, w: nat, memory: seq<bv8>)
    requires events <= es && e < |events| && Ran(n, events, e, job, w, memory, false)
    ensures Ran(n, es, e, job, w, memory, false)
  {
    hide Run, Inv;
    assert es[..e] == events[..e];
  }

  lemma WorksOn(p: Pool, w: nat, i: nat, stage: nat, memory: seq<bv8>)
    requires Inv(p) && p.main.Idle? && stage < 7
    requires WorkerAt(p, w, i, stage, if stage == 0 then Ready else Running)
    ensures var r := Step(p, Worker(w, memory, false));
            && WorkerAt(r, w, i, stage + 1, if stage < 6 then Running else Done) && r.main.Idle?
            && r.slots[i].job == p.slots[i].job && r.jobs == p.jobs && r.replies == p.replies
  {
    hide MainOk, SlotOk, Holds, Delivered, ExecutedOnce;
    assert WorkerOk(p, w);
  }

  /** Await takes the result. */
  lemma Awaits(n: nat, events: seq<Event>, i: nat) returns (es: seq<Event>)
    requires var p := Run(n, events); p.main.Idle? && i < |p.slots| && p.slots[i].status == Done
    ensures var p, r := Run(n, events), Run(n, es);
            && |es| > 0 && events <= es[..|es| - 1] && r == p.(main := Release(i), replies := r.replies)
            && Run(n, es[..|es| - 1]).replies == p.replies && Run(n, es[..|es| - 1]).jobs == p.jobs
            && |r.replies| == |p.replies| + 1 && r.replies[..|p.replies|] == p.replies
            && r.replies[|p.replies|].Reaped? && r.replies[|p.replies|].id == i
            && r.replies[|p.replies|].job == p.slots[i].job
  {
    hide Run, Inv;
    SlotCount(Run(n, events));
    Next(n, events, Await(i));
    es := events + [Await(i)];
    Next(n, es, Main);
    es := es + [Main];
    Next(n, es, Main);
    var before := es;
    es := es + [Main];
    assert es[..|es| - 1] == before;
  }

  /** And gives the slot back. */
  lemma Frees(n: nat, events: seq<Event>, i: nat) returns (es: seq<Event>)
    requires Run(n, events).main == Release(i)
    ensures var p, r := Run(n, events), Run(n, es);
            && events <= es && i < |p.slots| && p.slots[i].status == Done
            && r == p.(main := Idle, slots := p.slots[i := p.slots[i].(status := Free)])
  {
    hide Run, Inv;
    ReleasesDone(Run(n, events));
    Next(n, events, Main);
    es := events + [Main];
    Next(n, es, Main);
    es := es + [Main];
  }

  lemma ReleasesDone(p: Pool)
    requires Inv(p) && p.main.Release?
    ensures p.main.id < |p.slots| && p.slots[p.main.id].status == Done
  {
    assert MainOk(p);
  }

  /** Whenever the main thread is idle, some slot is free and some worker is at the start of
      its scan with nothing to do up to that slot, any request can be enqueued there, run and
      awaited; what comes back is what it left, and the slot is free again. */
  lemma JobCompletes(n: nat, events: seq<Event>, w: nat, i: nat, req: Request, memory: seq<bv8>)
    requires WellFormed(req) && Run(n, events).main.Idle? && IsFirst(Run(n, events), i, Free)
    requires w < |Run(n, events).workers| && Awoken(Run(n, events).workers[w]).Claim?
    requires Awoken(Run(n, events).workers[w]).i == 0
    requires forall k | 0 <= k < i :: Run(n, events).slots[k].status != Ready
    ensures exists more, bytes ::
              var p, r := Run(n, events), Run(n, events + more);
              && r.jobs == p.jobs + [req] && r.main.Idle? && i < |r.slots| && r.slots[i].status == Free
              && r.replies == p.replies + [Enqueued(i, |p.jobs|)] + [Reaped(i, |p.jobs|, bytes)]
              && |bytes| == 8
              && FirstBytes(bytes[..if req.len < 0 then 0 else if req.len < 8 then req.len else 8], req.len, memory)
  {
    hide Run, Inv, Ran, Records, FirstBytes;
    var p, job := Run(n, events), |Run(n, events).jobs|;
    var e1 := Enqueues(n, events, i, req);
    var e2 := Finds(n, e1, w, i);
    var e3, e := Works(n, e2, w, i, memory);
    var e4 := Awaits(n, e3, i);
    RanInPrefix(n, e3, e4, e, job, w, memory);
    AwaitCopiesOwnResult(n, e4);
    var es := Frees(n, e4, i);
    var more, r := es[|events|..], Run(n, es);
    assert events + more == es;
    var bytes := r.replies[|p.replies| + 1].bytes;
    assert r.replies == p.replies + [Enqueued(i, job)] + [Reaped(i, job, bytes)];
  }

  /** An await ends without a result only if it finds the slot free, or its time is out and the
      job is not done at that moment. */
  lemma AwaitGivesUp(p: Pool, e: Event)
    requires Inv(p) && (p.main.AwaitLoad? || p.main.AwaitSleep? || p.main.Sleeping? || p.main.TimedOut?)
    ensures var r, status := Step(p, e), p.slots[p.main.id].status;
            && r.replies == p.replies
            && (r.main.Idle? <==> e.Main? && if p.main.TimedOut? then status != Done
                                             else p.main.AwaitLoad? && status == Free)
            && (r.main.TimedOut? ==> p.main.TimedOut? || (p.main.Sleeping? && e.TimeOut?))
  {
    hide SlotOk, WorkerOk;
  }

  // ---- Workers that sleep ----

  /** The wake word counts the jobs, the one about to be announced excepted. */
  lemma {:induction false} WakeCountsJobs(n: nat, events: seq<Event>)
    ensures var p := Run(n, events);
            && p.wake == (|p.jobs| - if p.main.Wake? then 1 else 0) % 0x1_0000_0000
            && (p.main.Wake? ==> |p.jobs| > 0)
    decreases |events|
  {
    hide Step, Inv;
    if |events| > 0 {
      WakeCountsJobs(n, events[..|events| - 1]);
      StepWakes(Run(n, events[..|events| - 1]), events[|events| - 1]);
    }
  }

  /** Which steps publish a job, announce it and wake workers. */
  lemma StepWakes(p: Pool, e: Event)
    requires Inv(p)
    ensures var r := Step(p, e);
            if e.Main? && p.main.Fill? && p.main.step == 7 then
              r.main.Wake? && r.wake == p.wake && |r.jobs| == |p.jobs| + 1 && r.workers == p.workers
            else if e.Main? && p.main.Wake? then
              r == p.(wake := (p.wake + 1) % 0x1_0000_0000, main := NotifyWorkers(p.main.i))
            else if e.Main? && p.main.NotifyWorkers? then
              && r == p.(main := Idle, workers := r.workers) && |r.workers| == |p.workers|
              && forall w | 0 <= w < |p.workers| :: r.workers[w] == Awoken(p.workers[w])
            else
              && r.wake == p.wake && r.jobs == p.jobs && (r.main.Wake? <==> p.main.Wake?)
              && (r.main.NotifyWorkers? <==> p.main.NotifyWorkers?)
  {
    hide SlotOk, WorkerOk;
  }

  ghost predicate HasReady(p: Pool) { exists i :: 0 <= i < |p.slots| && p.slots[i].status == Ready }

  /** A worker that has found no job loads the wake word when there is one by now, and it is
      counted. */
  ghost predicate LateLoad(p: Pool, e: Event) {
    e.Worker? && e.w < |p.workers| && p.workers[e.w].LoadWake? && HasReady(p) && !p.main.Wake?
  }

  /** No worker is asleep, or will be, while there is a job, unless it is about to be woken. */
  ghost predicate Alert(p: Pool) {
    forall w | 0 <= w < |p.workers| ::
      && (p.workers[w].SleepOnWake? ==> p.workers[w].seen <= p.wake)
      && (p.workers[w].SleepOnWake? && p.workers[w].seen == p.wake && HasReady(p) ==> p.main.Wake?)
      && (p.workers[w].Asleep? && HasReady(p) ==> p.main.Wake? || p.main.NotifyWorkers?)
  }

  /** Only publishing makes a slot READY. */
  lemma ReadyComes(p: Pool, e: Event)
    requires Inv(p) && HasReady(Step(p, e))
    ensures HasReady(p) || (e.Main? && p.main.Fill? && p.main.step == 7)
  {
    hide SlotOk, WorkerOk;
    var r := Step(p, e);
    var i :| 0 <= i < |r.slots| && r.slots[i].status == Ready;
    assert p.slots[i].status == Ready || (e.Main? && p.main.Fill? && p.main.step == 7);
  }

  /** How a worker gets to sleep. */
  lemma StepSleeps(p: Pool, e: Event, w: nat)
    requires Inv(p) && w < |p.workers|
    ensures var r := Step(p, e);
            && |r.workers| == |p.workers|
            && (r.workers[w].SleepOnWake? ==>
                  r.workers[w] == p.workers[w]
                  || (e.Worker? && e.w == w && p.workers[w].LoadWake? && r.workers[w].seen == p.wake))
            && (r.workers[w].Asleep? ==>
                  (p.workers[w].Asleep? && !(e.Main? && p.main.NotifyWorkers?))
                  || (e.Worker? && e.w == w && p.workers[w] == SleepOnWake(p.wake)))
  {
    hide SlotOk, WorkerOk, MainOk;
  }

  lemma StepAlert(p: Pool, e: Event)
    requires Inv(p) && Alert(p) && !LateLoad(p, e) && (p.main.Wake? ==> p.wake + 1 < 0x1_0000_0000)
    ensures Alert(Step(p, e))
  {
    hide Inv, Step, Awoken;
    RecordsMatch(p);
    var r := Step(p, e);
    StepWakes(p, e);
    if HasReady(r) { ReadyComes(p, e); }
    StepCount(p, e);
    forall w | 0 <= w < |r.workers|
      ensures r.workers[w].SleepOnWake? ==> r.workers[w].seen <= r.wake
      ensures r.workers[w].SleepOnWake? && r.workers[w].seen == r.wake && HasReady(r) ==> r.main.Wake?
      ensures r.workers[w].Asleep? && HasReady(r) ==> r.main.Wake? || r.main.NotifyWorkers?
    {
      StepSleeps(p, e, w);
    }
  }

  lemma StepCount(p: Pool, e: Event)
    requires Inv(p)
    ensures |Step(p, e).workers| == |p.workers|
  {
    hide SlotOk, WorkerOk, MainOk;
  }

  lemma {:induction false} NoLateLoad(n: nat, events: seq<Event>)
    requires |Run(n, events).jobs| < 0x1_0000_0000
    requires forall k | 0 <= k < |events| :: !LateLoad(Run(n, events[..k]), events[k])
    ensures Alert(Run(n, events))
    decreases |events|
  {
    hide Inv, Step, LateLoad, Alert;
    if |events| == 0 {
      StartsAlert(n);
      assert events == [];
    } else {
      var last := |events| - 1;
      var before := events[..last];
      assert forall k | 0 <= k < last :: before[..k] == events[..k];
      var p := Run(n, before);
      JobsGrow(p, events[last]);
      NoLateLoad(n, before);
      WakeCountsJobs(n, before);
      assert !LateLoad(Run(n, events[..last]), events[last]);
      StepAlert(p, events[last]);
    }
  }

  lemma JobsGrow(p: Pool, e: Event)
    requires Inv(p)
    ensures |p.jobs| <= |Step(p, e).jobs|
  {
    hide Inv, Step;
    StepWakes(p, e);
  }

  lemma StartsAlert(n: nat)
    ensures Alert(Run(n, []))
  {
  }

  /** As long as the wake word has not wrapped, a worker sleeps through a job only if it, or
      another, loaded the wake word late. */
  lemma SleepNeedsALateLoad(n: nat, events: seq<Event>, w: nat)
    requires var p := Run(n, events);
             && |p.jobs| < 0x1_0000_0000 && HasReady(p) && w < |p.workers| && p.workers[w].Asleep?
             && !p.main.Wake? && !p.main.NotifyWorkers?
    ensures exists k :: 0 <= k < |events| && LateLoad(Run(n, events[..k]), events[k])
  {
    hide Inv, Run, LateLoad;
    if forall k | 0 <= k < |events| :: !LateLoad(Run(n, events[..k]), events[k]) { NoLateLoad(n, events); }
  }

  /** And it can: the only worker finds nothing, the job is published and announced, and the
      worker loads the wake word and goes to sleep. */
  lemma JobIsSleptThrough(req: Request)
    requires WellFormed(req)
    ensures exists events :: var p := Run(1, events);
              p.main.Idle? && |p.workers| == 1 && p.workers[0].Asleep? && |p.slots| > 0 && p.slots[0].status == Ready
  {
    hide Run, Inv, Step;
    StartsFree();
    var step := Worker(0, [], false);
    var e1 := Finds(1, [], 0, 32);
    var e2 := e1 + [step];
    Next(1, e1, step);
    LooksAtWake(Run(1, e1));
    var e3 := Enqueues(1, e2, 0, req);
    Next(1, e3, step);
    Next(1, e3 + [step], step);
    FallsAsleep(Run(1, e3));
    var events := e3 + [step] + [step];
    assert Run(1, events).workers[0].Asleep?;
  }

  lemma StartsFree()
    ensures var p := Run(1, []);
            && p.main.Idle? && p.workers == [Claim(0, false)] && |p.slots| == 32
            && forall k | 0 <= k < 32 :: p.slots[k].status == Free
  {
  }

  lemma LooksAtWake(p: Pool)
    requires Inv(p) && p.workers == [Claim(32, false)]
    ensures Step(p, Worker(0, [], false)) == p.(workers := [LoadWake])
  {
    hide SlotOk, WorkerOk, MainOk;
  }

  lemma FallsAsleep(p: Pool)
    requires Inv(p) && p.workers == [LoadWake]
    ensures var r := Step(p, Worker(0, [], false));
            && r == p.(workers := [SleepOnWake(p.wake)])
            && Inv(r) && Step(r, Worker(0, [], false)) == p.(workers := [Asleep])
  {
    hide SlotOk, WorkerOk, MainOk;
    StepKeeps(p, Worker(0, [], false));
  }

  /** No lost wake-up: when the main thread sleeps on a slot that is DONE, some worker is
      between its DONE store and its notify. */
  lemma NoLostWakeUp(n: nat, events: seq<Event>)
    ensures var p := Run(n, events);
            p.main.Sleeping? && p.slots[p.main.id].status == Done ==>
              exists w :: 0 <= w < |p.workers| && p.workers[w] == NotifyMain(p.main.id)
  {
    var p := Run(n, events);
    assert MainOk(p);
  }
}
