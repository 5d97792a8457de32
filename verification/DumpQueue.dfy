/** The queue between the threads that see requests and the worker that dumps them, with its shutdown.

    Producers append under a lock and then raise the item semaphore; the worker waits for the semaphore,
    takes the lock and removes the first item; the shutdown clears a flag, raises the semaphore once more,
    waits for the worker to exit and throws away what is left.  Every statement that touches shared state
    is one step, and steps of all threads interleave freely. */
module DumpQueue {

  /** Where the worker is. */
  datatype Worker =
    | Waiting              // at the item semaphore
    | Woken                // past it, before looking at the flag
    | Going                // saw the flag set, before the lock
    | Looking              // inside the lock
    | Holding(item: nat)   // took an item, still inside the lock
    | SawEmpty             // found nothing, still inside the lock
    | Dumping(item: nat)   // outside the lock again
    | Leaving              // saw the flag cleared
    | Gone                 // has signalled its exit

  datatype Producer =
    | Idle
    | Wanting(item: nat)   // before the lock
    | Adding(item: nat)    // inside the lock
    | Added                // inside the lock, item appended
    | Signalling           // outside the lock, before the item semaphore is raised

  datatype Shutdown =
    | NotYet
    | Stopped              // flag cleared
    | Raised               // item semaphore raised
    | Joined               // the worker's exit was seen
    | Finished             // list found empty

  datatype State = State(
    list: seq<nat>,
    items: nat,            // semItemsQueued
    lock: nat,             // semListAccess
    exit: nat,             // semExitSignal
    go: bool,              // oContinue
    worker: Worker,
    producers: seq<Producer>,
    shutdown: Shutdown,
    enqueued: seq<nat>,    // histories
    processed: seq<nat>,
    discarded: seq<nat>)

  datatype Step =
    | WorkerDown | WorkerTest | WorkerLock | WorkerTake | WorkerUnlock | WorkerDump | WorkerExit
    | Produce(p: nat, item: nat) | Lock(p: nat) | Append(p: nat) | Unlock(p: nat) | Signal(p: nat)
    | Stop | Raise | Join | Discard | Finish

  function Idles(n: nat): seq<Producer> {
    if n == 0 then [] else [Idle] + Idles(n - 1)
  }

  function Start(threads: nat): State {
    State([], 0, 1, 0, true, Waiting, Idles(threads), NotYet, [], [], [])
  }

  predicate At(s: State, p: nat) {
    p < |s.producers|
  }

  predicate Enabled(s: State, step: Step) {
    match step
    case WorkerDown => s.worker == Waiting && s.items > 0
    case WorkerTest => s.worker == Woken
    case WorkerLock => s.worker == Going && s.lock > 0
    case WorkerTake => s.worker == Looking
    case WorkerUnlock => s.worker.Holding? || s.worker == SawEmpty
    case WorkerDump => s.worker.Dumping?
    case WorkerExit => s.worker == Leaving
    case Produce(p, item) => At(s, p) && s.producers[p] == Idle
    case Lock(p) => At(s, p) && s.producers[p].Wanting? && s.lock > 0
    case Append(p) => At(s, p) && s.producers[p].Adding?
    case Unlock(p) => At(s, p) && s.producers[p] == Added
    case Signal(p) => At(s, p) && s.producers[p] == Signalling
    case Stop => s.shutdown == NotYet
    case Raise => s.shutdown == Stopped
    case Join => s.shutdown == Raised && s.exit > 0
    case Discard => s.shutdown == Joined && s.list != []
    case Finish => s.shutdown == Joined && s.list == []
  }

  function Moved(s: State, p: nat, to: Producer): State
    requires At(s, p)
  {
    s.(producers := s.producers[p := to])
  }

  function Next(s: State, step: Step): State
    requires Enabled(s, step)
  {
    match step
    case WorkerDown => s.(items := s.items - 1, worker := Woken)
    case WorkerTest => s.(worker := if s.go then Going else Leaving)
    case WorkerLock => s.(lock := s.lock - 1, worker := Looking)
    case WorkerTake =>
      if s.list == [] then s.(worker := SawEmpty) else s.(worker := Holding(s.list[0]), list := s.list[1..])
    case WorkerUnlock =>
      s.(lock := s.lock + 1, worker := if s.worker == SawEmpty then Waiting else Dumping(s.worker.item))
    case WorkerDump => s.(processed := s.processed + [s.worker.item], worker := Waiting)
    case WorkerExit => s.(exit := s.exit + 1, worker := Gone)
    case Produce(p, item) => Moved(s, p, Wanting(item))
    case Lock(p) => Moved(s, p, Adding(s.producers[p].item)).(lock := s.lock - 1)
    case Append(p) =>
      Moved(s, p, Added).(list := s.list + [s.producers[p].item], enqueued := s.enqueued + [s.producers[p].item])
    case Unlock(p) => Moved(s, p, Signalling).(lock := s.lock + 1)
    case Signal(p) => Moved(s, p, Idle).(items := s.items + 1)
    case Stop => s.(go := false, shutdown := Stopped)
    case Raise => s.(items := s.items + 1, shutdown := Raised)
    case Join => s.(exit := s.exit - 1, shutdown := Joined)
    case Discard => s.(discarded := s.discarded + [s.list[0]], list := s.list[1..])
    case Finish => s.(shutdown := Finished)
  }

  // ---------- the invariant

  function Owes(p: Producer): nat {
    if p == Added || p == Signalling then 1 else 0
  }

  function Inside(p: Producer): nat {
    if p.Adding? || p == Added then 1 else 0
  }

  /** Producers that have appended an item but not yet raised the semaphore for it. */
  ghost function Owed(ps: seq<Producer>): nat {
    if ps == [] then 0 else Owes(ps[0]) + Owed(ps[1..])
  }

  /** Producers inside the lock. */
  ghost function Insiders(ps: seq<Producer>): nat {
    if ps == [] then 0 else Inside(ps[0]) + Insiders(ps[1..])
  }

  /** The worker has passed the semaphore but removed nothing for it. */
  function Claim(w: Worker): nat {
    if w == Woken || w == Going || w == Looking || w == Leaving || w == Gone then 1 else 0
  }

  function WorkerInside(w: Worker): nat {
    if w == Looking || w.Holding? || w == SawEmpty then 1 else 0
  }

  function InHand(w: Worker): seq<nat> {
    if w.Holding? || w.Dumping? then [w.item] else []
  }

  function Extra(d: Shutdown): nat {
    if d == NotYet || d == Stopped then 0 else 1
  }

  function JoinedBy(d: Shutdown): nat {
    if d == Joined || d == Finished then 1 else 0
  }

  /** Semaphore, claims and items owed account exactly for the list. */
  ghost predicate Accounts(s: State) {
    s.items + Claim(s.worker) + Owed(s.producers) == |s.list| + Extra(s.shutdown) + |s.discarded|
  }

  /** One thread at a time is inside the lock. */
  ghost predicate Exclusive(s: State) {
    s.lock + WorkerInside(s.worker) + Insiders(s.producers) == 1
  }

  /** Every item ever queued is processed, in hand, thrown away or still listed, in queue order. */
  ghost predicate Conserved(s: State) {
    s.enqueued == s.processed + InHand(s.worker) + s.discarded + s.list
  }

  ghost predicate Inv(s: State) {
    && Accounts(s) && Exclusive(s) && Conserved(s)
    && s.worker != SawEmpty
    && (s.go <==> s.shutdown == NotYet)
    && (s.worker == Leaving || s.worker == Gone ==> !s.go)
    && s.exit + JoinedBy(s.shutdown) == (if s.worker == Gone then 1 else 0)
    && ((s.worker == Going || s.worker == Looking) && Extra(s.shutdown) == 1 ==> s.items > 0)
    && (s.discarded != [] ==> s.worker == Gone)
  }

  lemma {:induction false} Updated(ps: seq<Producer>, p: nat, to: Producer)
    requires p < |ps|
    ensures Owed(ps[p := to]) == Owed(ps) - Owes(ps[p]) + Owes(to)
    ensures Insiders(ps[p := to]) == Insiders(ps) - Inside(ps[p]) + Inside(to)
  {
    if p == 0 {
      assert ps[p := to][1..] == ps[1..];
    } else {
      assert ps[p := to][1..] == ps[1..][p - 1 := to];
      Updated(ps[1..], p - 1, to);
    }
  }

  lemma {:induction false} AllIdle(n: nat)
    ensures Owed(Idles(n)) == 0 && Insiders(Idles(n)) == 0
  {
    if n > 0 {
      AllIdle(n - 1);
      assert Idles(n)[1..] == Idles(n - 1);
    }
  }

  lemma {:induction false} StartInv(threads: nat)
    ensures Inv(Start(threads))
  {
    AllIdle(threads);
  }

  lemma {:induction false} WorkerKeepsInv(s: State, step: Step)
    requires Inv(s) && Enabled(s, step)
    requires step == WorkerDown || step == WorkerTest || step == WorkerLock || step == WorkerUnlock
             || step == WorkerExit
    ensures Inv(Next(s, step))
  {
  }

  lemma {:induction false} TakeKeepsInv(s: State)
    requires Inv(s) && Enabled(s, WorkerTake)
    ensures Inv(Next(s, WorkerTake))
  {
    assert s.list == [s.list[0]] + s.list[1..];
  }

  lemma {:induction false} DumpKeepsInv(s: State)
    requires Inv(s) && Enabled(s, WorkerDump)
    ensures Inv(Next(s, WorkerDump))
  {
    var x := [s.worker.item];
    assert s.processed + x + s.discarded + s.list == (s.processed + x) + [] + s.discarded + s.list;
  }

  lemma {:induction false} ProducerKeepsInv(s: State, step: Step)
    requires Inv(s) && Enabled(s, step)
    requires step.Produce? || step.Lock? || step.Unlock? || step.Signal?
    ensures Inv(Next(s, step))
  {
    Updated(s.producers, step.p, Next(s, step).producers[step.p]);
  }

  lemma {:induction false} AppendKeepsInv(s: State, p: nat)
    requires Inv(s) && Enabled(s, Append(p))
    ensures Inv(Next(s, Append(p)))
  {
    Updated(s.producers, p, Added);
  }

  lemma {:induction false} ShutdownKeepsInv(s: State, step: Step)
    requires Inv(s) && Enabled(s, step)
    requires step == Stop || step == Raise || step == Join || step == Finish
    ensures Inv(Next(s, step))
  {
  }

  lemma {:induction false} DiscardKeepsInv(s: State)
    requires Inv(s) && Enabled(s, Discard)
    ensures Inv(Next(s, Discard))
  {
    assert s.list == [s.list[0]] + s.list[1..];
  }

  lemma {:induction false} StepKeepsInv(s: State, step: Step)
    requires Inv(s) && Enabled(s, step)
    ensures Inv(Next(s, step))
  {
    match step
    case WorkerDown => WorkerKeepsInv(s, step);
    case WorkerTest => WorkerKeepsInv(s, step);
    case WorkerLock => WorkerKeepsInv(s, step);
    case WorkerTake => TakeKeepsInv(s);
    case WorkerUnlock => WorkerKeepsInv(s, step);
    case WorkerDump => DumpKeepsInv(s);
    case WorkerExit => WorkerKeepsInv(s, step);
    case Produce(_, _) => ProducerKeepsInv(s, step);
    case Lock(_) => ProducerKeepsInv(s, step);
    case Append(p) => AppendKeepsInv(s, p);
    case Unlock(_) => ProducerKeepsInv(s, step);
    case Signal(_) => ProducerKeepsInv(s, step);
    case Stop => ShutdownKeepsInv(s, step);
    case Raise => ShutdownKeepsInv(s, step);
    case Join => ShutdownKeepsInv(s, step);
    case Discard => DiscardKeepsInv(s);
    case Finish => ShutdownKeepsInv(s, step);
  }

  // ---------- runs

  ghost predicate Run(states: seq<State>, steps: seq<Step>, threads: nat) {
    && |states| == |steps| + 1 && states[0] == Start(threads)
    && forall i :: 0 <= i < |steps| ==> Enabled(states[i], steps[i]) && states[i + 1] == Next(states[i], steps[i])
  }

  lemma {:induction false} RunKeepsInv(states: seq<State>, steps: seq<Step>, threads: nat, i: nat)
    requires Run(states, steps, threads) && i < |states|
    ensures Inv(states[i])
  {
    if i == 0 {
      StartInv(threads);
    } else {
      RunKeepsInv(states, steps, threads, i - 1);
      StepKeepsInv(states[i - 1], steps[i - 1]);
    }
  }

  /** Whenever the worker looks, the list is not empty. */
  lemma {:induction false} NeverSeesEmpty(states: seq<State>, steps: seq<Step>, threads: nat, i: nat)
    requires Run(states, steps, threads) && i < |states| && states[i].worker == Looking
    ensures states[i].list != []
  {
    RunKeepsInv(states, steps, threads, i);
  }

  /** At every moment of every run the items were processed in the order in which they were queued, those
      thrown away come after all processed ones and only once the worker is gone, and every item is in
      exactly as many places as it was queued times. */
  lemma {:induction false} InQueueOrder(states: seq<State>, steps: seq<Step>, threads: nat, i: nat)
    requires Run(states, steps, threads) && i < |states|
    ensures var s := states[i];
            && s.enqueued == s.processed + InHand(s.worker) + s.discarded + s.list
            && s.worker != SawEmpty
            && (s.discarded != [] ==> s.worker == Gone && s.enqueued == s.processed + s.discarded + s.list)
            && forall item :: multiset(s.enqueued)[item] ==
                 multiset(s.processed)[item] + multiset(InHand(s.worker))[item]
                 + multiset(s.discarded)[item] + multiset(s.list)[item]
  {
    RunKeepsInv(states, steps, threads, i);
  }

  /** The lock is never held twice, and the shutdown sees the worker's exit only after it. */
  lemma {:induction false} OneInside(s: State, p: nat, q: nat)
    requires Inv(s) && p < q < |s.producers|
    ensures Inside(s.producers[p]) + Inside(s.producers[q]) + WorkerInside(s.worker) <= 1
  {
    InsidersAt(s.producers, p, q);
  }

  lemma {:induction false} InsidersAt(ps: seq<Producer>, p: nat, q: nat)
    requires p < q < |ps|
    ensures Inside(ps[p]) + Inside(ps[q]) <= Insiders(ps)
  {
    if p > 0 {
      InsidersAt(ps[1..], p - 1, q - 1);
    } else {
      InsiderAt(ps[1..], q - 1);
    }
  }

  lemma {:induction false} InsiderAt(ps: seq<Producer>, q: nat)
    requires q < |ps|
    ensures Inside(ps[q]) <= Insiders(ps)
  {
    if q > 0 {
      InsiderAt(ps[1..], q - 1);
    }
  }

  // ---------- no thread waits forever

  lemma {:induction false} FindOwing(ps: seq<Producer>) returns (p: nat)
    requires Owed(ps) > 0
    ensures p < |ps| && Owes(ps[p]) == 1
  {
    if Owes(ps[0]) == 1 {
      p := 0;
    } else {
      var q := FindOwing(ps[1..]);
      p := q + 1;
    }
  }

  lemma {:induction false} FindInsider(ps: seq<Producer>) returns (p: nat)
    requires Insiders(ps) > 0
    ensures p < |ps| && Inside(ps[p]) == 1
  {
    if Inside(ps[0]) == 1 {
      p := 0;
    } else {
      var q := FindInsider(ps[1..]);
      p := q + 1;
    }
  }

  /** A step that neither starts a new request nor the shutdown. */
  predicate Ongoing(step: Step) {
    !step.Produce? && step != Stop
  }

  /** As long as the list holds something, or the shutdown has begun and has not finished, some thread can
      go on. */
  lemma {:induction false} NeverStuck(s: State) returns (step: Step)
    requires Inv(s) && (if s.shutdown == NotYet then s.list != [] else s.shutdown != Finished)
    ensures Ongoing(step) && Enabled(s, step)
  {
    if s.shutdown == Stopped {
      step := Raise;
    } else if s.shutdown == Joined {
      step := if s.list == [] then Finish else Discard;
    } else if s.worker == Gone {
      step := Join;
    } else if s.worker == Waiting {
      step := WakeWorker(s);
    } else if s.worker == Going && s.lock == 0 {
      var p := FindInsider(s.producers);
      step := if s.producers[p] == Added then Unlock(p) else Append(p);
    } else {
      step := match s.worker
        case Woken => WorkerTest
        case Going => WorkerLock
        case Looking => WorkerTake
        case Dumping(_) => WorkerDump
        case Leaving => WorkerExit
        case _ => WorkerUnlock;
    }
  }

  lemma {:induction false} WakeWorker(s: State) returns (step: Step)
    requires Inv(s) && s.worker == Waiting && |s.list| + Extra(s.shutdown) > 0
    ensures Ongoing(step) && Enabled(s, step)
  {
    if s.items > 0 {
      step := WorkerDown;
    } else {
      var p := FindOwing(s.producers);
      step := if s.producers[p] == Added then Unlock(p) else Signal(p);
    }
  }

  function ProducerWork(p: Producer): nat {
    match p
    case Idle => 0
    case Wanting(_) => 12
    case Adding(_) => 11
    case Added => 9
    case Signalling => 8
  }

  ghost function ProducersWork(ps: seq<Producer>): nat {
    if ps == [] then 0 else ProducerWork(ps[0]) + ProducersWork(ps[1..])
  }

  function WorkerWork(w: Worker): nat {
    match w
    case Waiting => 0
    case Woken => 6
    case Going => 5
    case Looking => 4
    case Holding(_) => 3
    case SawEmpty => 3
    case Dumping(_) => 2
    case Leaving => 2
    case Gone => 0
  }

  function ShutdownWork(d: Shutdown): nat {
    match d
    case NotYet => 0
    case Stopped => 11
    case Raised => 3
    case Joined => 2
    case Finished => 0
  }

  /** How much is left to do. */
  ghost function Work(s: State): nat {
    7 * s.items + |s.list| + ProducersWork(s.producers) + WorkerWork(s.worker) + ShutdownWork(s.shutdown)
  }

  lemma {:induction false} WorkUpdated(ps: seq<Producer>, p: nat, to: Producer)
    requires p < |ps|
    ensures ProducersWork(ps[p := to]) == ProducersWork(ps) - ProducerWork(ps[p]) + ProducerWork(to)
  {
    if p == 0 {
      assert ps[p := to][1..] == ps[1..];
    } else {
      assert ps[p := to][1..] == ps[1..][p - 1 := to];
      WorkUpdated(ps[1..], p - 1, to);
    }
  }

  lemma {:induction false} StepReducesWork(s: State, step: Step)
    requires Enabled(s, step) && Ongoing(step)
    ensures Work(Next(s, step)) < Work(s)
  {
    match step
    case Lock(p) => WorkUpdated(s.producers, p, Next(s, step).producers[p]);
    case Append(p) => WorkUpdated(s.producers, p, Added);
    case Unlock(p) => WorkUpdated(s.producers, p, Signalling);
    case Signal(p) => WorkUpdated(s.producers, p, Idle);
    case _ =>
  }

  /** Without new requests only finitely many steps are left.  By NeverStuck, these empty the list, and once
      the shutdown has begun they finish it. */
  lemma {:induction false} Ends(states: seq<State>, steps: seq<Step>)
    requires |states| == |steps| + 1
    requires forall i :: 0 <= i < |steps| ==>
               Ongoing(steps[i]) && Enabled(states[i], steps[i]) && states[i + 1] == Next(states[i], steps[i])
    ensures |steps| + Work(states[|steps|]) <= Work(states[0])
  {
    if steps != [] {
      StepReducesWork(states[0], steps[0]);
      Ends(states[1..], steps[1..]);
    }
  }
}
