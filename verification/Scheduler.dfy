/**
 The lifeline scheduler of src/scheduler.rs as a step machine: task accounting, termination
 detection, and the park/wake protocol around the `park` mutex and its condition variable.

 One step is one access to shared state. Deques and inboxes are atomic objects, except that an
 inbox send has the two visible halves of a Jiffy enqueue: the slot is claimed, then filled. Which
 victims a thief probes, how many it probes before giving up, and whether a probe fails although
 the victim has work, are free choices. What a task body spawns is a free choice too.
 */
module Scheduler {
  import opened Numbers

  /** Where a worker goes after a task: back to its own deque or to the top of the loop. */
  datatype After = Leave | Loop(own: bool)

  datatype Pc =
    | Draining                                                  // inbox.dequeue
    | Moving(t: nat)                                            // deque.push of a drained task
    | Popping(did: bool)                                        // deque.pop
    | Running(t: nat, own: bool)                                // inside the task closure
    | Pushing(t: nat, own: bool, child: nat)                    // spawn: counted, deque.push next
    | Sending(t: nat, own: bool, child: nat, target: nat)       // spawn_at: counted, claim a slot next
    | Filling(t: nat, own: bool, child: nat, target: nat)       // spawn_at: claimed, fill it next
    | SignalLock(t: nat, own: bool)                             // signal_work: lock
    | SignalHeld(t: nat, own: bool)                             // bump the generation, unlock
    | SignalNotify(t: nat, own: bool)                           // notify_all
    | Probing                                                   // try_steal
    | Batching(first: nat, victim: nat)                         // one stolen, maybe more
    | Keeping(first: nat, victim: nat, extra: nat)              // deque.push of a further one
    | Checking                                                  // load outstanding
    | DeclareLock(next: After) | DeclareHeld(next: After) | DeclareNotify(next: After)
    | ParkLock                                                  // lock
    | ParkTerminated                                            // under the lock: terminated?
    | ParkCount                                                 // under the lock: outstanding == 0?
    | ParkInbox                                                 // under the lock: inbox empty?
    | ParkSleep                                                 // snapshot the generation and wait
    | Asleep(seen: nat, notified: bool)
    | Exited

  /** An inbox slot: claimed by a producer, and filled once `ready`. */
  datatype Entry = Entry(task: nat, ready: bool)

  datatype Worker = Worker(pc: Pc, deque: seq<nat>, inbox: seq<Entry>)

  /** `created` and `ran` record which tasks exist and which have finished; no step depends on them. */
  datatype State = State(
    workers: seq<Worker>,
    outstanding: int,
    generation: nat,
    terminated: bool,
    lock: Option<nat>,
    created: nat,
    ran: seq<nat>)

  datatype Step =
    | Go(w: nat)                        // the next step, where there is only one
    | Spawn(w: nat)                     // the body calls spawn
    | SpawnAt(w: nat, hint: nat)        // the body calls spawn_at
    | Finish(w: nat)                    // the body returns
    | Probe(w: nat, victim: nat)        // a steal that succeeds
    | GiveUp(w: nat)                    // try_steal returns None
    | TakeMore(w: nat)                  // the batch takes another one
    | StopBatch(w: nat)
    | Wake(w: nat)                      // return from the condition variable

  function Tasks(inbox: seq<Entry>): (r: seq<nat>)
    ensures |r| == |inbox|
  {
    seq(|inbox|, i requires 0 <= i < |inbox| => inbox[i].task)
  }

  function Fill(inbox: seq<Entry>, task: nat): (r: seq<Entry>)
    ensures |r| == |inbox| && Tasks(r) == Tasks(inbox)
  {
    seq(|inbox|, i requires 0 <= i < |inbox| => if inbox[i].task == task then Entry(task, true) else inbox[i])
  }

  function Put(s: State, w: nat, pc: Pc): State
    requires w < |s.workers|
  {
    s.(workers := s.workers[w := s.workers[w].(pc := pc)])
  }

  ghost predicate WantsLock(pc: Pc) {
    pc.SignalLock? || pc.DeclareLock? || pc.ParkLock?
  }

  ghost predicate HasLock(pc: Pc) {
    pc.SignalHeld? || pc.DeclareHeld? || pc.ParkTerminated? || pc.ParkCount? || pc.ParkInbox? || pc.ParkSleep?
  }

  ghost predicate Forced(pc: Pc) {
    !pc.Running? && !pc.Probing? && !pc.Batching? && !pc.Asleep? && !pc.Exited?
  }

  ghost predicate Enabled(s: State, st: Step) {
    && st.w < |s.workers|
    && var pc := s.workers[st.w].pc;
       match st
       case Go(w) => Forced(pc) && (WantsLock(pc) ==> s.lock.None?)
       case Spawn(w) => pc.Running?
       case SpawnAt(w, hint) => pc.Running?
       case Finish(w) => pc.Running?
       case Probe(w, victim) => pc.Probing? && victim < |s.workers| && victim != w && s.workers[victim].deque != []
       case GiveUp(w) => pc.Probing?
       case TakeMore(w) => pc.Batching? && pc.victim < |s.workers| && pc.victim != w && s.workers[pc.victim].deque != []
       case StopBatch(w) => pc.Batching?
       case Wake(w) => pc.Asleep? && s.lock.None?
  }

  function Dest(next: After): Pc {
    match next
    case Leave => Exited
    case Loop(own) => if own then Popping(true) else Draining
  }

  /** `inbox.dequeue`: the oldest slot if it is filled. */
  function Drain(s: State, w: nat): State
    requires w < |s.workers|
  {
    var me := s.workers[w];
    if me.inbox != [] && me.inbox[0].ready
    then s.(workers := s.workers[w := me.(pc := Moving(me.inbox[0].task), inbox := me.inbox[1..])])
    else Put(s, w, Popping(false))
  }

  function PushOwn(s: State, w: nat, t: nat, pc: Pc): State
    requires w < |s.workers|
  {
    var me := s.workers[w];
    s.(workers := s.workers[w := me.(pc := pc, deque := me.deque + [t])])
  }

  function PopOwn(s: State, w: nat, did: bool): State
    requires w < |s.workers|
  {
    var me := s.workers[w];
    var n := |me.deque|;
    if n > 0
    then s.(workers := s.workers[w := me.(pc := Running(me.deque[n - 1], true), deque := me.deque[..n - 1])])
    else Put(s, w, if did then Draining else Probing)
  }

  function Claim(s: State, w: nat, t: nat, own: bool, child: nat, target: nat): State
    requires w < |s.workers|
  {
    var s1 := Put(s, w, Filling(t, own, child, target));
    if target < |s1.workers|
    then var peer := s1.workers[target];
         s1.(workers := s1.workers[target := peer.(inbox := peer.inbox + [Entry(child, false)])])
    else s1
  }

  function FillSlot(s: State, w: nat, t: nat, own: bool, child: nat, target: nat): State
    requires w < |s.workers|
  {
    var s1 := Put(s, w, SignalLock(t, own));
    if target < |s1.workers|
    then var peer := s1.workers[target];
         s1.(workers := s1.workers[target := peer.(inbox := Fill(peer.inbox, child))])
    else s1
  }

  /** `notify_all`. */
  function NotifyAll(ws: seq<Worker>): (r: seq<Worker>)
    ensures |r| == |ws|
    ensures forall i :: 0 <= i < |ws| ==>
      r[i] == if ws[i].pc.Asleep? then ws[i].(pc := Asleep(ws[i].pc.seen, true)) else ws[i]
  {
    seq(|ws|, i requires 0 <= i < |ws| =>
      if ws[i].pc.Asleep? then ws[i].(pc := Asleep(ws[i].pc.seen, true)) else ws[i])
  }

  function ParkTail(s: State, w: nat, pc: Pc): State
    requires w < |s.workers|
  {
    match pc
    case ParkTerminated => if s.terminated then Put(s.(lock := None), w, Exited) else Put(s, w, ParkCount)
    case ParkCount => if s.outstanding == 0 then Put(s.(lock := None), w, Exited) else Put(s, w, ParkInbox)
    case ParkInbox => if s.workers[w].inbox != [] then Put(s.(lock := None), w, Draining) else Put(s, w, ParkSleep)
    case _ => Put(s.(lock := None), w, if s.terminated then Exited else Asleep(s.generation, false))
  }

  function Advance(s: State, w: nat): State
    requires w < |s.workers|
  {
    match s.workers[w].pc
    case Draining => Drain(s, w)
    case Moving(t) => PushOwn(s, w, t, Draining)
    case Popping(did) => PopOwn(s, w, did)
    case Pushing(t, own, child) => PushOwn(s, w, child, SignalLock(t, own))
    case Sending(t, own, child, target) => Claim(s, w, t, own, child, target)
    case Filling(t, own, child, target) => FillSlot(s, w, t, own, child, target)
    case SignalLock(t, own) => Put(s.(lock := Some(w)), w, SignalHeld(t, own))
    case SignalHeld(t, own) => Put(s.(lock := None, generation := s.generation + 1), w, SignalNotify(t, own))
    case SignalNotify(t, own) => Put(s.(workers := NotifyAll(s.workers)), w, Running(t, own))
    case Keeping(first, victim, extra) => PushOwn(s, w, extra, Batching(first, victim))
    case Checking => Put(s, w, if s.outstanding == 0 then DeclareLock(Leave) else ParkLock)
    case DeclareLock(next) => Put(s.(lock := Some(w)), w, DeclareHeld(next))
    case DeclareHeld(next) => Put(s.(lock := None, terminated := true), w, DeclareNotify(next))
    case DeclareNotify(next) => Put(s.(workers := NotifyAll(s.workers)), w, Dest(next))
    case ParkLock => Put(s.(lock := Some(w)), w, ParkTerminated)
    case _ => ParkTail(s, w, s.workers[w].pc)
  }

  /** `outstanding.fetch_add(1)` for a new task. */
  function CountTask(s: State, w: nat, pc: Pc): State
    requires w < |s.workers|
  {
    Put(s.(outstanding := s.outstanding + 1, created := s.created + 1), w, pc)
  }

  function Min(a: nat, b: nat): nat { if a < b then a else b }

  /** `finish_task`. */
  function FinishTask(s: State, w: nat, t: nat, own: bool): State
    requires w < |s.workers|
  {
    Put(s.(outstanding := s.outstanding - 1, ran := s.ran + [t]), w,
        if s.outstanding == 1 then DeclareLock(Loop(own)) else Dest(Loop(own)))
  }

  /** A single steal from the front of the victim's deque. */
  function Steal(s: State, w: nat, victim: nat, pc: nat -> Pc): State
    requires w < |s.workers| && victim < |s.workers| && s.workers[victim].deque != []
  {
    var from := s.workers[victim];
    Put(s.(workers := s.workers[victim := from.(deque := from.deque[1..])]), w, pc(from.deque[0]))
  }

  /** Reacquire the lock, test the wait condition, and release the lock again. */
  function WakeUp(s: State, w: nat, seen: nat): State
    requires w < |s.workers|
  {
    Put(s, w,
        if seen == s.generation && !s.terminated then Asleep(seen, false)
        else if s.terminated then Exited else Draining)
  }

  function Apply(s: State, st: Step): State
    requires Enabled(s, st)
  {
    var pc := s.workers[st.w].pc;
    match st
    case Go(w) => Advance(s, w)
    case Spawn(w) => CountTask(s, w, Pushing(pc.t, pc.own, s.created))
    case SpawnAt(w, hint) =>
      var target := Min(hint, |s.workers| - 1);
      if target == w then CountTask(s, w, Pushing(pc.t, pc.own, s.created))
      else CountTask(s, w, Sending(pc.t, pc.own, s.created, target))
    case Finish(w) => FinishTask(s, w, pc.t, pc.own)
    case Probe(w, victim) => Steal(s, w, victim, (x: nat) => Batching(x, victim))
    case GiveUp(w) => Put(s, w, Checking)
    case TakeMore(w) => Steal(s, w, pc.victim, (x: nat) => Keeping(pc.first, pc.victim, x))
    case StopBatch(w) => Put(s, w, Running(pc.first, false))
    case Wake(w) => WakeUp(s, w, pc.seen)
  }

  // ---------------------------------------------------------------- the invariant

  /** How often a worker holds task `x` outside its deque and inbox. */
  function Held(pc: Pc, x: nat): nat {
    match pc
    case Moving(t) => Is(t, x)
    case Running(t, _) => Is(t, x)
    case Pushing(t, _, child) => Is(t, x) + Is(child, x)
    case Sending(t, _, child, _) => Is(t, x) + Is(child, x)
    case Filling(t, _, _, _) => Is(t, x)
    case SignalLock(t, _) => Is(t, x)
    case SignalHeld(t, _) => Is(t, x)
    case SignalNotify(t, _) => Is(t, x)
    case Batching(first, _) => Is(first, x)
    case Keeping(first, _, extra) => Is(first, x) + Is(extra, x)
    case _ => 0
  }

  function Holdings(w: Worker, x: nat): nat {
    Occ(w.deque, x) + Occ(Tasks(w.inbox), x) + Held(w.pc, x)
  }

  /** How often task `x` is still to be run, wherever it is. */
  function Pending(ws: seq<Worker>, x: nat): nat {
    if ws == [] then 0 else Pending(ws[..|ws| - 1], x) + Holdings(ws[|ws| - 1], x)
  }

  /** Accounting for one task: once created it is held in one place, or has run, once. */
  ghost predicate LedgerAt(s: State, x: nat) {
    Pending(s.workers, x) + Occ(s.ran, x) == if x < s.created then 1 else 0
  }

  ghost predicate Ledger(s: State) {
    && s.outstanding == s.created - |s.ran|
    && forall x: nat :: LedgerAt(s, x)
  }

  ghost predicate InRange(s: State, pc: Pc) {
    match pc
    case Sending(_, _, _, target) => target < |s.workers|
    case Filling(_, _, _, target) => target < |s.workers|
    case _ => true
  }

  /** The deque of a worker between a failed pop and sleep is empty. */
  ghost predicate Idling(pc: Pc) {
    pc.Probing? || pc.Checking? || pc.ParkLock? || pc.ParkTerminated? || pc.ParkCount? || pc.ParkInbox?
    || pc.ParkSleep? || pc.Asleep?
  }

  ghost predicate WorkerOk(s: State, i: nat)
    requires i < |s.workers|
  {
    var w := s.workers[i];
    && InRange(s, w.pc)
    && (Idling(w.pc) ==> w.deque == [])
    && (w.pc.DeclareLock? || w.pc.DeclareHeld? || w.pc.Exited? ==> s.outstanding == 0)
    && (w.pc.DeclareNotify? ==> s.terminated)
    && (w.pc.Asleep? ==> w.pc.seen <= s.generation)
    && (HasLock(w.pc) <==> s.lock == Some(i))
  }

  ghost predicate Declaring(pc: Pc) { pc.DeclareLock? || pc.DeclareHeld? }

  /** A deposit whose generation bump is still to come. */
  ghost predicate Signalling(pc: Pc) { pc.Filling? || pc.SignalLock? || pc.SignalHeld? }

  ghost predicate Notifying(pc: Pc) { pc.SignalNotify? || pc.DeclareNotify? }

  /** No lost wakeup: a sleeper whose wait condition still holds has an empty inbox or a signal on
      its way, and one whose condition has changed has been notified or is about to be. */
  ghost predicate WakeOk(s: State, i: nat)
    requires i < |s.workers|
  {
    var w := s.workers[i];
    && (w.pc.ParkSleep? || (w.pc.Asleep? && w.pc.seen == s.generation && !s.terminated) ==>
          w.inbox == [] || exists u :: 0 <= u < |s.workers| && Signalling(s.workers[u].pc))
    && (w.pc.Asleep? && !w.pc.notified && (w.pc.seen != s.generation || s.terminated) ==>
          exists u :: 0 <= u < |s.workers| && Notifying(s.workers[u].pc))
  }

  ghost predicate WorkersOk(s: State) {
    forall i :: 0 <= i < |s.workers| ==> WorkerOk(s, i)
  }

  ghost predicate WakesOk(s: State) {
    forall i :: 0 <= i < |s.workers| ==> WakeOk(s, i)
  }

  /** Termination is declared, or about to be, exactly when nothing is outstanding. */
  ghost predicate Concluded(s: State) {
    && (s.lock.Some? ==> s.lock.value < |s.workers|)
    && (s.terminated ==> s.outstanding == 0)
    && (s.outstanding == 0 ==> s.terminated || exists u :: 0 <= u < |s.workers| && Declaring(s.workers[u].pc))
  }

  ghost predicate Inv(s: State) {
    Ledger(s) && WorkersOk(s) && WakesOk(s) && Concluded(s)
  }

  /** Seeds sit in the deques, everything else is fresh. */
  ghost predicate Init(s: State) {
    && s.workers != [] && s.created > 0 && s.ran == []
    && (forall i :: 0 <= i < |s.workers| ==> s.workers[i].pc == Draining && s.workers[i].inbox == [])
    && (forall x: nat :: Pending(s.workers, x) == if x < s.created then 1 else 0)
    && s.outstanding == s.created
    && !s.terminated && s.lock.None?
  }
}
