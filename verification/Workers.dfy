/**
 The pause/resume protocol between the master thread and the workers (bess/core/worker.cc:108-140,
 182-198, 253-274, 312-361; bess/core/scheduler.h:240-251), as interleaved steps over sequentially
 consistent memory. Any number of workers; each has a status word and an eventfd counter.
 */
module Workers {
  datatype Status = Pausing | Paused | Running | Finished

  /** Where a worker thread is: in `Run`, in the loop of `ScheduleLoop`, or in `BlockWorker`. */
  datatype WorkerPc =
    | Starting         // before `status_ = WORKER_PAUSING`
    | Publishing       // before `workers[wid_] = this`
    | Checking         // about to test `is_pause_requested()`
    | EnteringPause    // about to set WORKER_PAUSED
    | Reading          // blocked in, or about to return from, `read(fd_event_)`
    | Unblocked        // read `unblock`, about to set WORKER_RUNNING
    | Quitting         // read `quit`, about to set WORKER_FINISHED
    | InTask           // inside `ScheduleOnce`
    | Exited
    | Aborted          // `CHECK(0)`: read neither signal

  /** `event` is the eventfd counter; `hasPaused` records whether the worker was ever paused. */
  datatype Worker = Worker(wid: nat, status: Status, event: nat, pc: WorkerPc, hasPaused: bool)

  /** Where the master is; `w` is the worker object it waits for. */
  datatype MasterPc =
    | Idle
    | PauseSet(wid: nat, w: nat, destroy: bool)
    | PauseSpin(wid: nat, w: nat, destroy: bool)
    | DestroyCheck(wid: nat)
    | DestroyWrite(wid: nat, w: nat)
    | DestroySpin(wid: nat, w: nat)
    | ResumeWrite(wid: nat, w: nat)
    | ResumeSpin(wid: nat, w: nat)
    | LaunchSpin(wid: nat, w: nat)

  /**
   `active` is the global array `workers`, from worker id to worker object. `held` are the objects
   whose pause (or launch) has returned and that were not yet signalled to resume or quit.
   */
  datatype State = State(ws: seq<Worker>, active: map<nat, nat>, master: MasterPc, held: set<nat>)

  const UNBLOCK: nat := 1
  const QUIT: nat := 2

  datatype Event =
    | Call(op: MasterOp, wid: nat)
    | MasterStep
    | WorkerStep(w: nat, pausePoll: bool)

  datatype MasterOp = PauseWorker | ResumeWorker | DestroyWorker | LaunchWorker

  predicate WellFormed(s: State) {
    && (forall wid :: wid in s.active ==> s.active[wid] < |s.ws|)
    && (s.master.Idle? || s.master.DestroyCheck? || s.master.w < |s.ws|)
  }

  predicate StatusIs(s: State, wid: nat, status: Status)
    requires WellFormed(s)
  {
    wid in s.active && s.ws[s.active[wid]].status == status
  }

  function Held(s: State, wid: nat): set<nat> {
    if wid in s.active then s.held + {s.active[wid]} else s.held
  }

  /** The first step of a master call: the test of `workers[wid]` and its status. */
  function CallStep(s: State, op: MasterOp, wid: nat): State
    requires WellFormed(s)
  {
    match op
    case PauseWorker =>
      if StatusIs(s, wid, Running) then s.(master := PauseSet(wid, s.active[wid], false))
      else s.(held := Held(s, wid))
    case DestroyWorker =>
      if StatusIs(s, wid, Running) then s.(master := PauseSet(wid, s.active[wid], true))
      else s.(master := DestroyCheck(wid), held := Held(s, wid))
    case ResumeWorker =>
      if StatusIs(s, wid, Paused) then s.(master := ResumeWrite(wid, s.active[wid])) else s
    case LaunchWorker =>
      if wid in s.active then s
      else s.(ws := s.ws + [Worker(wid, Pausing, 0, Starting, false)], master := LaunchSpin(wid, |s.ws|))
  }

  function Signal(s: State, w: nat, sig: nat): State
    requires w < |s.ws|
  {
    s.(ws := s.ws[w := s.ws[w].(event := s.ws[w].event + sig)], held := s.held - {w})
  }

  /** A later step of a master call; a spin whose condition still holds changes nothing. */
  function MasterNext(s: State): State
    requires WellFormed(s)
  {
    match s.master
    case Idle => s
    case PauseSet(wid, w, destroy) =>
      s.(ws := s.ws[w := s.ws[w].(status := Pausing)], master := PauseSpin(wid, w, destroy))
    case PauseSpin(wid, w, destroy) =>
      if s.ws[w].status == Pausing then s
      else s.(master := if destroy then DestroyCheck(wid) else Idle, held := Held(s, wid))
    case DestroyCheck(wid) =>
      s.(master := if StatusIs(s, wid, Paused) then DestroyWrite(wid, s.active[wid]) else Idle)
    case DestroyWrite(wid, w) => Signal(s, w, QUIT).(master := DestroySpin(wid, w))
    case DestroySpin(wid, w) =>
      if s.ws[w].status == Paused then s else s.(active := s.active - {wid}, master := Idle)
    case ResumeWrite(wid, w) => Signal(s, w, UNBLOCK).(master := ResumeSpin(wid, w))
    case ResumeSpin(_, w) => if s.ws[w].status == Paused then s else s.(master := Idle)
    case LaunchSpin(wid, w) =>
      if StatusIs(s, wid, Paused) then s.(master := Idle, held := Held(s, wid)) else s
  }

  /**
   One step of a worker thread. `pausePoll` says whether the next round of the loop is one of those
   that test for a pause; the first round (round 0) always is.
   */
  function WorkerNext(x: Worker, pausePoll: bool): Worker {
    match x.pc
    case Starting => x.(status := Pausing, pc := Publishing)
    case Publishing => x.(pc := Checking)
    case Checking => x.(pc := if x.status == Pausing then EnteringPause else InTask)
    case EnteringPause => x.(status := Paused, pc := Reading, hasPaused := true)
    case Reading =>
      if x.event == 0 then x
      else x.(event := 0, pc := if x.event == UNBLOCK then Unblocked else if x.event == QUIT then Quitting else Aborted)
    case Unblocked => x.(status := Running, pc := InTask)
    case Quitting => x.(status := Finished, pc := Exited)
    case InTask => if pausePoll then x.(pc := Checking) else x
    case Exited => x
    case Aborted => x
  }

  function Next(s: State, e: Event): State
    requires WellFormed(s)
  {
    match e
    case Call(op, wid) => if s.master.Idle? then CallStep(s, op, wid) else s
    case MasterStep => MasterNext(s)
    case WorkerStep(w, pausePoll) =>
      if w < |s.ws| then
        var x := s.ws[w];
        State(s.ws[w := WorkerNext(x, pausePoll)],
              if x.pc.Publishing? then s.active[x.wid := w] else s.active, s.master, s.held)
      else s
  }

  const Init: State := State([], map[], Idle, {})

  // ----- the invariant -----

  predicate PausingAt(s: State, w: nat) { s.master.PauseSpin? && s.master.w == w }

  predicate LaunchingAt(s: State, w: nat) { s.master.LaunchSpin? && s.master.w == w }

  predicate ResumingAt(s: State, w: nat) { s.master.ResumeSpin? && s.master.w == w }

  predicate DestroyingAt(s: State, w: nat) { s.master.DestroySpin? && s.master.w == w }

  /** The worker object is the one its worker id stands for. */
  predicate Listed(s: State, w: nat)
    requires w < |s.ws|
  {
    s.ws[w].wid in s.active && s.active[s.ws[w].wid] == w
  }

  /** What the position of a worker says about its status word, its eventfd and the master. */
  predicate WorkerOk(s: State, w: nat)
    requires w < |s.ws|
  {
    var x := s.ws[w];
    (x.pc in {Starting, Publishing, Exited} || Listed(s, w)) &&
    match x.pc
    case Starting => LaunchingAt(s, w) && x.wid == s.master.wid && x.event == 0 && !x.hasPaused
    case Publishing => LaunchingAt(s, w) && x.wid == s.master.wid && x.status == Pausing && x.event == 0 && !x.hasPaused
    case Checking =>
      && x.event == 0
      && (if x.hasPaused then x.status == Running || (x.status == Pausing && PausingAt(s, w))
          else x.status == Pausing && LaunchingAt(s, w))
    case EnteringPause => x.event == 0 && x.status == Pausing && (PausingAt(s, w) || LaunchingAt(s, w))
    case Reading =>
      && x.status == Paused && x.hasPaused
      && x.event == (if ResumingAt(s, w) then UNBLOCK else if DestroyingAt(s, w) then QUIT else 0)
    case Unblocked => x.status == Paused && x.event == 0 && x.hasPaused && ResumingAt(s, w)
    case Quitting => x.status == Paused && x.event == 0 && x.hasPaused && DestroyingAt(s, w)
    case InTask =>
      && x.event == 0 && x.hasPaused
      && (x.status == Running || (x.status == Pausing && PausingAt(s, w)))
    case Exited => x.status == Finished && x.event == 0
    case Aborted => false
  }

  /** The worker has paused and waits for a signal that was not sent. */
  predicate Parked(s: State, w: nat) {
    w < |s.ws| && s.ws[w].pc == Reading && s.ws[w].status == Paused && s.ws[w].event == 0
  }

  predicate MasterOk(s: State)
    requires WellFormed(s)
  {
    match s.master
    case Idle => true
    case PauseSet(wid, w, _) => wid in s.active && s.active[wid] == w && s.ws[w].status == Running
    case PauseSpin(wid, w, _) => wid in s.active && s.active[wid] == w && s.ws[w].status in {Pausing, Paused}
    case DestroyCheck(wid) => wid in s.active ==> Parked(s, s.active[wid])
    case DestroyWrite(wid, w) => wid in s.active && s.active[wid] == w && Parked(s, w)
    case DestroySpin(wid, w) =>
      wid in s.active && s.active[wid] == w && (s.ws[w].status == Paused || s.ws[w].pc == Exited)
    case ResumeWrite(wid, w) => wid in s.active && s.active[wid] == w && Parked(s, w)
    case ResumeSpin(wid, w) => wid in s.active && s.active[wid] == w && s.ws[w].status in {Paused, Running}
    case LaunchSpin(wid, w) =>
      if wid in s.active then s.active[wid] == w && s.ws[w].status in {Pausing, Paused}
      else s.ws[w].pc in {Starting, Publishing}
  }

  predicate ActiveOk(s: State)
    requires WellFormed(s)
  {
    forall wid :: wid in s.active ==>
      && s.ws[s.active[wid]].wid == wid
      && s.ws[s.active[wid]].pc !in {Starting, Publishing}
      && (s.ws[s.active[wid]].pc == Exited ==> DestroyingAt(s, s.active[wid]))
  }

  /** The master waits for `w`, or has just signalled it. */
  predicate Attended(s: State, w: nat) {
    (s.master.PauseSpin? || s.master.ResumeSpin? || s.master.DestroySpin? || s.master.LaunchSpin?) && s.master.w == w
  }

  /** A listed worker runs, or is held, or is the one the master attends to. */
  predicate HeldOk(s: State)
    requires WellFormed(s)
  {
    forall wid :: wid in s.active ==>
      s.ws[s.active[wid]].status == Running || s.active[wid] in s.held || Attended(s, s.active[wid])
  }

  predicate Inv(s: State) {
    && WellFormed(s)
    && (forall w :: 0 <= w < |s.ws| ==> WorkerOk(s, w))
    && MasterOk(s) && ActiveOk(s) && HeldOk(s)
    && (forall w :: w in s.held ==> Parked(s, w))
  }

  lemma InitInv()
    ensures Inv(Init)
  {
  }

  lemma CallKeepsInv(s: State, op: MasterOp, wid: nat)
    requires Inv(s) && s.master.Idle?
    ensures Inv(CallStep(s, op, wid))
  {
    var s' := CallStep(s, op, wid);
    if wid in s.active {
      var w := s.active[wid];
      assert WorkerOk(s, w);
    }
    forall w | 0 <= w < |s'.ws| ensures WorkerOk(s', w) {
      if w < |s.ws| {
        assert WorkerOk(s, w);
      }
    }
  }

  lemma MasterKeepsInv(s: State)
    requires Inv(s)
    ensures Inv(MasterNext(s))
  {
    var s' := MasterNext(s);
    if !s.master.Idle? && !s.master.DestroyCheck? {
      assert WorkerOk(s, s.master.w);
    }
    forall w | 0 <= w < |s'.ws| ensures WorkerOk(s', w) {
      WorkerOfMaster(s, w);
    }
  }

  lemma WorkerOfMaster(s: State, w: nat)
    requires Inv(s) && w < |s.ws|
    ensures |MasterNext(s).ws| == |s.ws| && WorkerOk(MasterNext(s), w)
  {
    if !s.master.Idle? && !s.master.DestroyCheck? {
      assert WorkerOk(s, s.master.w);
    }
    assert WorkerOk(s, w);
  }

  lemma OtherWorkerOk(s: State, w: nat, pausePoll: bool, v: nat)
    requires Inv(s) && w < |s.ws| && v < |s.ws| && v != w
    ensures WellFormed(Next(s, WorkerStep(w, pausePoll))) && WorkerOk(Next(s, WorkerStep(w, pausePoll)), v)
  {
    assert WorkerOk(s, v) && WorkerOk(s, w);
  }

  lemma MovedWorkerOk(s: State, w: nat, pausePoll: bool)
    requires Inv(s) && w < |s.ws|
    ensures WellFormed(Next(s, WorkerStep(w, pausePoll))) && WorkerOk(Next(s, WorkerStep(w, pausePoll)), w)
  {
    assert WorkerOk(s, w);
  }

  lemma WorkerKeepsMaster(s: State, w: nat, pausePoll: bool)
    requires Inv(s) && w < |s.ws|
    ensures var s' := Next(s, WorkerStep(w, pausePoll));
      WellFormed(s') && MasterOk(s') && ActiveOk(s')
  {
    assert WorkerOk(s, w);
  }

  lemma WorkerKeepsHeld(s: State, w: nat, pausePoll: bool)
    requires Inv(s) && w < |s.ws|
    ensures var s' := Next(s, WorkerStep(w, pausePoll));
      WellFormed(s') && HeldOk(s') && forall v :: v in s'.held ==> Parked(s', v)
  {
    assert WorkerOk(s, w);
  }

  lemma WorkerKeepsInv(s: State, w: nat, pausePoll: bool)
    requires Inv(s) && w < |s.ws|
    ensures Inv(Next(s, WorkerStep(w, pausePoll)))
  {
    var s' := Next(s, WorkerStep(w, pausePoll));
    MovedWorkerOk(s, w, pausePoll);
    WorkerKeepsMaster(s, w, pausePoll);
    WorkerKeepsHeld(s, w, pausePoll);
    forall v | 0 <= v < |s'.ws| ensures WorkerOk(s', v) {
      if v != w {
        OtherWorkerOk(s, w, pausePoll, v);
      }
    }
  }

  /** Every step of the master or of any worker keeps the invariant. */
  lemma StepKeepsInv(s: State, e: Event)
    requires Inv(s)
    ensures Inv(Next(s, e))
  {
    match e
    case Call(op, wid) =>
      if s.master.Idle? {
        CallKeepsInv(s, op, wid);
      }
    case MasterStep => MasterKeepsInv(s);
    case WorkerStep(w, pausePoll) =>
      if w < |s.ws| {
        WorkerKeepsInv(s, w, pausePoll);
      }
  }

  // ----- runs: any interleaving of calls and steps -----

  function Run(s: State, events: seq<Event>): State
    requires Inv(s)
    decreases |events|
  {
    if events == [] then s
    else
      StepKeepsInv(s, events[0]);
      Run(Next(s, events[0]), events[1..])
  }

  lemma {:induction false} RunKeepsInv(s: State, events: seq<Event>)
    requires Inv(s)
    ensures Inv(Run(s, events))
    decreases |events|
  {
    if events != [] {
      StepKeepsInv(s, events[0]);
      RunKeepsInv(Next(s, events[0]), events[1..]);
    }
  }

  /** The state after any sequence of calls and steps, from the start of the program. */
  function Reached(events: seq<Event>): (s: State)
    ensures Inv(s)
  {
    InitInv();
    RunKeepsInv(Init, events);
    Run(Init, events)
  }

  /**
   In every reachable state: a worker whose pause has returned runs no task; an eventfd holds no signal
   but the one the master waits for, so two `unblock` signals never add up to `quit`; and no worker
   runs a task before it was paused once.
   */
  lemma ReachableSafety(events: seq<Event>, w: nat)
    requires w < |Reached(events).ws|
    ensures var s := Reached(events);
      var x := s.ws[w];
      && (w in s.held ==> x.pc == Reading && x.event == 0)
      && (x.event > 0 ==> (ResumingAt(s, w) && x.event == UNBLOCK) || (DestroyingAt(s, w) && x.event == QUIT))
      && (x.pc.Quitting? ==> DestroyingAt(s, w))
      && !x.pc.Aborted?
      && (x.pc.InTask? ==> x.hasPaused)
  {
    var s := Reached(events);
    assert WorkerOk(s, w);
  }

  /** Only the write of a signal to that worker ends the time in which it is held. */
  lemma HeldUntilSignal(s: State, e: Event, w: nat)
    requires Inv(s) && w in s.held && w !in Next(s, e).held
    ensures e == MasterStep && (s.master.ResumeWrite? || s.master.DestroyWrite?) && s.master.w == w
    ensures Next(s, e).ws[w].event > 0
  {
  }

  /** The end of a pause call: unless the call goes on to destroy, its worker is held. */
  lemma PauseReturnsHeld(s: State)
    requires Inv(s) && s.master.PauseSpin? && !MasterNext(s).master.PauseSpin?
    ensures s.master.w in MasterNext(s).held
  {
  }

  /** Once `is_any_worker_running()` is false and no call is under way, no worker runs a task. */
  lemma NoneRunningNoTask(s: State, w: nat)
    requires Inv(s) && s.master.Idle? && w < |s.ws|
    requires forall wid :: wid in s.active ==> !StatusIs(s, wid, Running)
    ensures !s.ws[w].pc.InTask?
  {
    assert WorkerOk(s, w);
  }

  /** While the master waits for `w`, `w` itself can move or the wait is over. */
  lemma MasterWaitsForMovingWorker(s: State)
    requires Inv(s) && (s.master.PauseSpin? || s.master.ResumeSpin? || s.master.DestroySpin? || s.master.LaunchSpin?)
    ensures MasterNext(s) != s || exists poll :: WorkerNext(s.ws[s.master.w], poll) != s.ws[s.master.w]
  {
    var x := s.ws[s.master.w];
    assert WorkerOk(s, s.master.w);
    assert x.pc.InTask? ==> WorkerNext(x, true) != x;
    assert !x.pc.InTask? && MasterNext(s) == s ==> WorkerNext(x, false) != x;
  }

  // ----- every call returns -----

  /** What is left of a resume or destroy, by the position of the worker that was signalled. */
  function SignalledDistance(x: Worker): nat {
    match x.pc
    case Reading => 3
    case Unblocked => 2
    case Quitting => 2
    case _ => 1
  }

  /** What is left until a worker that was asked to pause, or was launched, has paused. */
  function PausingDistance(x: Worker): nat {
    match x.pc
    case Starting => 6
    case Publishing => 5
    case InTask => 4
    case Checking => 3
    case EnteringPause => 2
    case _ => 1
  }

  /** The number of rounds in which master and workers move until the call of the master has returned. */
  function Distance(s: State): nat
    requires WellFormed(s)
  {
    match s.master
    case Idle => 0
    case PauseSet(_, _, destroy) => 5 + (if destroy then 5 else 0)
    case PauseSpin(_, w, destroy) => PausingDistance(s.ws[w]) + (if destroy then 5 else 0)
    case DestroyCheck(_) => 5
    case DestroyWrite(_, _) => 4
    case DestroySpin(_, w) => SignalledDistance(s.ws[w])
    case ResumeWrite(_, _) => 4
    case ResumeSpin(_, w) => SignalledDistance(s.ws[w])
    case LaunchSpin(_, w) => PausingDistance(s.ws[w])
  }

  /** In a round the master steps, and every worker steps and looks for a pause. */
  predicate Round(events: seq<Event>, workers: nat) {
    MasterStep in events && forall w :: 0 <= w < workers ==> WorkerStep(w, true) in events
  }

  /** The run has at least `n` rounds, whatever else happens in it. */
  ghost predicate Rounds(events: seq<Event>, workers: nat, n: nat)
    decreases n
  {
    n == 0 || exists k :: 0 <= k <= |events| && Round(events[..k], workers) && Rounds(events[k..], workers, n - 1)
  }

  /** It is the master's turn to move the call on; else the turn of the worker it waits for. */
  predicate MastersTurn(s: State)
    requires WellFormed(s) && !s.master.Idle?
  {
    match s.master
    case PauseSpin(_, w, _) => s.ws[w].status != Pausing
    case DestroySpin(_, w) => s.ws[w].status != Paused
    case ResumeSpin(_, w) => s.ws[w].status != Paused
    case LaunchSpin(wid, w) => StatusIs(s, wid, Paused)
    case _ => true
  }

  /** The step that moves the call on. */
  function Mover(s: State): Event
    requires WellFormed(s) && !s.master.Idle?
  {
    if MastersTurn(s) then MasterStep else WorkerStep(s.master.w, true)
  }

  /** No step takes a call back, and the mover's step takes it on. */
  lemma StepGoesOn(s: State, e: Event)
    requires Inv(s) && !s.master.Idle?
    ensures Distance(Next(s, e)) <= Distance(s) && |Next(s, e).ws| == |s.ws|
    ensures e == Mover(s) ==> Distance(Next(s, e)) < Distance(s)
    ensures Distance(Next(s, e)) == Distance(s) ==> Mover(Next(s, e)) == Mover(s)
  {
    StepKeepsInv(s, e);
    if !s.master.DestroyCheck? {
      assert WorkerOk(s, s.master.w);
    }
  }

  /** What the call that the master is in is for, of the state in which it returns. */
  predicate Goal(m: MasterPc, s: State)
    requires WellFormed(s)
  {
    match m
    case Idle => true
    case PauseSet(wid, w, destroy) => if destroy then wid !in s.active else w in s.held
    case PauseSpin(wid, w, destroy) => if destroy then wid !in s.active else w in s.held
    case DestroyCheck(wid) => wid !in s.active
    case DestroyWrite(wid, w) => wid !in s.active && w < |s.ws| && s.ws[w].pc.Exited?
    case DestroySpin(wid, w) => wid !in s.active && w < |s.ws| && s.ws[w].pc.Exited?
    case ResumeWrite(_, w) => w < |s.ws| && s.ws[w].status.Running? && w !in s.held
    case ResumeSpin(_, w) => w < |s.ws| && s.ws[w].status.Running? && w !in s.held
    case LaunchSpin(wid, w) => wid in s.active && s.active[wid] == w && w in s.held
  }

  /** A step that ends the call has reached its goal; any other leaves a goal at least as strong. */
  lemma StepKeepsGoal(s: State, e: Event, end: State)
    requires Inv(s) && !s.master.Idle? && Inv(end)
    ensures Next(s, e).master.Idle? ==> WellFormed(Next(s, e)) && Goal(s.master, Next(s, e))
    ensures Goal(Next(s, e).master, end) && !Next(s, e).master.Idle? ==> Goal(s.master, end)
  {
    StepKeepsInv(s, e);
    if !s.master.DestroyCheck? {
      assert WorkerOk(s, s.master.w);
    }
  }

  /** The call of the master returns in the run, and its goal is reached when it does. */
  ghost predicate Returns(s: State, events: seq<Event>, m: MasterPc)
    requires Inv(s)
    decreases |events|
  {
    if s.master.Idle? then Goal(m, s)
    else events != [] && (StepKeepsInv(s, events[0]); Returns(Next(s, events[0]), events[1..], m))
  }

  /** The goal of a later position in the call will do. */
  lemma {:induction false} ReturnsFor(s: State, events: seq<Event>, m: MasterPc, m': MasterPc)
    requires Inv(s) && !s.master.Idle? && Returns(s, events, m')
    requires forall end :: Inv(end) && Goal(m', end) ==> Goal(m, end)
    ensures Returns(s, events, m)
    decreases |events|
  {
    StepKeepsInv(s, events[0]);
    if !Next(s, events[0]).master.Idle? {
      ReturnsFor(Next(s, events[0]), events[1..], m, m');
    }
  }

  lemma ReturnsAfterStep(s: State, events: seq<Event>)
    requires Inv(s) && !s.master.Idle? && events != []
    requires Inv(Next(s, events[0])) && (Next(s, events[0]).master.Idle? || Returns(Next(s, events[0]), events[1..], Next(s, events[0]).master))
    ensures Returns(s, events, s.master)
  {
    var s1 := Next(s, events[0]);
    if s1.master.Idle? {
      StepKeepsGoal(s, events[0], s1);
    } else {
      forall end | Inv(end) && Goal(s1.master, end) ensures Goal(s.master, end) {
        StepKeepsGoal(s, events[0], end);
      }
      ReturnsFor(s1, events[1..], s.master, s1.master);
    }
  }

  function After(s: State, events: seq<Event>): (s': State)
    requires Inv(s)
    ensures Inv(s')
  {
    RunKeepsInv(s, events);
    Run(s, events)
  }

  /** While the call lasts it never goes back, and a run with its mover's step takes it on. */
  lemma {:induction false} RunGoesOn(s: State, events: seq<Event>, more: seq<Event>)
    requires Inv(s) && !s.master.Idle?
    requires var s' := After(s, events);
      (!s'.master.Idle? && |s'.ws| == |s.ws| && Distance(s') <= Distance(s)
       && (Mover(s) in events ==> Distance(s') < Distance(s)))
      ==> Returns(s', more, s'.master)
    ensures Returns(s, events + more, s.master)
    decreases |events|
  {
    if events == [] {
      assert events + more == more;
    } else {
      var e, s1 := events[0], Next(s, events[0]);
      StepKeepsInv(s, e);
      StepGoesOn(s, e);
      assert (events + more)[0] == e && (events + more)[1..] == events[1..] + more;
      if !s1.master.Idle? {
        RunGoesOn(s1, events[1..], more);
      }
      ReturnsAfterStep(s, events + more);
    }
  }

  /**
   Every call returns and reaches its goal, whatever the interleaving: after as many rounds as there are steps left,
   in each of which the master and every worker move at least once. So a paused or launched worker is held in the end, a
   resumed one runs, and a destroyed one is gone.
   */
  lemma {:induction false} CallReturns(s: State, events: seq<Event>, n: nat)
    requires Inv(s) && !s.master.Idle? && Distance(s) <= n && Rounds(events, |s.ws|, n)
    ensures Returns(s, events, s.master)
    decreases n
  {
    var first, more := FirstRound(events, |s.ws|, n);
    var s' := After(s, first);
    if !s'.master.Idle? && |s'.ws| == |s.ws| && Distance(s') < Distance(s) {
      CallReturns(s', more, n - 1);
    }
    AfterRound(s, first, more);
  }

  lemma FirstRound(events: seq<Event>, workers: nat, n: nat) returns (first: seq<Event>, more: seq<Event>)
    requires n > 0 && Rounds(events, workers, n)
    ensures first + more == events && Round(first, workers) && Rounds(more, workers, n - 1)
  {
    var k :| 0 <= k <= |events| && Round(events[..k], workers) && Rounds(events[k..], workers, n - 1);
    first, more := events[..k], events[k..];
  }

  lemma AfterRound(s: State, first: seq<Event>, more: seq<Event>)
    requires Inv(s) && !s.master.Idle? && Round(first, |s.ws|)
    requires var s' := After(s, first);
      (!s'.master.Idle? && |s'.ws| == |s.ws| && Distance(s') < Distance(s)) ==> Returns(s', more, s'.master)
    ensures Returns(s, first + more, s.master)
  {
    MoverInRound(s, first);
    RunGoesOn(s, first, more);
  }

  lemma MoverInRound(s: State, events: seq<Event>)
    requires Inv(s) && !s.master.Idle? && Round(events, |s.ws|)
    ensures Mover(s) in events
  {
  }

  /** From the moment of the call, ten rounds are enough. */
  lemma CallReturnsInTen(s: State, op: MasterOp, wid: nat, events: seq<Event>, rounds: nat)
    requires Inv(s) && s.master.Idle? && rounds >= 10 && Rounds(events, |CallStep(s, op, wid).ws|, rounds)
    ensures Inv(CallStep(s, op, wid))
    ensures var s1 := CallStep(s, op, wid); s1.master.Idle? || Returns(s1, events, s1.master)
  {
    CallKeepsInv(s, op, wid);
    var s1 := CallStep(s, op, wid);
    if !s1.master.Idle? {
      CallReturns(s1, events, rounds);
    }
  }

  /** A worker that was resumed while it was paused runs in the end. */
  lemma ResumeReturns(s: State, wid: nat, events: seq<Event>, rounds: nat)
    requires Inv(s) && s.master.Idle? && StatusIs(s, wid, Paused)
    requires rounds >= 10 && Rounds(events, |s.ws|, rounds)
    ensures var s1 := CallStep(s, ResumeWorker, wid); Inv(s1) && Returns(s1, events, ResumeWrite(wid, s.active[wid]))
  {
    CallReturnsInTen(s, ResumeWorker, wid, events, rounds);
  }

  /** A worker that is paused is held in the end, at once if it did not run. */
  lemma PauseReturns(s: State, wid: nat, events: seq<Event>, rounds: nat)
    requires Inv(s) && s.master.Idle? && wid in s.active && rounds >= 10 && Rounds(events, |s.ws|, rounds)
    ensures var s1 := CallStep(s, PauseWorker, wid); Inv(s1) && Returns(s1, events, PauseSet(wid, s.active[wid], false))
  {
    CallReturnsInTen(s, PauseWorker, wid, events, rounds);
  }

  /** A worker that is launched under an unused id is listed and held in the end. */
  lemma LaunchReturns(s: State, wid: nat, events: seq<Event>, rounds: nat)
    requires Inv(s) && s.master.Idle? && wid !in s.active && rounds >= 10 && Rounds(events, |s.ws| + 1, rounds)
    ensures var s1 := CallStep(s, LaunchWorker, wid); Inv(s1) && Returns(s1, events, LaunchSpin(wid, |s.ws|))
  {
    CallReturnsInTen(s, LaunchWorker, wid, events, rounds);
  }

  /** An id whose worker is destroyed is free in the end. */
  lemma DestroyReturns(s: State, wid: nat, events: seq<Event>, rounds: nat)
    requires Inv(s) && s.master.Idle? && rounds >= 10 && Rounds(events, |s.ws|, rounds)
    ensures var s1 := CallStep(s, DestroyWorker, wid); Inv(s1) && Returns(s1, events, DestroyCheck(wid))
  {
    CallReturnsInTen(s, DestroyWorker, wid, events, rounds);
    var s1 := CallStep(s, DestroyWorker, wid);
    ReturnsFor(s1, events, DestroyCheck(wid), s1.master);
  }

  // ----- WorkerPauser: pausing one worker after another -----

  /** Nothing but pause calls is issued, and the master is in none but a pause call. */
  predicate PauserMaster(m: MasterPc) {
    m.Idle? || ((m.PauseSet? || m.PauseSpin?) && !m.destroy)
  }

  predicate PauserEvents(events: seq<Event>) {
    forall e :: e in events && e.Call? ==> e.op == PauseWorker
  }

  predicate Waiting(s: State, w: nat) {
    (s.master.PauseSet? || s.master.PauseSpin?) && s.master.w == w
  }

  /** Somewhere in the run, `pause_worker(wid)` is called. */
  predicate Called(s: State, events: seq<Event>, wid: nat)
    requires Inv(s)
    decreases |events|
  {
    events != [] &&
    (StepKeepsInv(s, events[0]);
     (s.master.Idle? && events[0] == Call(PauseWorker, wid)) || Called(Next(s, events[0]), events[1..], wid))
  }

  lemma PauserStep(s: State, e: Event, wid: nat)
    requires Inv(s) && PauserMaster(s.master) && (e.Call? ==> e.op == PauseWorker)
    ensures var s' := Next(s, e);
      && PauserMaster(s'.master) && s'.active == s.active && s.held <= s'.held
      && (wid in s.active && Waiting(s, s.active[wid]) ==> Waiting(s', s.active[wid]) || s.active[wid] in s'.held)
      && (wid in s.active && s.master.Idle? && e == Call(PauseWorker, wid) ==>
            Waiting(s', s.active[wid]) || s.active[wid] in s'.held)
  {
    if e.WorkerStep? && e.w < |s.ws| {
      assert WorkerOk(s, e.w);
    }
  }

  /** A run of pause calls ends with every worker it called for held, whatever the workers do meanwhile. */
  lemma {:induction false} PauserHolds(s: State, events: seq<Event>, wid: nat)
    requires Inv(s) && PauserMaster(s.master) && PauserEvents(events) && wid in s.active
    requires Called(s, events, wid) || Waiting(s, s.active[wid]) || s.active[wid] in s.held
    ensures var s' := Run(s, events);
      s'.active == s.active && (s'.master.Idle? ==> s'.active[wid] in s'.held)
    decreases |events|
  {
    if events != [] {
      StepKeepsInv(s, events[0]);
      PauserStep(s, events[0], wid);
      PauserHolds(Next(s, events[0]), events[1..], wid);
    }
  }

  lemma {:induction false} PauserKeepsActive(s: State, events: seq<Event>)
    requires Inv(s) && PauserMaster(s.master) && PauserEvents(events)
    ensures Run(s, events).active == s.active
    decreases |events|
  {
    if events != [] {
      StepKeepsInv(s, events[0]);
      PauserStep(s, events[0], 0);
      PauserKeepsActive(Next(s, events[0]), events[1..]);
    }
  }

  /**
   Hence, after a pause of exactly the workers seen running, no worker runs a task, and none does until the
   next signal: those not called were held already.
   */
  lemma PausedAllNoTask(s: State, events: seq<Event>, w: nat)
    requires Inv(s) && s.master.Idle? && PauserEvents(events)
    requires forall wid :: wid in s.active && StatusIs(s, wid, Running) ==> Called(s, events, wid)
    requires Run(s, events).master.Idle? && w < |Run(s, events).ws|
    ensures !Run(s, events).ws[w].pc.InTask?
  {
    var s' := Run(s, events);
    RunKeepsInv(s, events);
    PauserKeepsActive(s, events);
    forall wid | wid in s.active ensures s.active[wid] in s'.held {
      PauserHolds(s, events, wid);
    }
    assert WorkerOk(s', w);
    assert w in s'.held ==> Parked(s', w);
  }
}
