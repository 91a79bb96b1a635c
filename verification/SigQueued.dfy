/**
 signals/sig_queued.c: the parent counts SIGQUITs in a handler, and the first entry of that
 handler waits, inside the handler, for the child's SIGUSR2 with every signal unblocked.

 The process takes one step at a time; between any two steps signals may be generated and
 delivered.  An event that is not enabled leaves the state alone, so every sequence of
 events describes a run.
 */
module SigQueued {
  import opened SignalMachine
  import opened Wrappers

  datatype Signal = SIGQUIT | SIGUSR1 | SIGUSR2

  datatype Pc =
    // main
    | TellWait | Fork | Sleeping | TestTwo | TestFour | Report
    // sig_quit; `++sigcount` is a load and a store
    | LoadCount | StoreCount(tmp: int) | TestWaitflag | ClearWaitflag | QuitReturn
    // WAIT_CHILD, called by sig_quit
    | TestSigflag | CallSuspend | Parked(previous: set<Signal>) | ClearSigflag | RestoreMask | WaitReturned
    // sig_usr
    | SetSigflag | UsrReturn

  datatype Verdict = NotQueued | Queued | Unknown(count: int)

  /** What happened so far; the program itself does not see this. */
  datatype History = History(
    quits: nat,          // SIGQUITs generated, by anyone
    foreignQuits: nat,   // those of them that did not come from the child
    merged: nat,         // SIGQUITs generated while one was pending, and not queued
    entries: nat,        // sig_quit entered
    counted: nat,        // sig_quit entries that are past line 72
    waits: nat,          // WAIT_CHILD entered
    sent: set<Signal>,   // signals generated at least once
    foreignUsr: bool)    // a SIGUSR1 or SIGUSR2 came from somebody other than the child

  datatype State = State(
    p: Process<Pc, Signal>,
    alive: bool,
    omask: set<Signal>, sigcount: int, waitflag: bool, sigflag: bool,
    child: nat,          // kill calls made by the child: four SIGQUITs, then SIGUSR2
    verdict: Option<Verdict>,
    h: History)

  /** `Run(ok)`: the running frame takes a step; `ok` tells whether a system call in it succeeds. */
  datatype Event = Run(ok: bool) | Deliver(signo: Signal) | ChildKill | ForeignKill(signo: Signal)

  const USR := {SIGUSR1, SIGUSR2}

  function Init(mask: set<Signal>): State {
    State(Process(TellWait, [], mask, multiset{}), true, {}, 0, true, false, 0, None,
          History(0, 0, 0, 0, 0, 0, {}, false))
  }

  predicate Enabled(s: State, e: Event) {
    s.alive &&
    match e
    case Run(_) => !s.p.Running().Parked?
    case Deliver(signo) => s.p.Deliverable(signo)
    case ChildKill => !s.p.main.TellWait? && !s.p.main.Fork? && s.child < 5
    case ForeignKill(_) => !s.p.main.TellWait?
  }

  function Step(s: State, e: Event, queues: bool): State {
    if !Enabled(s, e) then s else
    match e
    case Run(ok) => RunStep(s, ok)
    case Deliver(signo) => DeliverSignal(s, signo)
    case ChildKill => ChildStep(s, queues)
    case ForeignKill(signo) =>
      var t := Generate(s, signo, queues);
      if signo == SIGQUIT then t.(h := t.h.(foreignQuits := t.h.foreignQuits + 1))
      else t.(h := t.h.(foreignUsr := true))
  }

  function RunStep(s: State, ok: bool): State {
    if s.p.handlers == [] then MainStep(s, ok)
    else if s.p.handlers[|s.p.handlers| - 1].signo == SIGQUIT then SigQuitStep(s, ok)
    else SigUsrStep(s)
  }

  /** The child: kill(getppid(), SIGQUIT) four times, then TELL_PARENT. */
  function ChildStep(s: State, queues: bool): State {
    Generate(s, if s.child < 4 then SIGQUIT else SIGUSR2, queues).(child := s.child + 1)
  }

  /** main, from its call of TELL_WAIT on. */
  function MainStep(s: State, ok: bool): State {
    match s.p.main
    case TellWait =>
      if ok then s.(omask := s.p.mask, p := s.p.Goto(Fork).(mask := s.p.mask + USR)) else s.(alive := false)
    case Fork => if ok then s.(p := s.p.Goto(Sleeping)) else s.(alive := false)
    case Sleeping => s.(p := s.p.Goto(TestTwo))
    case TestTwo => if s.sigcount == 2 then Conclude(s, NotQueued) else s.(p := s.p.Goto(TestFour))
    case TestFour => if s.sigcount == 4 then Conclude(s, Queued) else s.(p := s.p.Goto(Report))
    case Report => Conclude(s, Unknown(s.sigcount))
    case _ => s
  }

  function Conclude(s: State, v: Verdict): State {
    s.(verdict := Some(v), alive := false)
  }

  function SigQuitStep(s: State, ok: bool): State {
    match s.p.Running()
    case LoadCount => s.(p := s.p.Goto(StoreCount(s.sigcount)))
    case StoreCount(tmp) =>
      s.(sigcount := tmp + 1, p := s.p.Goto(TestWaitflag), h := s.h.(counted := s.h.counted + 1))
    case TestWaitflag => s.(p := s.p.Goto(if s.waitflag then ClearWaitflag else QuitReturn))
    case ClearWaitflag =>
      s.(waitflag := false, p := s.p.Goto(TestSigflag), h := s.h.(waits := s.h.waits + 1))
    case QuitReturn => ReturnStep(s)
    case WaitReturned => ReturnStep(s)
    case _ => WaitChildStep(s, ok)
  }

  function WaitChildStep(s: State, ok: bool): State {
    match s.p.Running()
    case TestSigflag => s.(p := s.p.Goto(if s.sigflag then ClearSigflag else CallSuspend))
    case CallSuspend => s.(p := s.p.Goto(Parked(s.p.mask)).(mask := {}))
    case ClearSigflag => s.(sigflag := false, p := s.p.Goto(RestoreMask))
    case RestoreMask =>
      if ok then s.(p := s.p.Goto(WaitReturned).(mask := s.omask)) else s.(alive := false)
    case _ => s
  }

  function SigUsrStep(s: State): State {
    match s.p.Running()
    case SetSigflag => s.(sigflag := true, p := s.p.Goto(UsrReturn))
    case UsrReturn => ReturnStep(s)
    case _ => s
  }

  function ReturnStep(s: State): State {
    if s.p.handlers == [] then s else s.(p := s.p.Return())
  }

  function Entry(signo: Signal): Pc {
    if signo == SIGQUIT then LoadCount else SetSigflag
  }

  /** A handler that interrupts sigsuspend returns to the mask from before sigsuspend. */
  function DeliverSignal(s: State, signo: Signal): State {
    var at := s.p.Running();
    var q := if at.Parked? then s.p.Goto(TestSigflag) else s.p;
    var restored := if at.Parked? then at.previous else s.p.mask;
    s.(p := q.Enter(signo, Entry(signo), restored, true),
       h := if signo == SIGQUIT then s.h.(entries := s.h.entries + 1) else s.h)
  }

  function Generate(s: State, signo: Signal, queues: bool): State {
    var h := s.h.(sent := s.h.sent + {signo});
    s.(p := s.p.Generate(signo, queues),
       h := if signo == SIGQUIT
            then h.(quits := h.quits + 1,
                    merged := if queues || signo !in s.p.pending then h.merged else h.merged + 1)
            else h)
  }

  /** The state a sequence of events leads to. */
  function Exec(s: State, es: seq<Event>, queues: bool): State
    decreases es
  {
    if es == [] then s else Exec(Step(s, es[0], queues), es[1..], queues)
  }
}
