/**
 signals/signal_semantics.c and signals/sigaction_semantics.c: programs that print what kind of
 signals the system has.  Both run the same tests one after the other and differ in how handlers
 are installed, so one machine, given a `Setup`, stands for both.

 A pending signal that is not blocked is delivered before the process takes another step.
 */
module Semantics {
  import opened SignalMachine
  import opened Wrappers

  datatype Signal = SIGUSR1 | SIGUSR2 | SIGALRM

  datatype Action = Default | Caught(restart: bool)

  /** A test of blocking reads: the signal that arrives, and whether its action restarts calls. */
  datatype RestartTest = RestartTest(signo: Signal, restarts: bool)

  /** What the system does: reset the action at delivery, block the signal during its handler, restart calls. */
  datatype Setup' = Setup(resets: bool, blocks: bool, restarts: bool, tests: seq<RestartTest>)

  type Setup = u: Setup' | forall i | 0 <= i < |u.tests| :: u.tests[i].signo != SIGUSR2
    witness Setup'.Setup(false, true, true, [])

  /** signal() leaves all three to the system. */
  function SignalSetup(resets: bool, blocks: bool, restarts: bool): Setup {
    Setup(resets, blocks, restarts, [RestartTest(SIGALRM, restarts), RestartTest(SIGUSR1, restarts)])
  }

  /** sigaction() with no flags, or with SA_RESTART alone, which the system may not have. */
  function SigactionSetup(saRestart: bool): Setup {
    Setup(false, true, false,
          [RestartTest(SIGALRM, false), RestartTest(SIGUSR1, false),
           RestartTest(SIGALRM, saRestart), RestartTest(SIGUSR1, saRestart)])
  }

  datatype Pc =
    // main
    | InstallUsr1 | Raise | Query | InstallUsr2 | ForkKiller | WaitPid | Judge
    | Install(k: nat) | Pipe(k: nat) | ForkWriter(k: nat)
    | Read(k: nat) | Reading(k: nat) | Interrupted(k: nat) | Finished
    // sig_usr1 and sig_alrm
    | HandlerReturn
    // sig_usr2
    | Reinstall | TestNeed | ClearNeed | StartSleep | Asleep | SleepEnded(left: nat)

  /** The child at work: the one that sends SIGUSR2 twice, or the one of the k-th read test. */
  datatype Job = NoChild | Killer | Writer(k: nat)

  datatype Actions = Actions(usr1: Action, usr2: Action, alrm: Action)
  {
    function Get(signo: Signal): Action {
      match signo case SIGUSR1 => usr1 case SIGUSR2 => usr2 case SIGALRM => alrm
    }
    function Set(signo: Signal, a: Action): Actions {
      match signo case SIGUSR1 => this.(usr1 := a) case SIGUSR2 => this.(usr2 := a) case SIGALRM => this.(alrm := a)
    }
  }

  datatype State = State(
    p: Process<Pc, Signal>, alive: bool, actions: Actions,
    needSleep: bool, leftToSleep: nat,
    job: Job, done: nat,         // the child's steps so far, three of them
    piped: bool,                 // a byte is in the pipe
    // the verdicts: "Reset", "Prevent" and, test by test, "automatically restart"
    reset: Option<bool>, prevent: Option<bool>, restart: seq<bool>)

  /** `left` is what sleep returns if this delivery interrupts it. */
  datatype Event = Run(ok: bool) | Deliver(signo: Signal, left: nat) | Child(ok: bool)

  function Init(mask: set<Signal>): State {
    State(Process(InstallUsr1, [], mask, multiset{}), true, Actions(Default, Default, Default),
          true, 5, NoChild, 0, false, None, None, [])
  }

  predicate AnyDeliverable(p: Process<Pc, Signal>) {
    p.Deliverable(SIGUSR1) || p.Deliverable(SIGUSR2) || p.Deliverable(SIGALRM)
  }

  predicate Enabled(s: State, e: Event) {
    s.alive &&
    match e
    case Run(ok) =>
      !AnyDeliverable(s.p) &&
      (match s.p.Running()
       case WaitPid => !ok || (s.job.Killer? && s.done == 3)
       case Reading(_) => !ok || s.piped || s.done == 3
       case Finished => false
       case _ => true)
    case Deliver(signo, _) => s.p.Deliverable(signo)
    case Child(_) => !s.job.NoChild? && s.done < 3
  }

  function Step(s: State, e: Event, setup: Setup): State {
    if !Enabled(s, e) then s else
    match e
    case Run(ok) =>
      if s.p.handlers == [] then MainStep(s, ok, setup)
      else if s.p.handlers[|s.p.handlers| - 1].signo == SIGUSR2 then SigUsr2Step(s, ok, setup)
      else s.(p := s.p.Return())
    case Deliver(signo, left) => DeliverSignal(s, signo, left, setup)
    case Child(ok) => ChildStep(s, ok, setup)
  }

  function MainStep(s: State, ok: bool, setup: Setup): State {
    var fail := s.(alive := false);
    match s.p.main
    case InstallUsr1 =>
      if ok then At(s, Raise).(actions := s.actions.Set(SIGUSR1, Caught(setup.restarts))) else fail
    case Raise => At(s, Query).(p := s.p.(main := Query).Generate(SIGUSR1, false))
    case Query =>
      if ok then At(s, InstallUsr2).(reset := Some(s.actions.usr1.Default?), actions := s.actions.Set(SIGUSR1, Default))
      else fail
    case InstallUsr2 =>
      if ok then At(s, ForkKiller).(actions := s.actions.Set(SIGUSR2, Caught(setup.restarts))) else fail
    case ForkKiller => if ok then At(s, WaitPid).(job := Killer, done := 0) else fail
    case WaitPid => if ok then At(s, Judge) else fail
    case Judge => At(s, Next(0, setup)).(prevent := Some(s.leftToSleep == 0))
    case _ => ReadTestStep(s, ok, setup)
  }

  function Next(k: nat, setup: Setup): Pc {
    if k < |setup.tests| then Install(k) else Finished
  }

  function At(s: State, pc: Pc): State {
    s.(p := s.p.(main := pc))
  }

  function ReadTestStep(s: State, ok: bool, setup: Setup): State {
    var fail := s.(alive := false);
    match s.p.main
    case Install(k) =>
      if ok && k < |setup.tests| then
        At(s, Pipe(k)).(actions := s.actions.Set(setup.tests[k].signo, Caught(setup.tests[k].restarts)))
      else fail
    case Pipe(k) => if ok then At(s, ForkWriter(k)).(piped := false) else fail
    case ForkWriter(k) => if ok then At(s, Read(k)).(job := Writer(k), done := 0) else fail
    case Read(k) => At(s, Reading(k))
    case Reading(k) => if ok && s.piped then At(s, Next(k + 1, setup)).(restart := s.restart + [true]) else fail
    case Interrupted(k) => At(s, Next(k + 1, setup)).(restart := s.restart + [false])
    case _ => s
  }

  function SigUsr2Step(s: State, ok: bool, setup: Setup): State {
    match s.p.Running()
    case Reinstall =>
      if ok then s.(p := s.p.Goto(TestNeed), actions := s.actions.Set(SIGUSR2, Caught(setup.restarts)))
      else s.(alive := false)
    case TestNeed => s.(p := s.p.Goto(if s.needSleep then ClearNeed else HandlerReturn))
    case ClearNeed => s.(p := s.p.Goto(StartSleep), needSleep := false)
    case StartSleep => s.(p := s.p.Goto(Asleep))
    case Asleep => s.(p := s.p.Goto(SleepEnded(0)))
    case SleepEnded(left) => s.(p := s.p.Goto(HandlerReturn), leftToSleep := left)
    case HandlerReturn => if s.p.handlers == [] then s else s.(p := s.p.Return())
    case _ => s
  }

  /** What becomes of the code that a handler interrupts. */
  function Resume(pc: Pc, a: Action, left: nat): Pc {
    match pc
    case Asleep => SleepEnded(left)
    case Reading(k) => if a == Caught(false) then Interrupted(k) else pc
    case _ => pc
  }

  function Handle(p: Process<Pc, Signal>, signo: Signal, a: Action, left: nat, blocks: bool): Process<Pc, Signal> {
    p.Goto(Resume(p.Running(), a, left))
     .Enter(signo, if signo == SIGUSR2 then Reinstall else HandlerReturn, p.mask, blocks)
  }

  function DeliverSignal(s: State, signo: Signal, left: nat, setup: Setup): State {
    var a := s.actions.Get(signo);
    if a.Default? then s.(alive := false)
    else
      s.(p := Handle(s.p, signo, a, left, setup.blocks),
         actions := if setup.resets then s.actions.Set(signo, Default) else s.actions)
  }

  function ChildStep(s: State, ok: bool, setup: Setup): State {
    var t := s.(done := s.done + 1);
    match s.job
    case NoChild => s
    case Killer => if s.done < 2 then t.(p := s.p.Generate(SIGUSR2, false)) else t
    case Writer(k) =>
      if s.done == 0 && k < |setup.tests| then t.(p := s.p.Generate(setup.tests[k].signo, false))
      else if s.done == 1 && ok && (s.p.main == Read(k) || s.p.main == Reading(k)) then t.(piped := true)
      else t
  }

  function Exec(s: State, es: seq<Event>, setup: Setup): State
    decreases es
  {
    if es == [] then s else Exec(Step(s, es[0], setup), es[1..], setup)
  }
}
