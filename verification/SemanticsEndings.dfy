/** That the two programs of Semantics give all their verdicts, and how they end. */
module SemanticsEndings {
  import opened SignalMachine
  import opened Wrappers
  import opened Semantics
  import opened SemanticsProofs
  import opened SemanticsTheorems

  // ---------------------------------------------------------------- every verdict is given

  predicate BeforeReset(pc: Pc) {
    pc.InstallUsr1? || pc.Raise? || pc.Query?
  }

  /** A verdict is there exactly once main is past its test. */
  predicate Given(s: State, tests: nat) {
    && (s.reset.Some? <==> !BeforeReset(s.p.main))
    && (s.prevent.Some? <==> InTest(s.p.main) || s.p.main.Finished?)
    && |s.restart| == (if InTest(s.p.main) then s.p.main.k else if s.p.main.Finished? then tests else 0)
  }

  lemma EarlyGiven(s: State, ok: bool, setup: Setup)
    requires IsMain(s.p.main) && !InTest(s.p.main) && Given(s, |setup.tests|)
    ensures Given(MainStep(s, ok, setup), |setup.tests|)
  {
    match s.p.main
    case InstallUsr1 =>
    case Raise =>
    case Query =>
    case InstallUsr2 =>
    case ForkKiller =>
    case WaitPid =>
    case Judge =>
    case Finished =>
  }

  lemma TestGiven(s: State, ok: bool, setup: Setup)
    requires InTest(s.p.main) && s.p.main.k < |setup.tests| && Given(s, |setup.tests|)
    ensures Given(ReadTestStep(s, ok, setup), |setup.tests|)
  {
    match s.p.main
    case Install(_) =>
    case Pipe(_) =>
    case ForkWriter(_) =>
    case Read(_) =>
    case Reading(_) =>
    case Interrupted(_) =>
  }

  lemma HandlerKeepsMain(s: State, ok: bool, setup: Setup)
    requires s.p.handlers != []
    ensures var t := SigUsr2Step(s, ok, setup);
      t.p.main == s.p.main && t.reset == s.reset && t.prevent == s.prevent && t.restart == s.restart
  {
    match s.p.Running()
    case Reinstall =>
    case TestNeed =>
    case ClearNeed =>
    case StartSleep =>
    case Asleep =>
    case SleepEnded(_) =>
    case HandlerReturn =>
    case _ =>
  }

  lemma DeliverGiven(s: State, signo: Signal, left: nat, setup: Setup)
    requires Given(s, |setup.tests|)
    ensures Given(DeliverSignal(s, signo, left, setup), |setup.tests|)
  {
    var a := s.actions.Get(signo);
    HandleFacts(s.p, signo, a, left, setup.blocks);
    if a.Caught? { assert DeliverSignal(s, signo, left, setup).p == Handle(s.p, signo, a, left, setup.blocks); }
  }

  lemma RunGiven(s: State, ok: bool, mask: set<Signal>, setup: Setup)
    requires Inv(s, mask, setup) && Given(s, |setup.tests|) && Enabled(s, Run(ok))
    ensures Given(Step(s, Run(ok), setup), |setup.tests|)
  {
    if s.p.handlers != [] {
      HandlerKeepsMain(s, ok, setup);
    } else if InTest(s.p.main) {
      TestGiven(s, ok, setup);
    } else {
      EarlyGiven(s, ok, setup);
    }
  }

  lemma StepGiven(s: State, e: Event, mask: set<Signal>, setup: Setup)
    requires Inv(s, mask, setup) && Given(s, |setup.tests|)
    ensures Given(Step(s, e, setup), |setup.tests|)
  {
    if Enabled(s, e) {
      match e
      case Run(ok) => RunGiven(s, ok, mask, setup);
      case Deliver(signo, left) => DeliverGiven(s, signo, left, setup);
      case Child(_) =>
    }
  }

  lemma {:induction false} ExecGiven(s: State, es: seq<Event>, mask: set<Signal>, setup: Setup)
    requires Inv(s, mask, setup) && Given(s, |setup.tests|)
    ensures Given(Exec(s, es, setup), |setup.tests|)
    decreases es
  {
    if es != [] {
      StepGiven(s, es[0], mask, setup);
      StepKeepsInv(s, es[0], mask, setup);
      ExecGiven(Step(s, es[0], setup), es[1..], mask, setup);
    }
  }

  /**
   Every run that has passed a test has its verdict: "Reset" or "NOT reset", which one the system and
   the mask at the start decide; "Prevent" or "NOT prevent"; and one for each read test.
   */
  lemma VerdictsGiven(es: seq<Event>, mask: set<Signal>, setup: Setup)
    ensures var s := Exec(Init(mask), es, setup);
      && s.reset == (if BeforeReset(s.p.main) then None else Some(setup.resets && SIGUSR1 !in mask))
      && (s.prevent.Some? <==> InTest(s.p.main) || s.p.main.Finished?)
      && |s.restart| == (if InTest(s.p.main) then s.p.main.k else if s.p.main.Finished? then |setup.tests| else 0)
  {
    ReachedInv([], mask, setup);
    ExecGiven(Init(mask), es, mask, setup);
    ResetVerdict(es, mask, setup);
  }

  /** On every system and from every mask there is a run that gives all verdicts. */
  lemma FinishedReachable(mask: set<Signal>, setup: Setup)
    ensures exists es :: Exec(Init(mask), es, setup).alive && Exec(Init(mask), es, setup).p.main.Finished?
  {
    var es := ReachTest(mask, |setup.tests|, setup);
  }

  // ---------------------------------------------------------------- how the process ends

  /** Some step of the run is of the kind `p`. */
  predicate Happens(p: (State, Event) -> bool, s: State, es: seq<Event>, setup: Setup)
    decreases es
  {
    es != [] && (p(s, es[0]) || Happens(p, Step(s, es[0], setup), es[1..], setup))
  }

  /** A call that the program checks fails, or the read finds the end of the pipe. */
  predicate CallFails(s: State, e: Event) {
    && e.Run? && Enabled(s, e)
    && var pc := s.p.Running();
    (!e.ok && (pc.InstallUsr1? || pc.Query? || pc.InstallUsr2? || pc.ForkKiller? || pc.WaitPid? ||
               pc.Install? || pc.Pipe? || pc.ForkWriter? || pc.Reading? || pc.Reinstall?))
    || (pc.Reading? && !s.piped)
  }

  /** A second SIGUSR2 comes before sig_usr2 has re-installed itself. */
  predicate Unreliable(s: State, e: Event, setup: Setup) {
    && e.Deliver? && e.signo == SIGUSR2 && Enabled(s, e)
    && setup.resets && s.p.handlers != [] && s.p.Running().Reinstall?
  }

  predicate Ends(s: State, e: Event, setup: Setup) {
    CallFails(s, e) || Unreliable(s, e, setup)
  }

  /** The action of a signal that can arrive is to catch it, except right after a reset. */
  ghost predicate Armed(p: Process<Pc, Signal>, a: Actions, done: nat, setup: Setup) {
    match p.main
    case Raise => a.usr1.Caught?
    case Query => SIGUSR1 in p.pending ==> a.usr1.Caught?
    case InstallUsr2 => a.usr1.Default?
    case ForkKiller => a.usr1.Default? && Usr2Armed(p.handlers, a.usr2, setup.resets)
    case WaitPid => a.usr1.Default? && Usr2Armed(p.handlers, a.usr2, setup.resets)
    case Judge => a.usr1.Default? && Usr2Armed(p.handlers, a.usr2, setup.resets)
    case Pipe(k) => TestArmed(k, a, setup)
    case ForkWriter(k) => TestArmed(k, a, setup)
    case Read(k) => Waiting(k, p.pending, done, setup) ==> TestArmed(k, a, setup)
    case Reading(k) => Waiting(k, p.pending, done, setup) ==> TestArmed(k, a, setup)
    case Interrupted(k) => k < |setup.tests| ==> setup.tests[k].signo !in p.pending
    case _ => true
  }

  /** The action is reset exactly between a delivery and the first line of the handler. */
  ghost predicate Usr2Armed(hs: seq<Frame<Pc, Signal>>, usr2: Action, resets: bool) {
    && (usr2.Default? <==> resets && hs != [] && hs[|hs| - 1].pc.Reinstall?)
    && (resets ==> forall i | 0 <= i < |hs| - 1 :: !hs[i].pc.Reinstall?)
  }

  predicate TestArmed(k: nat, a: Actions, setup: Setup) {
    k < |setup.tests| ==> a.Get(setup.tests[k].signo).Caught?
  }

  predicate Waiting(k: nat, pending: multiset<Signal>, done: nat, setup: Setup) {
    done == 0 || (k < |setup.tests| && setup.tests[k].signo in pending)
  }

  ghost predicate InvArmed(s: State, setup: Setup) {
    Armed(s.p, s.actions, s.done, setup)
  }

  lemma EarlyArmed(s: State, ok: bool, mask: set<Signal>, setup: Setup)
    requires Inv(s, mask, setup) && InvArmed(s, setup) && s.p.handlers == [] && Enabled(s, Run(ok))
    requires !InTest(s.p.main) && !s.p.main.Finished?
    ensures InvArmed(MainStep(s, ok, setup), setup)
    ensures !MainStep(s, ok, setup).alive <==> CallFails(s, Run(ok))
  {
    match s.p.main
    case InstallUsr1 =>
    case Raise =>
    case Query =>
    case InstallUsr2 =>
    case ForkKiller =>
    case WaitPid =>
    case Judge =>
  }

  lemma TestArmedStep(s: State, ok: bool, mask: set<Signal>, setup: Setup)
    requires Inv(s, mask, setup) && InvArmed(s, setup) && s.p.handlers == [] && Enabled(s, Run(ok)) && InTest(s.p.main)
    ensures InvArmed(ReadTestStep(s, ok, setup), setup)
    ensures !ReadTestStep(s, ok, setup).alive <==> CallFails(s, Run(ok))
  {
    match s.p.main
    case Install(_) =>
    case Pipe(_) =>
    case ForkWriter(_) =>
    case Read(_) =>
    case Reading(_) =>
    case Interrupted(_) =>
  }

  predicate Usr2Phase(pc: Pc) {
    pc.ForkKiller? || pc.WaitPid? || pc.Judge?
  }

  /** sig_usr2 moves on and leaves the action caught. */
  lemma GotoArmed(p: Process<Pc, Signal>, pc: Pc, resets: bool)
    requires p.handlers != [] && !pc.Reinstall?
    requires resets ==> forall i | 0 <= i < |p.handlers| - 1 :: !p.handlers[i].pc.Reinstall?
    ensures forall restart :: Usr2Armed(p.Goto(pc).handlers, Caught(restart), resets)
  {
  }

  lemma Usr2HandlerArmed(s: State, ok: bool, mask: set<Signal>, setup: Setup)
    requires Inv(s, mask, setup) && s.p.handlers != [] && s.p.handlers[|s.p.handlers| - 1].signo == SIGUSR2
    requires Usr2Armed(s.p.handlers, s.actions.usr2, setup.resets)
    ensures var t := SigUsr2Step(s, ok, setup); t.alive ==> Usr2Armed(t.p.handlers, t.actions.usr2, setup.resets)
  {
    var p, r := s.p, setup.resets;
    assert FrameOk(p.handlers[|p.handlers| - 1]);
    match p.Running()
    case Reinstall => GotoArmed(p, TestNeed, r);
    case TestNeed => GotoArmed(p, if s.needSleep then ClearNeed else HandlerReturn, r);
    case ClearNeed => GotoArmed(p, StartSleep, r);
    case StartSleep => GotoArmed(p, Asleep, r);
    case Asleep => GotoArmed(p, SleepEnded(0), r);
    case SleepEnded(_) => GotoArmed(p, HandlerReturn, r);
    case HandlerReturn =>
  }

  /** What a handler leaves alone. */
  lemma HandlerTouches(s: State, ok: bool, mask: set<Signal>, setup: Setup)
    requires Inv(s, mask, setup) && s.p.handlers != [] && s.p.handlers[|s.p.handlers| - 1].signo == SIGUSR2 && s.alive
    ensures var t := SigUsr2Step(s, ok, setup);
      && t.p.main == s.p.main && t.p.pending == s.p.pending && t.done == s.done
      && t.actions.usr1 == s.actions.usr1 && t.actions.alrm == s.actions.alrm
      && (!t.alive <==> !ok && s.p.Running().Reinstall?)
  {
    assert FrameOk(s.p.handlers[|s.p.handlers| - 1]);
    match s.p.Running()
    case Reinstall =>
    case TestNeed =>
    case ClearNeed =>
    case StartSleep =>
    case Asleep =>
    case SleepEnded(_) =>
    case HandlerReturn =>
  }

  lemma HandlerArmed(s: State, ok: bool, mask: set<Signal>, setup: Setup)
    requires Inv(s, mask, setup) && InvArmed(s, setup) && s.p.handlers != [] && Enabled(s, Run(ok))
    ensures InvArmed(Step(s, Run(ok), setup), setup)
    ensures !Step(s, Run(ok), setup).alive <==> CallFails(s, Run(ok))
  {
    var top := s.p.handlers[|s.p.handlers| - 1];
    assert FrameOk(top) && top.signo == Current(s.p.main, setup);
    if top.signo == SIGUSR2 {
      assert Usr2Phase(s.p.main);
      HandlerTouches(s, ok, mask, setup);
      Usr2HandlerArmed(s, ok, mask, setup);
    }
  }

  lemma HandleLower(p: Process<Pc, Signal>, signo: Signal, a: Action, left: nat, blocks: bool)
    ensures var hs := Handle(p, signo, a, left, blocks).handlers;
      && |hs| == |p.handlers| + 1
      && forall i | 0 <= i < |p.handlers| :: hs[i].pc.Reinstall? ==> p.handlers[i].pc.Reinstall?
  {
  }

  lemma HandleArmed(p: Process<Pc, Signal>, a: Action, left: nat, setup: Setup)
    requires Usr2Armed(p.handlers, a, setup.resets) && a.Caught?
    ensures Usr2Armed(Handle(p, SIGUSR2, a, left, setup.blocks).handlers, if setup.resets then Default else a,
                      setup.resets)
  {
    HandleFacts(p, SIGUSR2, a, left, setup.blocks);
    HandleLower(p, SIGUSR2, a, left, setup.blocks);
    assert setup.resets ==> forall i | 0 <= i < |p.handlers| :: !p.handlers[i].pc.Reinstall?;
  }

  lemma Usr2DeliverArmed(s: State, left: nat, mask: set<Signal>, setup: Setup)
    requires Inv(s, mask, setup) && s.p.Deliverable(SIGUSR2) && s.alive && Usr2Phase(s.p.main)
    requires Usr2Armed(s.p.handlers, s.actions.usr2, setup.resets)
    ensures var t := DeliverSignal(s, SIGUSR2, left, setup);
      && Usr2Armed(t.p.handlers, t.actions.usr2, setup.resets)
      && (!t.alive <==> Unreliable(s, Deliver(SIGUSR2, left), setup))
  {
    var a := s.actions.usr2;
    if a.Caught? {
      var t := DeliverSignal(s, SIGUSR2, left, setup);
      HandleArmed(s.p, a, left, setup);
      assert t.p == Handle(s.p, SIGUSR2, a, left, setup.blocks);
      assert t.actions.usr2 == if setup.resets then Default else a;
    }
  }

  /** A signal other than SIGUSR2 arrives only while main waits for it, with its handler installed. */
  lemma SignalExpected(s: State, signo: Signal, mask: set<Signal>, setup: Setup)
    requires Inv(s, mask, setup) && InvArmed(s, setup) && s.p.Deliverable(signo) && signo != SIGUSR2
    ensures s.p.main.Query? || s.p.main.Read? || s.p.main.Reading?
    ensures s.actions.Get(signo).Caught?
  {
    EnterKeepsStack(s.p, signo, mask, setup);
    assert signo == Current(s.p.main, setup) && Busy(s.p, mask, setup);
    if InTest(s.p.main) { assert setup.tests[s.p.main.k].signo == signo; }
  }

  lemma OtherDeliverArmed(s: State, signo: Signal, left: nat, mask: set<Signal>, setup: Setup)
    requires Inv(s, mask, setup) && InvArmed(s, setup) && s.p.Deliverable(signo) && s.alive && signo != SIGUSR2
    ensures InvArmed(DeliverSignal(s, signo, left, setup), setup)
    ensures DeliverSignal(s, signo, left, setup).alive
  {
    var a := s.actions.Get(signo);
    SignalExpected(s, signo, mask, setup);
    HandleFacts(s.p, signo, a, left, setup.blocks);
    assert DeliverSignal(s, signo, left, setup).p == Handle(s.p, signo, a, left, setup.blocks);
  }

  lemma DeliverArmed(s: State, signo: Signal, left: nat, mask: set<Signal>, setup: Setup)
    requires Inv(s, mask, setup) && InvArmed(s, setup) && Enabled(s, Deliver(signo, left))
    ensures InvArmed(DeliverSignal(s, signo, left, setup), setup)
    ensures !DeliverSignal(s, signo, left, setup).alive <==> Unreliable(s, Deliver(signo, left), setup)
  {
    if signo == SIGUSR2 {
      EnterKeepsStack(s.p, signo, mask, setup);
      assert Usr2Phase(s.p.main);
      Usr2DeliverArmed(s, left, mask, setup);
      DeliverKeepsMain(s, signo, left, setup);
    } else {
      OtherDeliverArmed(s, signo, left, mask, setup);
    }
  }

  lemma DeliverKeepsMain(s: State, signo: Signal, left: nat, setup: Setup)
    requires !s.p.main.Reading?
    ensures s.p.main.Asleep? || DeliverSignal(s, signo, left, setup).p.main == s.p.main
  {
    HandleFacts(s.p, signo, s.actions.Get(signo), left, setup.blocks);
  }

  lemma ChildArmed(s: State, ok: bool, mask: set<Signal>, setup: Setup)
    requires Inv(s, mask, setup) && InvArmed(s, setup) && Enabled(s, Child(ok))
    ensures InvArmed(ChildStep(s, ok, setup), setup)
  {
    match s.job
    case Killer => assert !BeforeReset(s.p.main);
    case Writer(_) =>
  }

  lemma RunEnds(s: State, ok: bool, mask: set<Signal>, setup: Setup)
    requires Inv(s, mask, setup) && InvArmed(s, setup) && Enabled(s, Run(ok))
    ensures InvArmed(Step(s, Run(ok), setup), setup)
    ensures !Step(s, Run(ok), setup).alive <==> CallFails(s, Run(ok))
  {
    if s.p.handlers != [] {
      HandlerArmed(s, ok, mask, setup);
    } else if InTest(s.p.main) {
      TestArmedStep(s, ok, mask, setup);
    } else {
      EarlyArmed(s, ok, mask, setup);
    }
  }

  lemma StepEnds(s: State, e: Event, mask: set<Signal>, setup: Setup)
    requires Inv(s, mask, setup) && InvArmed(s, setup)
    ensures InvArmed(Step(s, e, setup), setup)
    ensures !Step(s, e, setup).alive <==> !s.alive || Ends(s, e, setup)
  {
    if Enabled(s, e) {
      match e
      case Run(ok) => RunEnds(s, ok, mask, setup);
      case Deliver(signo, left) => DeliverArmed(s, signo, left, mask, setup);
      case Child(ok) => ChildArmed(s, ok, mask, setup);
    }
  }

  lemma {:induction false} ExecEnds(s: State, es: seq<Event>, mask: set<Signal>, setup: Setup)
    requires Inv(s, mask, setup) && InvArmed(s, setup)
    ensures InvArmed(Exec(s, es, setup), setup)
    ensures !Exec(s, es, setup).alive <==> !s.alive || Happens((s, e) => Ends(s, e, setup), s, es, setup)
    decreases es
  {
    if es != [] {
      StepEnds(s, es[0], mask, setup);
      StepKeepsInv(s, es[0], mask, setup);
      ExecEnds(Step(s, es[0], setup), es[1..], mask, setup);
    }
  }

  /**
   The process ends early exactly if a call fails, or a second SIGUSR2 arrives while the action is
   still reset: every other signal of the two programs finds its handler installed.
   */
  lemma EndsExactly(es: seq<Event>, mask: set<Signal>, setup: Setup)
    ensures !Exec(Init(mask), es, setup).alive <==> Happens((s, e) => Ends(s, e, setup), Init(mask), es, setup)
  {
    ReachedInv([], mask, setup);
    ExecEnds(Init(mask), es, mask, setup);
  }

  /** The test of resetting leaves the default action of SIGUSR1 behind. */
  lemma DefaultRestored(es: seq<Event>, mask: set<Signal>, setup: Setup)
    ensures var s := Exec(Init(mask), es, setup);
      s.p.main.InstallUsr2? || Usr2Phase(s.p.main) ==> s.actions.usr1.Default?
  {
    ReachedInv([], mask, setup);
    ExecEnds(Init(mask), es, mask, setup);
  }

  // ---------------------------------------------------------------- unreliable signals

  predicate NoFailure(es: seq<Event>) {
    forall i | 0 <= i < |es| :: es[i] != Run(false) && es[i] != Child(false)
  }

  /** If all writes succeed, the byte is in the pipe by the time the child is done with it. */
  predicate Fed(s: State) {
    (s.p.main.Read? || s.p.main.Reading?) && s.done >= 2 ==> s.piped
  }

  lemma MainFed(s: State, ok: bool, mask: set<Signal>, setup: Setup)
    requires Inv(s, mask, setup) && Fed(s) && s.p.handlers == [] && IsMain(s.p.main)
    ensures Fed(MainStep(s, ok, setup))
  {
    match s.p.main
    case InstallUsr1 =>
    case Raise =>
    case Query =>
    case InstallUsr2 =>
    case ForkKiller =>
    case WaitPid =>
    case Judge =>
    case Install(_) =>
    case Pipe(_) =>
    case ForkWriter(_) =>
    case Read(_) =>
    case Reading(_) =>
    case Interrupted(_) =>
    case Finished =>
  }

  lemma HandlerFed(s: State, ok: bool, setup: Setup)
    requires Fed(s) && s.p.handlers != []
    ensures Fed(SigUsr2Step(s, ok, setup)) && Fed(s.(p := s.p.Return()))
  {
    match s.p.Running()
    case Reinstall =>
    case TestNeed =>
    case ClearNeed =>
    case StartSleep =>
    case Asleep =>
    case SleepEnded(_) =>
    case HandlerReturn =>
    case _ =>
  }

  lemma DeliverFed(s: State, signo: Signal, left: nat, setup: Setup)
    requires Fed(s)
    ensures Fed(DeliverSignal(s, signo, left, setup))
  {
    HandleFacts(s.p, signo, s.actions.Get(signo), left, setup.blocks);
    var a := s.actions.Get(signo);
    if a.Caught? { assert DeliverSignal(s, signo, left, setup).p == Handle(s.p, signo, a, left, setup.blocks); }
  }

  lemma ChildFed(s: State, mask: set<Signal>, setup: Setup)
    requires Inv(s, mask, setup) && Fed(s) && Enabled(s, Child(true))
    ensures Fed(ChildStep(s, true, setup))
  {
    match s.job
    case Killer =>
    case Writer(_) =>
  }

  lemma StepFed(s: State, e: Event, mask: set<Signal>, setup: Setup)
    requires Inv(s, mask, setup) && Fed(s) && e != Child(false)
    ensures Fed(Step(s, e, setup))
  {
    if Enabled(s, e) {
      match e
      case Run(ok) => if s.p.handlers == [] { MainFed(s, ok, mask, setup); } else { HandlerFed(s, ok, setup); }
      case Deliver(signo, left) => DeliverFed(s, signo, left, setup);
      case Child(_) => ChildFed(s, mask, setup);
    }
  }

  /** Without a failing call only unreliable signals end the process. */
  lemma StepSurvives(s: State, e: Event, mask: set<Signal>, setup: Setup)
    requires Inv(s, mask, setup) && InvArmed(s, setup) && Fed(s) && s.alive
    requires e != Run(false) && e != Child(false)
    requires !setup.resets || setup.blocks || SIGUSR2 in mask
    ensures Step(s, e, setup).alive
  {
    StepEnds(s, e, mask, setup);
    if e.Deliver? && Enabled(s, e) { EnterKeepsStack(s.p, e.signo, mask, setup); }
  }

  lemma {:induction false} ExecSurvives(s: State, es: seq<Event>, mask: set<Signal>, setup: Setup)
    requires Inv(s, mask, setup) && InvArmed(s, setup) && Fed(s) && s.alive && NoFailure(es)
    requires !setup.resets || setup.blocks || SIGUSR2 in mask
    ensures Exec(s, es, setup).alive
    decreases es
  {
    if es != [] {
      assert es[0] != Run(false) && es[0] != Child(false);
      StepSurvives(s, es[0], mask, setup);
      StepFed(s, es[0], mask, setup);
      StepEnds(s, es[0], mask, setup);
      StepKeepsInv(s, es[0], mask, setup);
      ExecSurvives(Step(s, es[0], setup), es[1..], mask, setup);
    }
  }

  /** Nothing can happen any more without a failing call. */
  ghost predicate Stuck(s: State) {
    !Enabled(s, Run(true)) && !Enabled(s, Child(true)) && !AnyDeliverable(s.p)
  }

  /** Before its end the program is never stuck: it can go on, its child can, or a signal can be delivered. */
  lemma NeverStuck(es: seq<Event>, mask: set<Signal>, setup: Setup)
    ensures var s := Exec(Init(mask), es, setup); s.alive && Stuck(s) ==> s.p.main.Finished?
  {
    ReachedInv(es, mask, setup);
    var s := Exec(Init(mask), es, setup);
    if s.p.handlers != [] { assert FrameOk(s.p.handlers[|s.p.handlers| - 1]); }
  }

  /**
   If the system's signals are reliable, or SIGUSR2 is blocked, a run without failing calls survives and
   stops only at the end of main, with every verdict given.
   */
  lemma Completes(es: seq<Event>, mask: set<Signal>, setup: Setup)
    requires NoFailure(es) && (!setup.resets || setup.blocks || SIGUSR2 in mask)
    ensures var s := Exec(Init(mask), es, setup);
      && s.alive
      && (Stuck(s) ==> s.p.main.Finished? && s.reset.Some? && s.prevent.Some? && |s.restart| == |setup.tests|)
  {
    ReachedInv([], mask, setup);
    ExecSurvives(Init(mask), es, mask, setup);
    NeverStuck(es, mask, setup);
    VerdictsGiven(es, mask, setup);
  }

  lemma {:induction false} HappensLater(p: (State, Event) -> bool, s: State, a: seq<Event>, b: seq<Event>, setup: Setup)
    requires Happens(p, Exec(s, a, setup), b, setup)
    ensures Happens(p, s, a + b, setup)
    decreases a
  {
    if a == [] {
      assert a + b == b;
    } else {
      assert (a + b)[0] == a[0] && (a + b)[1..] == a[1..] + b;
      HappensLater(p, Step(s, a[0], setup), a[1..], b, setup);
    }
  }

  /** Up to the moment when the action is reset and the second SIGUSR2 is pending. */
  lemma ResetAndPending(s: State, mask: set<Signal>, setup: Setup) returns (t: State, es: seq<Event>)
    requires BlockStart(s, mask) && SIGUSR2 !in mask && setup.resets && !setup.blocks
    ensures Exec(s, es, setup) == t && Unreliable(t, Deliver(SIGUSR2, 0), setup)
  {
    var q, r, c := s.p.pending, Caught(setup.restarts), Child(true);
    ToWaitPid(s, mask, setup);
    var b0 := Block(s, WaitPid, [], mask, q, r, true, 5, 0);
    var b1 := Block(s, WaitPid, [], mask, q + multiset{SIGUSR2}, r, true, 5, 1);
    assert Step(b0, c, setup) == b1;
    var b2 := Block(s, WaitPid, [] + [F(Reinstall, mask)], mask, q, Default, true, 5, 1);
    InterruptedBy(s, [], mask, true, 1, 0, setup);
    assert Step(b1, Deliver(SIGUSR2, 0), setup) == b2;
    t := Step(b2, c, setup);
    assert t == Block(s, WaitPid, [] + [F(Reinstall, mask)], mask, q + multiset{SIGUSR2}, Default, true, 5, 2);
    es := Before(b2, c, [], setup);
    es := Before(b1, Deliver(SIGUSR2, 0), es, setup);
    es := Before(b0, c, es, setup);
    es := Before(Step(s, R, setup), R, es, setup);
    es := Before(s, R, es, setup);
  }

  function Killing(setup: Setup): (State, Event) -> bool {
    (s, e) => Unreliable(s, e, setup)
  }

  predicate KilledByUsr2(mask: set<Signal>, es: seq<Event>, setup: Setup) {
    Happens(Killing(setup), Init(mask), es, setup)
  }

  /**
   A second SIGUSR2 can kill the process exactly if the system resets the action, does not block the
   signal during its handler, and SIGUSR2 is not blocked at the start: the unreliable signals of old.
   */
  lemma UnreliableExactly(mask: set<Signal>, setup: Setup)
    ensures (exists es :: KilledByUsr2(mask, es, setup))
       <==> setup.resets && !setup.blocks && SIGUSR2 !in mask
  {
    ReachedInv([], mask, setup);
    if setup.resets && !setup.blocks && SIGUSR2 !in mask {
      var es, s := ResetPhase(mask, setup);
      var t, es' := ResetAndPending(s, mask, setup);
      ExecAppend(Init(mask), es, es', setup);
      var last := [Deliver(SIGUSR2, 0)];
      assert Killing(setup)(t, last[0]);
      HappensLater(Killing(setup), Init(mask), es + es', last, setup);
      assert KilledByUsr2(mask, es + es' + last, setup);
    } else {
      forall es ensures !KilledByUsr2(mask, es, setup) {
        NeverUnreliable(Init(mask), es, mask, setup);
      }
    }
  }

  lemma {:induction false} NeverUnreliable(s: State, es: seq<Event>, mask: set<Signal>, setup: Setup)
    requires Inv(s, mask, setup) && (!setup.resets || setup.blocks || SIGUSR2 in mask)
    ensures !Happens(Killing(setup), s, es, setup)
    decreases es
  {
    if es != [] {
      if Unreliable(s, es[0], setup) { EnterKeepsStack(s.p, SIGUSR2, mask, setup); }
      StepKeepsInv(s, es[0], mask, setup);
      NeverUnreliable(Step(s, es[0], setup), es[1..], mask, setup);
    }
  }

  // ---------------------------------------------------------------- every run is finite

  /** Steps the code at `pc` can still take, the children's part and their signals included. */
  function Work(pc: Pc, tests: nat): nat {
    match pc
    case InstallUsr1 => 34 * tests + 43
    case Raise => 34 * tests + 42
    case Query => 34 * tests + 33
    case InstallUsr2 => 34 * tests + 32
    case ForkKiller => 34 * tests + 31
    case WaitPid => 34 * tests + 3
    case Judge => 34 * tests + 2
    case Install(k) => Later(k, tests) + 34
    case Pipe(k) => Later(k, tests) + 33
    case ForkWriter(k) => Later(k, tests) + 32
    case Read(k) => Later(k, tests) + 4
    case Reading(k) => Later(k, tests) + 3
    case Interrupted(k) => Later(k, tests) + 2
    case Finished => 1
    case HandlerReturn => 1
    case Reinstall => 7
    case TestNeed => 6
    case ClearNeed => 5
    case StartSleep => 4
    case Asleep => 3
    case SleepEnded(_) => 2
  }

  function Later(k: nat, tests: nat): nat {
    if k < tests then 34 * (tests - k - 1) else 0
  }

  function StackWork(hs: seq<Frame<Pc, Signal>>): nat {
    if hs == [] then 0 else StackWork(hs[..|hs| - 1]) + Work(hs[|hs| - 1].pc, 0)
  }

  function ChildWork(s: State): nat {
    if s.job.NoChild? || s.done >= 3 then 0 else 9 * (3 - s.done)
  }

  function Measure(s: State, tests: nat): nat {
    if s.alive then 8 * |s.p.pending| + Work(s.p.main, tests) + StackWork(s.p.handlers) + ChildWork(s) else 0
  }

  lemma RaiseWorks(s: State, ok: bool, setup: Setup)
    requires s.alive && s.p.handlers == [] && s.p.main.Raise?
    ensures Measure(MainStep(s, ok, setup), |setup.tests|) < Measure(s, |setup.tests|)
  {
    GenerateGrows(s.p.(main := Query), SIGUSR1);
  }

  lemma EarlyWorks(s: State, ok: bool, mask: set<Signal>, setup: Setup)
    requires Inv(s, mask, setup) && s.p.handlers == [] && Enabled(s, Run(ok)) && !InTest(s.p.main)
    ensures Measure(MainStep(s, ok, setup), |setup.tests|) < Measure(s, |setup.tests|)
  {
    match s.p.main
    case InstallUsr1 =>
    case Raise => RaiseWorks(s, ok, setup);
    case Query =>
    case InstallUsr2 =>
    case ForkKiller =>
    case WaitPid =>
    case Judge =>
  }

  lemma TestWorks(s: State, ok: bool, mask: set<Signal>, setup: Setup)
    requires Inv(s, mask, setup) && s.p.handlers == [] && Enabled(s, Run(ok)) && InTest(s.p.main)
    ensures Measure(ReadTestStep(s, ok, setup), |setup.tests|) < Measure(s, |setup.tests|)
  {
    match s.p.main
    case Install(_) =>
    case Pipe(_) =>
    case ForkWriter(_) =>
    case Read(_) =>
    case Reading(_) =>
    case Interrupted(_) =>
  }

  lemma WorkGoto(p: Process<Pc, Signal>, pc: Pc)
    requires p.handlers != []
    ensures StackWork(p.Goto(pc).handlers) == StackWork(p.handlers) - Work(p.Running(), 0) + Work(pc, 0)
  {
    var top := |p.handlers| - 1;
    assert p.Goto(pc).handlers[..top] == p.handlers[..top];
  }

  lemma GotoWorks(s: State, t: State, pc: Pc, tests: nat)
    requires s.alive && s.p.handlers != [] && t.p == s.p.Goto(pc) && t.job == s.job && t.done == s.done
    requires Work(pc, 0) < Work(s.p.Running(), 0)
    ensures Measure(t, tests) < Measure(s, tests)
  {
    WorkGoto(s.p, pc);
  }

  lemma ReturnWorks(s: State, tests: nat)
    requires s.alive && s.p.handlers != [] && Work(s.p.Running(), 0) > 0
    ensures Measure(s.(p := s.p.Return()), tests) < Measure(s, tests)
  {
  }

  lemma Usr2Works(s: State, ok: bool, setup: Setup)
    requires s.alive && s.p.handlers != [] && FrameOk(s.p.handlers[|s.p.handlers| - 1])
    ensures Measure(SigUsr2Step(s, ok, setup), |setup.tests|) < Measure(s, |setup.tests|)
  {
    var t, n := SigUsr2Step(s, ok, setup), |setup.tests|;
    match s.p.Running()
    case Reinstall => if ok { GotoWorks(s, t, TestNeed, n); }
    case TestNeed => GotoWorks(s, t, if s.needSleep then ClearNeed else HandlerReturn, n);
    case ClearNeed => GotoWorks(s, t, StartSleep, n);
    case _ => SleepWorks(s, ok, setup);
  }

  lemma SleepWorks(s: State, ok: bool, setup: Setup)
    requires s.alive && s.p.handlers != [] && FrameOk(s.p.handlers[|s.p.handlers| - 1])
    requires !s.p.Running().Reinstall? && !s.p.Running().TestNeed? && !s.p.Running().ClearNeed?
    ensures Measure(SigUsr2Step(s, ok, setup), |setup.tests|) < Measure(s, |setup.tests|)
  {
    var t, n := SigUsr2Step(s, ok, setup), |setup.tests|;
    match s.p.Running()
    case StartSleep => GotoWorks(s, t, Asleep, n);
    case Asleep => GotoWorks(s, t, SleepEnded(0), n);
    case SleepEnded(_) => GotoWorks(s, t, HandlerReturn, n);
    case HandlerReturn => ReturnWorks(s, n);
  }

  lemma ResumeWorks(p: Process<Pc, Signal>, a: Action, left: nat, tests: nat)
    ensures var q := p.Goto(Resume(p.Running(), a, left));
      Work(q.main, tests) <= Work(p.main, tests) && StackWork(q.handlers) <= StackWork(p.handlers)
  {
    if p.handlers != [] { WorkGoto(p, Resume(p.Running(), a, left)); }
  }

  lemma EnterWorks(p: Process<Pc, Signal>, signo: Signal, blocks: bool)
    requires signo in p.pending
    ensures var q := p.Enter(signo, if signo == SIGUSR2 then Reinstall else HandlerReturn, p.mask, blocks);
      StackWork(q.handlers) <= StackWork(p.handlers) + 7 && |q.pending| == |p.pending| - 1
  {
    var q := p.Enter(signo, if signo == SIGUSR2 then Reinstall else HandlerReturn, p.mask, blocks);
    assert q.handlers[..|p.handlers|] == p.handlers;
  }

  lemma DeliverWorks(s: State, signo: Signal, left: nat, setup: Setup)
    requires s.alive && s.p.Deliverable(signo)
    ensures Measure(DeliverSignal(s, signo, left, setup), |setup.tests|) < Measure(s, |setup.tests|)
  {
    var a, n := s.actions.Get(signo), |setup.tests|;
    if a.Caught? {
      HandleWorks(s.p, signo, a, left, setup.blocks, n);
      var t := DeliverSignal(s, signo, left, setup);
      assert t.p == Handle(s.p, signo, a, left, setup.blocks) && ChildWork(t) == ChildWork(s);
    } else {
      assert Work(s.p.main, n) > 0;
    }
  }

  lemma HandleWorks(p: Process<Pc, Signal>, signo: Signal, a: Action, left: nat, blocks: bool, tests: nat)
    requires signo in p.pending
    ensures var q := Handle(p, signo, a, left, blocks);
      && Work(q.main, tests) <= Work(p.main, tests) && |q.pending| == |p.pending| - 1
      && StackWork(q.handlers) <= StackWork(p.handlers) + 7
  {
    ResumeWorks(p, a, left, tests);
    EnterWorks(p.Goto(Resume(p.Running(), a, left)), signo, blocks);
  }

  lemma ChildWorks(s: State, ok: bool, setup: Setup)
    requires Enabled(s, Child(ok))
    ensures Measure(ChildStep(s, ok, setup), |setup.tests|) < Measure(s, |setup.tests|)
  {
    var t := ChildStep(s, ok, setup);
    ChildSends(s, ok, setup);
    assert ChildWork(t) + 9 <= ChildWork(s);
    assert t.alive && t.p.main == s.p.main && t.p.handlers == s.p.handlers;
  }

  /** A child sends one signal at a time. */
  lemma ChildSends(s: State, ok: bool, setup: Setup)
    ensures var t := ChildStep(s, ok, setup);
      && |t.p.pending| <= |s.p.pending| + 1 && t.p.main == s.p.main && t.p.handlers == s.p.handlers
      && t.alive == s.alive && t.job == s.job && (!s.job.NoChild? ==> t.done == s.done + 1)
  {
    match s.job
    case NoChild =>
    case Killer => GenerateGrows(s.p, SIGUSR2);
    case Writer(k) => if k < |setup.tests| { GenerateGrows(s.p, setup.tests[k].signo); }
  }

  lemma GenerateGrows(p: Process<Pc, Signal>, signo: Signal)
    ensures |p.Generate(signo, false).pending| <= |p.pending| + 1
  {
  }

  /** Every step of the process or a child and every delivery uses up some of the measure. */
  lemma StepsDecrease(s: State, e: Event, mask: set<Signal>, setup: Setup)
    requires Inv(s, mask, setup) && Enabled(s, e)
    ensures Measure(Step(s, e, setup), |setup.tests|) < Measure(s, |setup.tests|)
  {
    match e
    case Run(ok) =>
      if s.p.handlers != [] {
        assert FrameOk(s.p.handlers[|s.p.handlers| - 1]);
        if s.p.handlers[|s.p.handlers| - 1].signo == SIGUSR2 { Usr2Works(s, ok, setup); }
        else { ReturnWorks(s, |setup.tests|); }
      } else if InTest(s.p.main) {
        TestWorks(s, ok, mask, setup);
      } else {
        EarlyWorks(s, ok, mask, setup);
      }
    case Deliver(signo, left) => DeliverWorks(s, signo, left, setup);
    case Child(ok) => ChildWorks(s, ok, setup);
  }

  function Effective(s: State, es: seq<Event>, setup: Setup): nat
    decreases es
  {
    if es == [] then 0 else (if Enabled(s, es[0]) then 1 else 0) + Effective(Step(s, es[0], setup), es[1..], setup)
  }

  lemma {:induction false} RunsAreBounded(s: State, es: seq<Event>, mask: set<Signal>, setup: Setup)
    requires Inv(s, mask, setup)
    ensures Effective(s, es, setup) + Measure(Exec(s, es, setup), |setup.tests|) <= Measure(s, |setup.tests|)
    decreases es
  {
    if es != [] {
      StepKeepsInv(s, es[0], mask, setup);
      if Enabled(s, es[0]) { StepsDecrease(s, es[0], mask, setup); }
      RunsAreBounded(Step(s, es[0], setup), es[1..], mask, setup);
    }
  }

  /** Every run is finite: at most 34 steps for each read test, and 43 more. */
  lemma Termination(es: seq<Event>, mask: set<Signal>, setup: Setup)
    ensures Effective(Init(mask), es, setup) <= 34 * |setup.tests| + 43
  {
    ReachedInv([], mask, setup);
    RunsAreBounded(Init(mask), es, mask, setup);
  }
}
