/** What holds in every run of the two programs that Semantics describes. */
module SemanticsProofs {
  import opened SignalMachine
  import opened Wrappers
  import opened Semantics

  predicate Early(pc: Pc) {
    pc.InstallUsr1? || pc.Raise? || pc.Query? || pc.InstallUsr2? || pc.ForkKiller?
  }

  predicate InTest(pc: Pc) {
    pc.Install? || pc.Pipe? || pc.ForkWriter? || pc.Read? || pc.Reading? || pc.Interrupted?
  }

  predicate IsMain(pc: Pc) {
    Early(pc) || pc.WaitPid? || pc.Judge? || InTest(pc) || pc.Finished?
  }

  /** The only signal that can arrive while main stands at `pc`. */
  function Current(pc: Pc, setup: Setup): Signal {
    if pc.InstallUsr1? || pc.Raise? || pc.Query? then SIGUSR1
    else if Early(pc) || pc.WaitPid? || pc.Judge? then SIGUSR2
    else if InTest(pc) && pc.k < |setup.tests| then setup.tests[pc.k].signo
    else SIGUSR1
  }

  predicate FrameOk(f: Frame<Pc, Signal>) {
    f.pc.HandlerReturn? ||
    (f.signo == SIGUSR2 &&
      (f.pc.Reinstall? || f.pc.TestNeed? || f.pc.ClearNeed? || f.pc.StartSleep? || f.pc.Asleep? || f.pc.SleepEnded?))
  }

  ghost predicate Stack(p: Process<Pc, Signal>, mask: set<Signal>, setup: Setup) {
    var cur := Current(p.main, setup);
    && IsMain(p.main)
    && (forall i | 0 <= i < |p.handlers| ::
          p.handlers[i].saved == mask && p.handlers[i].signo == cur && FrameOk(p.handlers[i]))
    && (p.handlers != [] ==> cur !in mask)
    && (setup.blocks ==> |p.handlers| <= 1)
    && p.mask == (if setup.blocks && p.handlers != [] then mask + {cur} else mask)
    && (forall signo | signo in p.pending :: signo == cur || signo in mask)
    && (forall signo :: p.pending[signo] <= 1)
  }

  /** A signal is about to be handled or being handled. */
  predicate Busy(p: Process<Pc, Signal>, mask: set<Signal>, setup: Setup) {
    p.handlers != [] || (Current(p.main, setup) in p.pending && Current(p.main, setup) !in mask)
  }

  /** How far the children are when main stands at `pc`; what they still do generates no signal for a later test. */
  predicate Children(pc: Pc, job: Job, done: nat, piped: bool, busy: bool, tests: nat) {
    && done <= 3
    && (Early(pc) <==> job.NoChild?)
    && (pc.WaitPid? ==> job.Killer?)
    && (pc.Judge? ==> job.Killer? && done == 3)
    && (pc.Install? || pc.Pipe? || pc.ForkWriter? || pc.Finished? ==>
          (job.Killer? && done == 3) || (job.Writer? && done >= 1))
    && (pc.Read? || pc.Reading? || pc.Interrupted? ==> job == Writer(pc.k))
    && (pc.Interrupted? ==> done >= 1)
    && (pc.Read? || pc.Reading? ==> (piped || busy ==> done >= 1))
    && (InTest(pc) ==> pc.k < tests)
    && (pc.Install? || pc.Pipe? || pc.ForkWriter? || pc.Finished? ==> !busy)
    && (pc.InstallUsr1? || pc.Raise? || pc.InstallUsr2? || pc.ForkKiller? ==> !busy)
    && (pc.ForkWriter? ==> !piped)
  }

  ghost predicate Order(p: Process<Pc, Signal>, job: Job, done: nat, piped: bool, mask: set<Signal>, setup: Setup) {
    Stack(p, mask, setup) && Children(p.main, job, done, piped, Busy(p, mask, setup), |setup.tests|)
  }

  ghost predicate Inv0(s: State, mask: set<Signal>, setup: Setup) {
    Order(s.p, s.job, s.done, s.piped, mask, setup)
  }

  lemma GotoKeepsStack(p: Process<Pc, Signal>, pc: Pc, mask: set<Signal>, setup: Setup)
    requires Stack(p, mask, setup) && p.handlers != []
    requires FrameOk(p.handlers[|p.handlers| - 1].(pc := pc))
    ensures Stack(p.Goto(pc), mask, setup)
  {
  }

  lemma ReturnKeepsStack(p: Process<Pc, Signal>, mask: set<Signal>, setup: Setup)
    requires Stack(p, mask, setup) && p.handlers != []
    ensures Stack(p.Return(), mask, setup)
  {
  }

  /** With nothing deliverable, main may turn to another signal. */
  lemma MoveKeepsStack(p: Process<Pc, Signal>, pc: Pc, mask: set<Signal>, setup: Setup)
    requires Stack(p, mask, setup) && p.handlers == [] && !AnyDeliverable(p) && IsMain(pc)
    ensures Stack(p.(main := pc), mask, setup) && !Busy(p.(main := pc), mask, setup)
  {
    forall signo | signo in p.pending ensures signo in mask {
      assert !p.Deliverable(signo);
    }
  }

  lemma RaiseKeeps0(s: State, mask: set<Signal>, setup: Setup)
    requires Inv0(s, mask, setup) && s.p.handlers == [] && !AnyDeliverable(s.p) && s.p.main.Raise?
    ensures Inv0(MainStep(s, true, setup), mask, setup)
  {
    MoveKeepsStack(s.p, Query, mask, setup);
  }

  lemma EarlyKeeps0(s: State, ok: bool, mask: set<Signal>, setup: Setup)
    requires Inv0(s, mask, setup) && s.p.handlers == [] && !AnyDeliverable(s.p)
    requires s.p.main.InstallUsr1? || s.p.main.Query? || s.p.main.InstallUsr2?
    ensures Inv0(MainStep(s, ok, setup), mask, setup)
  {
    match s.p.main
    case InstallUsr1 => MoveKeepsStack(s.p, Raise, mask, setup);
    case Query => MoveKeepsStack(s.p, InstallUsr2, mask, setup);
    case InstallUsr2 => MoveKeepsStack(s.p, ForkKiller, mask, setup);
  }

  lemma MainKeeps0(s: State, ok: bool, mask: set<Signal>, setup: Setup)
    requires Inv0(s, mask, setup) && s.p.handlers == [] && Enabled(s, Run(ok)) && !InTest(s.p.main) && !s.p.main.Raise?
    ensures Inv0(MainStep(s, ok, setup), mask, setup)
  {
    match s.p.main
    case ForkKiller => MoveKeepsStack(s.p, WaitPid, mask, setup);
    case WaitPid => MoveKeepsStack(s.p, Judge, mask, setup);
    case Judge => MoveKeepsStack(s.p, Next(0, setup), mask, setup);
    case _ => EarlyKeeps0(s, ok, mask, setup);
  }

  lemma PrepareKeeps0(s: State, ok: bool, mask: set<Signal>, setup: Setup)
    requires Inv0(s, mask, setup) && s.p.handlers == [] && Enabled(s, Run(ok))
    requires s.p.main.Install? || s.p.main.Pipe? || s.p.main.ForkWriter?
    ensures Inv0(ReadTestStep(s, ok, setup), mask, setup)
  {
    var k := s.p.main.k;
    match s.p.main
    case Install(_) => MoveKeepsStack(s.p, Pipe(k), mask, setup);
    case Pipe(_) => MoveKeepsStack(s.p, ForkWriter(k), mask, setup);
    case ForkWriter(_) => MoveKeepsStack(s.p, Read(k), mask, setup);
  }

  lemma ReadTestKeeps0(s: State, ok: bool, mask: set<Signal>, setup: Setup)
    requires Inv0(s, mask, setup) && s.p.handlers == [] && Enabled(s, Run(ok))
    requires s.p.main.Read? || s.p.main.Reading? || s.p.main.Interrupted?
    ensures Inv0(ReadTestStep(s, ok, setup), mask, setup)
  {
    var k := s.p.main.k;
    match s.p.main
    case Read(_) => MoveKeepsStack(s.p, Reading(k), mask, setup);
    case Reading(_) => MoveKeepsStack(s.p, Next(k + 1, setup), mask, setup);
    case Interrupted(_) => MoveKeepsStack(s.p, Next(k + 1, setup), mask, setup);
  }

  lemma ReturnKeeps0(s: State, mask: set<Signal>, setup: Setup)
    requires Inv0(s, mask, setup) && s.p.handlers != []
    ensures Inv0(s.(p := s.p.Return()), mask, setup)
  {
    ReturnKeepsStack(s.p, mask, setup);
  }

  lemma GotoKeepsOrder(s: State, pc: Pc, mask: set<Signal>, setup: Setup)
    requires Inv0(s, mask, setup) && s.p.handlers != []
    requires FrameOk(s.p.handlers[|s.p.handlers| - 1].(pc := pc))
    ensures Order(s.p.Goto(pc), s.job, s.done, s.piped, mask, setup)
  {
    GotoKeepsStack(s.p, pc, mask, setup);
  }

  lemma Usr2Keeps0(s: State, ok: bool, mask: set<Signal>, setup: Setup)
    requires Inv0(s, mask, setup) && s.p.handlers != [] && s.p.handlers[|s.p.handlers| - 1].signo == SIGUSR2
    ensures Inv0(SigUsr2Step(s, ok, setup), mask, setup)
  {
    match s.p.Running()
    case Reinstall => GotoKeepsOrder(s, TestNeed, mask, setup);
    case TestNeed => GotoKeepsOrder(s, if s.needSleep then ClearNeed else HandlerReturn, mask, setup);
    case ClearNeed => GotoKeepsOrder(s, StartSleep, mask, setup);
    case StartSleep => GotoKeepsOrder(s, Asleep, mask, setup);
    case Asleep => GotoKeepsOrder(s, SleepEnded(0), mask, setup);
    case SleepEnded(_) => GotoKeepsOrder(s, HandlerReturn, mask, setup);
    case HandlerReturn => ReturnKeeps0(s, mask, setup);
  }

  lemma KillerKeeps0(s: State, ok: bool, mask: set<Signal>, setup: Setup)
    requires Inv0(s, mask, setup) && Enabled(s, Child(ok)) && s.job.Killer?
    ensures Inv0(ChildStep(s, ok, setup), mask, setup)
  {
  }

  lemma WriterKeeps0(s: State, ok: bool, mask: set<Signal>, setup: Setup)
    requires Inv0(s, mask, setup) && Enabled(s, Child(ok)) && s.job.Writer?
    ensures Inv0(ChildStep(s, ok, setup), mask, setup)
  {
  }

  lemma EnterKeepsStack(p: Process<Pc, Signal>, signo: Signal, mask: set<Signal>, setup: Setup)
    requires Stack(p, mask, setup) && p.Deliverable(signo)
    ensures signo == Current(p.main, setup) && signo !in mask && (setup.blocks ==> p.handlers == [])
    ensures Stack(p.Enter(signo, if signo == SIGUSR2 then Reinstall else HandlerReturn, p.mask, setup.blocks),
                  mask, setup)
  {
  }

  /** What is interrupted keeps its place in the order of events. */
  lemma ResumeKeepsOrder(s: State, signo: Signal, a: Action, left: nat, mask: set<Signal>, setup: Setup)
    requires Inv0(s, mask, setup) && s.p.Deliverable(signo)
    ensures Order(s.p.Goto(Resume(s.p.Running(), a, left)), s.job, s.done, s.piped, mask, setup)
  {
    if s.p.handlers != [] {
      GotoKeepsOrder(s, Resume(s.p.Running(), a, left), mask, setup);
    } else {
      EnterKeepsStack(s.p, signo, mask, setup);
    }
  }

  lemma EnterKeepsOrder(p: Process<Pc, Signal>, signo: Signal, job: Job, done: nat, piped: bool,
                        mask: set<Signal>, setup: Setup)
    requires Order(p, job, done, piped, mask, setup) && p.Deliverable(signo)
    ensures Order(p.Enter(signo, if signo == SIGUSR2 then Reinstall else HandlerReturn, p.mask, setup.blocks),
                  job, done, piped, mask, setup)
  {
    EnterKeepsStack(p, signo, mask, setup);
  }

  lemma DeliverKeeps0(s: State, signo: Signal, left: nat, mask: set<Signal>, setup: Setup)
    requires Inv0(s, mask, setup) && s.p.Deliverable(signo)
    ensures Inv0(DeliverSignal(s, signo, left, setup), mask, setup)
  {
    var a := s.actions.Get(signo);
    if a.Caught? {
      var q := s.p.Goto(Resume(s.p.Running(), a, left));
      ResumeKeepsOrder(s, signo, a, left, mask, setup);
      EnterKeepsOrder(q, signo, s.job, s.done, s.piped, mask, setup);
      var t := DeliverSignal(s, signo, left, setup);
      assert t.p == q.Enter(signo, if signo == SIGUSR2 then Reinstall else HandlerReturn, q.mask, setup.blocks);
      assert t.job == s.job && t.done == s.done && t.piped == s.piped;
    }
  }

  // ---------------------------------------------------------------- the verdict on resetting

  predicate ResetVerdictOk(pc: Pc, waiting: bool, usr1: Action, reset: Option<bool>, free: bool, resets: bool) {
    && (pc.InstallUsr1? || pc.Raise? || pc.Query? ==> reset == None)
    && (pc.Raise? ==> usr1.Caught?)
    && (pc.Query? ==> if waiting then usr1.Caught? else free && usr1.Default? == resets)
    && (reset.Some? ==> (reset.value <==> resets && free))
  }

  ghost predicate Inv1(s: State, mask: set<Signal>, setup: Setup) {
    ResetVerdictOk(s.p.main, SIGUSR1 in s.p.pending, s.actions.usr1, s.reset, SIGUSR1 !in mask, setup.resets)
  }

  lemma QueryKeeps1(s: State, ok: bool, mask: set<Signal>, setup: Setup)
    requires Inv0(s, mask, setup) && Inv1(s, mask, setup)
    requires s.p.handlers == [] && Enabled(s, Run(ok)) && s.p.main.Query?
    ensures Inv1(MainStep(s, ok, setup), mask, setup)
  {
    assert !s.p.Deliverable(SIGUSR1);
  }

  lemma MainKeeps1(s: State, ok: bool, mask: set<Signal>, setup: Setup)
    requires Inv1(s, mask, setup) && s.p.handlers == [] && !s.p.main.Query? && IsMain(s.p.main)
    ensures Inv1(MainStep(s, ok, setup), mask, setup)
  {
    match s.p.main
    case InstallUsr1 =>
    case Raise =>
    case InstallUsr2 =>
    case ForkKiller =>
    case WaitPid =>
    case Judge =>
    case _ => TestKeeps1(s, ok, mask, setup);
  }

  lemma TestKeeps1(s: State, ok: bool, mask: set<Signal>, setup: Setup)
    requires Inv1(s, mask, setup) && (InTest(s.p.main) || s.p.main.Finished?)
    ensures Inv1(ReadTestStep(s, ok, setup), mask, setup)
  {
    match s.p.main
    case Install(_) =>
    case Pipe(_) =>
    case ForkWriter(_) =>
    case Read(_) =>
    case Reading(_) =>
    case Interrupted(_) =>
    case Finished =>
  }

  lemma Usr2Keeps1(s: State, ok: bool, mask: set<Signal>, setup: Setup)
    requires Inv1(s, mask, setup) && s.p.handlers != []
    ensures Inv1(SigUsr2Step(s, ok, setup), mask, setup)
  {
    match s.p.Running()
    case Reinstall =>
    case TestNeed =>
    case ClearNeed =>
    case StartSleep =>
    case Asleep =>
    case SleepEnded(_) =>
    case HandlerReturn =>
    case _ =>
  }

  lemma HandleFacts(p: Process<Pc, Signal>, signo: Signal, a: Action, left: nat, blocks: bool)
    ensures var q := Handle(p, signo, a, left, blocks);
      && q.main == (if p.handlers == [] then Resume(p.main, a, left) else p.main)
      && q.pending == p.pending - multiset{signo}
      && q.handlers != []
      && q.handlers[|q.handlers| - 1].pc == (if signo == SIGUSR2 then Reinstall else HandlerReturn)
  {
  }

  lemma DeliverKeeps1(s: State, signo: Signal, left: nat, mask: set<Signal>, setup: Setup)
    requires Inv0(s, mask, setup) && Inv1(s, mask, setup) && s.p.Deliverable(signo)
    ensures Inv1(DeliverSignal(s, signo, left, setup), mask, setup)
  {
    var a := s.actions.Get(signo);
    EnterKeepsStack(s.p, signo, mask, setup);
    HandleFacts(s.p, signo, a, left, setup.blocks);
    if a.Caught? { assert DeliverSignal(s, signo, left, setup).p == Handle(s.p, signo, a, left, setup.blocks); }
  }

  lemma ChildKeeps1(s: State, ok: bool, mask: set<Signal>, setup: Setup)
    requires Inv0(s, mask, setup) && Inv1(s, mask, setup) && Enabled(s, Child(ok))
    ensures Inv1(ChildStep(s, ok, setup), mask, setup)
  {
  }

  // ---------------------------------------------------------------- the verdict on blocking

  /** The first sig_usr2 frame takes the two variables from (true, 5) to (false, 0). */
  predicate SleepOk(pc: Pc, needSleep: bool, left: nat) {
    var first := needSleep && left == 5;
    var over := !needSleep && left == 0;
    match pc
    case Reinstall => first || over
    case TestNeed => first || over
    case ClearNeed => first
    case StartSleep => !needSleep
    case Asleep => !needSleep
    case SleepEnded(r) => !needSleep && r == 0
    case HandlerReturn => over
    case _ => false
  }

  /** Where the variables stand during the blocking test, if the system blocks and SIGUSR2 was free. */
  predicate BlockOk(pc: Pc, handlers: seq<Frame<Pc, Signal>>, waiting: bool, done: nat, needSleep: bool, left: nat,
                    prevent: Option<bool>)
  {
    && (Early(pc) ==> needSleep && left == 5)
    && (pc.WaitPid? || pc.Judge? ==>
          if handlers != [] then SleepOk(handlers[|handlers| - 1].pc, needSleep, left)
          else (needSleep && left == 5 && (done == 0 || waiting)) || (!needSleep && left == 0))
    && prevent != Some(false)
  }

  ghost predicate Inv2(s: State, mask: set<Signal>, setup: Setup) {
    setup.blocks && SIGUSR2 !in mask ==>
      BlockOk(s.p.main, s.p.handlers, SIGUSR2 in s.p.pending, s.done, s.needSleep, s.leftToSleep, s.prevent)
  }

  lemma JudgeKeeps2(s: State, ok: bool, mask: set<Signal>, setup: Setup)
    requires Inv0(s, mask, setup) && Inv2(s, mask, setup) && s.p.handlers == [] && Enabled(s, Run(ok))
    requires s.p.main.Judge?
    ensures Inv2(MainStep(s, ok, setup), mask, setup)
  {
    if setup.blocks && SIGUSR2 !in mask { assert !s.p.Deliverable(SIGUSR2); }
  }

  lemma MainKeeps2(s: State, ok: bool, mask: set<Signal>, setup: Setup)
    requires Inv0(s, mask, setup) && Inv2(s, mask, setup) && s.p.handlers == [] && Enabled(s, Run(ok))
    requires !InTest(s.p.main)
    ensures Inv2(MainStep(s, ok, setup), mask, setup)
  {
    match s.p.main
    case InstallUsr1 =>
    case Raise =>
    case Query =>
    case InstallUsr2 =>
    case ForkKiller =>
    case WaitPid =>
    case Judge => JudgeKeeps2(s, ok, mask, setup);
  }

  lemma TestKeeps2(s: State, ok: bool, mask: set<Signal>, setup: Setup)
    requires Inv2(s, mask, setup) && InTest(s.p.main)
    ensures Inv2(ReadTestStep(s, ok, setup), mask, setup)
  {
    match s.p.main
    case Install(_) =>
    case Pipe(_) =>
    case ForkWriter(_) =>
    case Read(_) =>
    case Reading(_) =>
    case Interrupted(_) =>
  }

  /** sig_usr2 up to the moment it clears need_sleep. */
  lemma BeforeSleepKeeps2(s: State, ok: bool, mask: set<Signal>, setup: Setup)
    requires Inv0(s, mask, setup) && Inv2(s, mask, setup) && s.p.handlers != []
    requires s.p.Running().Reinstall? || s.p.Running().TestNeed? || s.p.Running().ClearNeed?
    requires s.p.handlers[|s.p.handlers| - 1].signo == SIGUSR2
    ensures Inv2(SigUsr2Step(s, ok, setup), mask, setup)
  {
    match s.p.Running()
    case Reinstall =>
    case TestNeed =>
    case ClearNeed =>
  }

  lemma SleepKeeps2(s: State, ok: bool, mask: set<Signal>, setup: Setup)
    requires Inv0(s, mask, setup) && Inv2(s, mask, setup) && s.p.handlers != []
    requires s.p.Running().StartSleep? || s.p.Running().Asleep? || s.p.Running().SleepEnded?
    requires s.p.handlers[|s.p.handlers| - 1].signo == SIGUSR2
    ensures Inv2(SigUsr2Step(s, ok, setup), mask, setup)
  {
    match s.p.Running()
    case StartSleep =>
    case Asleep =>
    case SleepEnded(_) =>
  }

  lemma HandlerReturnKeeps2(s: State, ok: bool, mask: set<Signal>, setup: Setup)
    requires Inv0(s, mask, setup) && Inv2(s, mask, setup) && s.p.handlers != [] && s.p.Running().HandlerReturn?
    ensures Inv2(SigUsr2Step(s, ok, setup), mask, setup)
  {
  }

  lemma Usr2Keeps2(s: State, ok: bool, mask: set<Signal>, setup: Setup)
    requires Inv0(s, mask, setup) && Inv2(s, mask, setup) && s.p.handlers != [] && Enabled(s, Run(ok))
    requires s.p.handlers[|s.p.handlers| - 1].signo == SIGUSR2
    ensures Inv2(SigUsr2Step(s, ok, setup), mask, setup)
  {
    assert FrameOk(s.p.handlers[|s.p.handlers| - 1]);
    var pc := s.p.Running();
    if pc.HandlerReturn? {
      HandlerReturnKeeps2(s, ok, mask, setup);
    } else if pc.StartSleep? || pc.Asleep? || pc.SleepEnded? {
      SleepKeeps2(s, ok, mask, setup);
    } else {
      BeforeSleepKeeps2(s, ok, mask, setup);
    }
  }

  lemma ReturnKeeps2(s: State, mask: set<Signal>, setup: Setup)
    requires Inv0(s, mask, setup) && Inv2(s, mask, setup) && s.p.handlers != []
    requires s.p.handlers[|s.p.handlers| - 1].signo != SIGUSR2
    ensures Inv2(s.(p := s.p.Return()), mask, setup)
  {
  }

  lemma DeliverKeeps2(s: State, signo: Signal, left: nat, mask: set<Signal>, setup: Setup)
    requires Inv0(s, mask, setup) && Inv2(s, mask, setup) && s.p.Deliverable(signo)
    ensures Inv2(DeliverSignal(s, signo, left, setup), mask, setup)
  {
    var a := s.actions.Get(signo);
    EnterKeepsStack(s.p, signo, mask, setup);
    HandleFacts(s.p, signo, a, left, setup.blocks);
    if a.Caught? { assert DeliverSignal(s, signo, left, setup).p == Handle(s.p, signo, a, left, setup.blocks); }
  }

  lemma ChildKeeps2(s: State, ok: bool, mask: set<Signal>, setup: Setup)
    requires s.p.main.WaitPid? || s.p.main.Judge? ==> s.job.Killer?
    requires Inv2(s, mask, setup) && Enabled(s, Child(ok))
    ensures Inv2(ChildStep(s, ok, setup), mask, setup)
  {
    match s.job
    case Killer =>
    case Writer(_) =>
  }

  // ---------------------------------------------------------------- the verdicts on restarting

  predicate RestartOk(pc: Pc, a: Actions, restart: seq<bool>, tests: seq<RestartTest>, mask: set<Signal>) {
    && (forall j | 0 <= j < |restart| && !restart[j] ::
          j < |tests| && !tests[j].restarts && tests[j].signo !in mask)
    && (if InTest(pc) then |restart| == pc.k < |tests|
        else if pc.Finished? then |restart| == |tests|
        else restart == [])
    && (pc.Interrupted? ==> pc.k < |tests| && !tests[pc.k].restarts && tests[pc.k].signo !in mask)
    && ((pc.Pipe? || pc.ForkWriter? || pc.Read? || pc.Reading?) && pc.k < |tests| ==>
          a.Get(tests[pc.k].signo) in {Default, Caught(tests[pc.k].restarts)})
  }

  ghost predicate Inv3(s: State, mask: set<Signal>, setup: Setup) {
    RestartOk(s.p.main, s.actions, s.restart, setup.tests, mask)
  }

  lemma MainKeeps3(s: State, ok: bool, mask: set<Signal>, setup: Setup)
    requires IsMain(s.p.main) && Inv3(s, mask, setup) && !InTest(s.p.main)
    ensures Inv3(MainStep(s, ok, setup), mask, setup)
  {
    BeforeTests(s, ok, setup);
  }

  /** No verdict on restarting is given before the first read test. */
  lemma BeforeTests(s: State, ok: bool, setup: Setup)
    requires IsMain(s.p.main) && !InTest(s.p.main)
    ensures var t := MainStep(s, ok, setup);
      && t.restart == s.restart
      && (t.p.main == s.p.main || Early(t.p.main) || t.p.main.WaitPid? || t.p.main.Judge? ||
          (s.p.main.Judge? && t.p.main == Next(0, setup)))
      && (s.p.main.Finished? ==> t == s)
      && (Early(s.p.main) || s.p.main.WaitPid? ==> !t.p.main.Finished?)
  {
    match s.p.main
    case InstallUsr1 =>
    case Raise =>
    case Query =>
    case InstallUsr2 =>
    case ForkKiller =>
    case WaitPid =>
    case Judge =>
    case Finished =>
  }

  lemma TestKeeps3(s: State, ok: bool, mask: set<Signal>, setup: Setup)
    requires Inv3(s, mask, setup) && InTest(s.p.main)
    ensures Inv3(ReadTestStep(s, ok, setup), mask, setup)
  {
    match s.p.main
    case Install(_) =>
    case Pipe(_) =>
    case ForkWriter(_) =>
    case Read(_) =>
    case Reading(_) =>
    case Interrupted(_) =>
  }

  lemma Usr2Keeps3(s: State, ok: bool, mask: set<Signal>, setup: Setup)
    requires Inv0(s, mask, setup) && Inv3(s, mask, setup) && s.p.handlers != []
    requires s.p.handlers[|s.p.handlers| - 1].signo == SIGUSR2
    ensures Inv3(SigUsr2Step(s, ok, setup), mask, setup)
  {
    match s.p.Running()
    case Reinstall =>
    case TestNeed =>
    case ClearNeed =>
    case StartSleep =>
    case Asleep =>
    case SleepEnded(_) =>
    case HandlerReturn =>
  }

  lemma DeliverKeeps3(s: State, signo: Signal, left: nat, mask: set<Signal>, setup: Setup)
    requires Inv0(s, mask, setup) && Inv3(s, mask, setup) && s.p.Deliverable(signo)
    ensures Inv3(DeliverSignal(s, signo, left, setup), mask, setup)
  {
    var a := s.actions.Get(signo);
    EnterKeepsStack(s.p, signo, mask, setup);
    HandleFacts(s.p, signo, a, left, setup.blocks);
    if a.Caught? { assert DeliverSignal(s, signo, left, setup).p == Handle(s.p, signo, a, left, setup.blocks); }
  }

  lemma ChildKeeps3(s: State, ok: bool, mask: set<Signal>, setup: Setup)
    requires Inv3(s, mask, setup)
    ensures Inv3(ChildStep(s, ok, setup), mask, setup)
  {
  }

  // ---------------------------------------------------------------- every run

  ghost predicate Inv(s: State, mask: set<Signal>, setup: Setup) {
    Inv0(s, mask, setup) && Inv1(s, mask, setup) && Inv2(s, mask, setup) && Inv3(s, mask, setup)
  }

  lemma MainKeepsInv(s: State, ok: bool, mask: set<Signal>, setup: Setup)
    requires Inv(s, mask, setup) && s.p.handlers == [] && Enabled(s, Run(ok))
    ensures Inv(MainStep(s, ok, setup), mask, setup)
  {
    if s.p.main.Query? { QueryKeeps1(s, ok, mask, setup); } else { MainKeeps1(s, ok, mask, setup); }
    if InTest(s.p.main) {
      if s.p.main.Install? || s.p.main.Pipe? || s.p.main.ForkWriter? {
        PrepareKeeps0(s, ok, mask, setup);
      } else {
        ReadTestKeeps0(s, ok, mask, setup);
      }
      TestKeeps2(s, ok, mask, setup);
      TestKeeps3(s, ok, mask, setup);
    } else {
      if s.p.main.Raise? { RaiseKeeps0(s, mask, setup); } else { MainKeeps0(s, ok, mask, setup); }
      MainKeeps2(s, ok, mask, setup);
      MainKeeps3(s, ok, mask, setup);
    }
  }

  lemma HandlerKeepsInv(s: State, ok: bool, mask: set<Signal>, setup: Setup)
    requires Inv(s, mask, setup) && s.p.handlers != [] && Enabled(s, Run(ok))
    ensures Inv(Step(s, Run(ok), setup), mask, setup)
  {
    if s.p.handlers[|s.p.handlers| - 1].signo == SIGUSR2 {
      Usr2Keeps0(s, ok, mask, setup);
      Usr2Keeps1(s, ok, mask, setup);
      Usr2Keeps2(s, ok, mask, setup);
      Usr2Keeps3(s, ok, mask, setup);
    } else {
      ReturnKeeps0(s, mask, setup);
      ReturnKeeps2(s, mask, setup);
    }
  }

  lemma StepKeepsInv(s: State, e: Event, mask: set<Signal>, setup: Setup)
    requires Inv(s, mask, setup)
    ensures Inv(Step(s, e, setup), mask, setup)
  {
    if Enabled(s, e) {
      match e
      case Run(ok) =>
        if s.p.handlers == [] { MainKeepsInv(s, ok, mask, setup); } else { HandlerKeepsInv(s, ok, mask, setup); }
      case Deliver(signo, left) =>
        DeliverKeeps0(s, signo, left, mask, setup);
        DeliverKeeps1(s, signo, left, mask, setup);
        DeliverKeeps2(s, signo, left, mask, setup);
        DeliverKeeps3(s, signo, left, mask, setup);
      case Child(ok) =>
        if s.job.Killer? { KillerKeeps0(s, ok, mask, setup); } else { WriterKeeps0(s, ok, mask, setup); }
        ChildKeeps1(s, ok, mask, setup);
        ChildKeeps2(s, ok, mask, setup);
        ChildKeeps3(s, ok, mask, setup);
    }
  }

  lemma {:induction false} ExecInv(s: State, es: seq<Event>, mask: set<Signal>, setup: Setup)
    requires Inv(s, mask, setup)
    ensures Inv(Exec(s, es, setup), mask, setup)
    decreases es
  {
    if es != [] {
      StepKeepsInv(s, es[0], mask, setup);
      ExecInv(Step(s, es[0], setup), es[1..], mask, setup);
    }
  }

  lemma ReachedInv(es: seq<Event>, mask: set<Signal>, setup: Setup)
    ensures Inv(Exec(Init(mask), es, setup), mask, setup)
  {
    ExecInv(Init(mask), es, mask, setup);
  }
}
