/** How signals/sigsetjmp.c goes on after a signal, and how it ends. */
module SigSetjmpEndings {
  import opened SignalMachine
  import opened Wrappers
  import opened SigSetjmp

  // ---------------------------------------------------------------- a signal that is caught

  predicate Usr1Installed(pc: Pc) {
    !pc.InstallUsr1?
  }

  predicate AlrmInstalled(pc: Pc) {
    !pc.InstallUsr1? && !pc.InstallAlrm?
  }

  /** Both installations stay in force once main is past them, and "ending main" is printed once for a jump. */
  predicate Placed(s: State) {
    && s.usr1Installed == Usr1Installed(s.p.main) && s.alrmInstalled == AlrmInstalled(s.p.main)
    && |s.endings| + (if s.p.main.Ending? then 1 else 0) <= s.jumps
    && (s.p.main.Return? ==> s.endings != [])
  }

  lemma MainPlaced(s: State, ok: bool)
    requires Placed(s) && s.p.handlers == []
    ensures Placed(MainStep(s, ok))
  {
    match s.p.main
    case InstallUsr1 =>
    case InstallAlrm =>
    case Setjmp =>
    case SetCanjump =>
    case Ending =>
    case Return =>
    case _ =>
  }

  lemma HandlerPlaced(s: State, ok: bool, mask: set<Signal>, cfg: Config)
    requires Inv(s, mask, cfg) && Placed(s) && s.p.handlers != []
    ensures Placed(SigUsr1Step(s, ok, cfg)) && Placed(SigAlrmStep(s, ok))
  {
    match s.p.Running()
    case Jump =>
    case _ =>
  }

  lemma StepPlaced(s: State, e: Event, mask: set<Signal>, cfg: Config)
    requires Inv(s, mask, cfg) && Placed(s)
    ensures Placed(Step(s, e, cfg))
  {
    if e.Run? && Enabled(s, e) {
      if s.p.handlers == [] { MainPlaced(s, e.ok); } else { HandlerPlaced(s, e.ok, mask, cfg); }
    }
  }

  lemma {:induction false} ExecPlaced(s: State, es: seq<Event>, mask: set<Signal>, cfg: Config)
    requires Inv(s, mask, cfg) && Placed(s)
    ensures Placed(Exec(s, es, cfg))
    decreases es
  {
    if es != [] {
      StepPlaced(s, es[0], mask, cfg);
      StepKeepsInv(s, es[0], mask, cfg);
      ExecPlaced(Step(s, es[0], cfg), es[1..], mask, cfg);
    }
  }

  lemma ReachedPlaced(es: seq<Event>, mask: set<Signal>, cfg: Config)
    ensures Placed(Exec(Init(mask), es, cfg))
  {
    ReachedInv([], mask, cfg);
    ExecPlaced(Init(mask), es, mask, cfg);
  }

  /** What is left of the process once a signal that arrived has been handled. */
  function Consumed(s: State, signo: Signal): State {
    s.(p := s.p.(pending := s.p.pending - multiset{signo}))
  }

  /**
   Once its handler is installed, a signal that is delivered starts the handler in a live process, and
   the interrupted code goes on from where it was, under its mask, when that returns.
   */
  lemma DeliveryIsCaught(es: seq<Event>, signo: Signal, mask: set<Signal>, cfg: Config)
    requires var s := Exec(Init(mask), es, cfg);
      && Enabled(s, Deliver(signo))
      && if signo == SIGUSR1 then Usr1Installed(s.p.main) else AlrmInstalled(s.p.main)
    ensures var s := Exec(Init(mask), es, cfg);
      var t := Step(s, Deliver(signo), cfg);
      && t.alive && t.p.handlers != [] && t.p.handlers[|t.p.handlers| - 1].signo == signo
      && t.(p := t.p.Return()) == Consumed(s, signo)
  {
    ReachedPlaced(es, mask, cfg);
    var p := Exec(Init(mask), es, cfg).p;
    EnterThenReturn(p, signo, if signo == SIGUSR1 then TestGuard else InAlrm, true);
  }

  /** A SIGALRM leaves no trace, whatever it interrupts: its handler prints and returns. */
  lemma AlarmPasses(es: seq<Event>, mask: set<Signal>, cfg: Config)
    requires var s := Exec(Init(mask), es, cfg); Enabled(s, Deliver(SIGALRM)) && AlrmInstalled(s.p.main)
    ensures var s := Exec(Init(mask), es, cfg);
      Step(Step(Step(s, Deliver(SIGALRM), cfg), Run(true), cfg), Run(true), cfg) == Consumed(s, SIGALRM)
  {
    DeliveryIsCaught(es, SIGALRM, mask, cfg);
    var s := Exec(Init(mask), es, cfg);
    var t := Step(s, Deliver(SIGALRM), cfg);
    assert t == s.(p := s.p.Enter(SIGALRM, InAlrm, s.p.mask, true));
    HandlerLine(s, SIGALRM, InAlrm, AlrmReturn);
    var u := s.(p := s.p.Enter(SIGALRM, AlrmReturn, s.p.mask, true));
    assert Step(t, Run(true), cfg) == u;
    EnterThenReturn(s.p, SIGALRM, AlrmReturn, true);
    assert Step(u, Run(true), cfg) == u.(p := u.p.Return());
  }

  lemma HandlerLine(s: State, signo: Signal, pc: Pc, next: Pc)
    ensures s.p.Enter(signo, pc, s.p.mask, true).Goto(next) == s.p.Enter(signo, next, s.p.mask, true)
  {
  }

  /** With the guard that tests canjump, so does a SIGUSR1 that finds the flag clear. */
  lemma GuardedSignalPasses(es: seq<Event>, mask: set<Signal>, cfg: Config)
    requires cfg.guard.TestsCanjump?
    requires var s := Exec(Init(mask), es, cfg);
      Enabled(s, Deliver(SIGUSR1)) && Usr1Installed(s.p.main) && !s.canjump
    ensures var s := Exec(Init(mask), es, cfg);
      Step(Step(Step(s, Deliver(SIGUSR1), cfg), Run(true), cfg), Run(true), cfg) == Consumed(s, SIGUSR1)
  {
    DeliveryIsCaught(es, SIGUSR1, mask, cfg);
    var s := Exec(Init(mask), es, cfg);
    var t := Step(s, Deliver(SIGUSR1), cfg);
    assert t == s.(p := s.p.Enter(SIGUSR1, TestGuard, s.p.mask, true));
    HandlerLine(s, SIGUSR1, TestGuard, UsrReturn);
    var u := s.(p := s.p.Enter(SIGUSR1, UsrReturn, s.p.mask, true));
    assert Step(t, Run(true), cfg) == u;
    EnterThenReturn(s.p, SIGUSR1, UsrReturn, true);
    assert Step(u, Run(true), cfg) == u.(p := u.p.Return());
  }

  // ---------------------------------------------------------------- how the process ends

  /** Some step of the run is of the kind `p`. */
  predicate Happens(p: (State, Event) -> bool, s: State, es: seq<Event>, cfg: Config)
    decreases es
  {
    es != [] && (p(s, es[0]) || Happens(p, Step(s, es[0], cfg), es[1..], cfg))
  }

  /** An installation fails, or pr_mask does. */
  predicate CallFails(s: State, e: Event) {
    e == Run(false) &&
    var pc := s.p.Running();
    pc.InstallUsr1? || pc.InstallAlrm? || pc.Ending? || pc.Starting? || pc.Spin? || pc.InAlrm?
  }

  /** A signal arrives before its handler is installed. */
  predicate SignalKills(s: State, e: Event) {
    && e.Deliver? && s.p.Deliverable(e.signo)
    && if e.signo == SIGUSR1 then !Usr1Installed(s.p.main) else !AlrmInstalled(s.p.main)
  }

  /** siglongjmp is called while main is not past sigsetjmp. */
  predicate JumpsWild(s: State, e: Event) {
    s.alive && e.Run? && s.p.Running().Jump? && BeforeSetjmp(s.p.main)
  }

  predicate Ends(s: State, e: Event) {
    s.alive && (CallFails(s, e) || SignalKills(s, e) || JumpsWild(s, e) || (e.Run? && s.p.Running().Return?))
  }

  lemma MainEnds(s: State, ok: bool, mask: set<Signal>, cfg: Config)
    requires Inv(s, mask, cfg) && s.alive && s.p.handlers == []
    ensures !MainStep(s, ok).alive <==> Ends(s, Run(ok))
    ensures MainStep(s, ok).wild == s.wild
  {
    match s.p.main
    case InstallUsr1 =>
    case InstallAlrm =>
    case Setjmp =>
    case SetCanjump =>
    case Pause =>
    case Ending =>
    case Return =>
  }

  lemma HandlerEnds(s: State, ok: bool, mask: set<Signal>, cfg: Config)
    requires Inv(s, mask, cfg) && s.alive && s.p.handlers != []
    ensures var t := Step(s, Run(ok), cfg);
      && (!t.alive <==> Ends(s, Run(ok)))
      && (t.wild <==> s.wild || JumpsWild(s, Run(ok)))
  {
    assert FrameOk(s.p.handlers[|s.p.handlers| - 1]);
    match s.p.Running()
    case TestGuard =>
    case Starting =>
    case Spin =>
    case ClearCanjump =>
    case Jump =>
    case UsrReturn =>
    case InAlrm =>
    case AlrmReturn =>
  }

  lemma StepEnds(s: State, e: Event, mask: set<Signal>, cfg: Config)
    requires Inv(s, mask, cfg) && Placed(s)
    ensures !Step(s, e, cfg).alive <==> !s.alive || Ends(s, e)
    ensures Step(s, e, cfg).wild <==> s.wild || JumpsWild(s, e)
  {
    if s.alive && e.Run? {
      if s.p.handlers == [] { MainEnds(s, e.ok, mask, cfg); } else { HandlerEnds(s, e.ok, mask, cfg); }
    }
  }

  lemma {:induction false} ExecEnds(s: State, es: seq<Event>, mask: set<Signal>, cfg: Config)
    requires Inv(s, mask, cfg) && Placed(s)
    ensures !Exec(s, es, cfg).alive <==> !s.alive || Happens(Ends, s, es, cfg)
    ensures Exec(s, es, cfg).wild <==> s.wild || Happens(JumpsWild, s, es, cfg)
    decreases es
  {
    if es != [] {
      StepEnds(s, es[0], mask, cfg);
      StepPlaced(s, es[0], mask, cfg);
      StepKeepsInv(s, es[0], mask, cfg);
      ExecEnds(Step(s, es[0], cfg), es[1..], mask, cfg);
    }
  }

  /**
   The process ends exactly by a failing call, a signal that comes before its handler is installed, a
   siglongjmp before sigsetjmp, or main's return; and the jump is wild exactly in the third case.
   */
  lemma EndsExactly(es: seq<Event>, mask: set<Signal>, cfg: Config)
    ensures !Exec(Init(mask), es, cfg).alive <==> Happens(Ends, Init(mask), es, cfg)
    ensures Exec(Init(mask), es, cfg).wild <==> Happens(JumpsWild, Init(mask), es, cfg)
  {
    ReachedInv([], mask, cfg);
    ExecEnds(Init(mask), es, mask, cfg);
  }

  /** main returns only after it has printed "ending main", and prints that once for a jump. */
  lemma EndingPrinted(es: seq<Event>, mask: set<Signal>, cfg: Config)
    ensures var s := Exec(Init(mask), es, cfg);
      |s.endings| <= s.jumps && (s.p.main.Return? ==> s.endings != [])
  {
    ReachedPlaced(es, mask, cfg);
  }

  // ---------------------------------------------------------------- every run is finite

  /** Steps the code at `pc` can still take by itself; a jump takes main back to "ending main". */
  function Work(pc: Pc): nat {
    match pc
    case InstallUsr1 => 7 case InstallAlrm => 6 case Setjmp => 5 case SetCanjump => 4 case Pause => 3
    case Ending => 2 case Return => 1
    case TestGuard => 6 case Starting => 5 case Spin => 4 case ClearCanjump => 3 case Jump => 2 case UsrReturn => 1
    case InAlrm => 2 case AlrmReturn => 1
  }

  function StackWork(hs: seq<Frame<Pc, Signal>>): nat {
    if hs == [] then 0 else StackWork(hs[..|hs| - 1]) + Work(hs[|hs| - 1].pc)
  }

  function Measure(s: State): nat {
    if s.alive then 7 * |s.p.pending| + Work(s.p.main) + StackWork(s.p.handlers) else 0
  }

  lemma WorkGoto(p: Process<Pc, Signal>, pc: Pc)
    requires p.handlers != []
    ensures StackWork(p.Goto(pc).handlers) == StackWork(p.handlers) - Work(p.Running()) + Work(pc)
  {
    var top := |p.handlers| - 1;
    assert p.Goto(pc).handlers[..top] == p.handlers[..top];
  }

  lemma GotoWorks(s: State, t: State, pc: Pc)
    requires s.alive && s.p.handlers != [] && t.p == s.p.Goto(pc) && Work(pc) < Work(s.p.Running())
    ensures Measure(t) < Measure(s)
  {
    WorkGoto(s.p, pc);
  }

  lemma Usr1Works(s: State, ok: bool, mask: set<Signal>, cfg: Config)
    requires Inv(s, mask, cfg) && s.alive && s.p.handlers != [] && s.p.handlers[|s.p.handlers| - 1].signo == SIGUSR1
    ensures Measure(SigUsr1Step(s, ok, cfg)) < Measure(s)
  {
    var t := SigUsr1Step(s, ok, cfg);
    match s.p.Running()
    case TestGuard => GotoWorks(s, t, if cfg.guard.TestsCanjump? && !s.canjump then UsrReturn else Starting);
    case Starting => if ok { GotoWorks(s, t, Spin); }
    case Spin => if ok { GotoWorks(s, t, ClearCanjump); }
    case ClearCanjump => GotoWorks(s, t, Jump);
    case Jump => JumpWorks(s, mask, cfg);
    case UsrReturn => ReturnWorks(s);
  }

  lemma AlrmWorks(s: State, ok: bool, mask: set<Signal>, cfg: Config)
    requires Inv(s, mask, cfg) && s.alive && s.p.handlers != [] && s.p.handlers[|s.p.handlers| - 1].signo == SIGALRM
    ensures Measure(SigAlrmStep(s, ok)) < Measure(s)
  {
    match s.p.Running()
    case InAlrm => if ok { GotoWorks(s, SigAlrmStep(s, ok), AlrmReturn); }
    case AlrmReturn => ReturnWorks(s);
  }

  lemma ReturnWorks(s: State)
    requires s.alive && s.p.handlers != [] && Work(s.p.Running()) > 0
    ensures Measure(s.(p := s.p.Return())) < Measure(s)
  {
  }

  lemma JumpWorks(s: State, mask: set<Signal>, cfg: Config)
    requires Inv(s, mask, cfg) && s.alive && s.p.handlers != [] && s.p.Running().Jump?
    ensures Measure(Siglongjmp(s, cfg)) < Measure(s)
  {
    assert StackWork(s.p.handlers) >= Work(s.p.Running());
  }

  lemma MainWorks(s: State, ok: bool, mask: set<Signal>, cfg: Config)
    requires Inv(s, mask, cfg) && s.alive && s.p.handlers == [] && !s.p.main.Pause?
    ensures Measure(MainStep(s, ok)) < Measure(s)
  {
    match s.p.main
    case InstallUsr1 =>
    case InstallAlrm =>
    case Setjmp =>
    case SetCanjump =>
    case Ending =>
    case Return =>
  }

  lemma EnterWorks(p: Process<Pc, Signal>, signo: Signal, entry: Pc)
    requires signo in p.pending
    ensures var q := p.Enter(signo, entry, p.mask, true);
      StackWork(q.handlers) == StackWork(p.handlers) + Work(entry) && |q.pending| == |p.pending| - 1
  {
    var q := p.Enter(signo, entry, p.mask, true);
    assert q.handlers[..|p.handlers|] == p.handlers;
  }

  lemma DeliverWorks(s: State, signo: Signal)
    requires s.alive && s.p.Deliverable(signo)
    ensures Measure(DeliverSignal(s, signo)) < Measure(s)
  {
    var entry := if signo == SIGUSR1 then TestGuard else InAlrm;
    EnterWorks(s.p, signo, entry);
    var t := DeliverSignal(s, signo);
    if t.alive { assert t.p == s.p.Enter(signo, entry, s.p.mask, true); }
  }

  /** Every step and every delivery uses up some of the measure. */
  lemma StepsDecrease(s: State, e: Event, mask: set<Signal>, cfg: Config)
    requires Inv(s, mask, cfg) && Enabled(s, e) && !e.Kill?
    ensures Measure(Step(s, e, cfg)) < Measure(s)
  {
    match e
    case Run(ok) =>
      if s.p.handlers == [] { MainWorks(s, ok, mask, cfg); }
      else if s.p.handlers[|s.p.handlers| - 1].signo == SIGUSR1 { Usr1Works(s, ok, mask, cfg); }
      else { AlrmWorks(s, ok, mask, cfg); }
    case Deliver(signo) => DeliverWorks(s, signo);
  }

  lemma KillAddsWork(s: State, signo: Signal, cfg: Config)
    ensures Measure(Step(s, Kill(signo), cfg)) <= Measure(s) + 7
  {
    assert |s.p.pending + multiset{signo}| == |s.p.pending| + 1;
  }

  function Effective(s: State, es: seq<Event>, cfg: Config): nat
    decreases es
  {
    if es == [] then 0
    else (if Enabled(s, es[0]) && !es[0].Kill? then 1 else 0) + Effective(Step(s, es[0], cfg), es[1..], cfg)
  }

  function Kills(es: seq<Event>): nat {
    if es == [] then 0 else (if es[0].Kill? then 1 else 0) + Kills(es[1..])
  }

  lemma {:induction false} RunsAreBounded(s: State, es: seq<Event>, mask: set<Signal>, cfg: Config)
    requires Inv(s, mask, cfg)
    ensures Effective(s, es, cfg) + Measure(Exec(s, es, cfg)) <= Measure(s) + 7 * Kills(es)
    decreases es
  {
    if es != [] {
      StepKeepsInv(s, es[0], mask, cfg);
      if es[0].Kill? { KillAddsWork(s, es[0].signo, cfg); }
      else if Enabled(s, es[0]) { StepsDecrease(s, es[0], mask, cfg); }
      RunsAreBounded(Step(s, es[0], cfg), es[1..], mask, cfg);
    }
  }

  /** Any run in which finitely many signals are sent is finite: at most 7 steps each, and 7 more. */
  lemma Termination(es: seq<Event>, mask: set<Signal>, cfg: Config)
    ensures Effective(Init(mask), es, cfg) <= 7 + 7 * Kills(es)
  {
    ReachedInv([], mask, cfg);
    RunsAreBounded(Init(mask), es, mask, cfg);
  }

  /** The process can only be stuck in pause, with nothing to deliver. */
  lemma StuckOnlyInPause(es: seq<Event>, mask: set<Signal>, cfg: Config)
    ensures var s := Exec(Init(mask), es, cfg);
      s.alive ==>
        ((forall e: Event | !e.Kill? :: !Enabled(s, e)) <==>
         s.p.handlers == [] && s.p.main.Pause? && forall signo | signo in s.p.pending :: signo in s.p.mask)
  {
    ReachedInv(es, mask, cfg);
    var s := Exec(Init(mask), es, cfg);
    if s.alive {
      if s.p.handlers == [] && s.p.main.Pause? {
        if signo :| signo in s.p.pending && signo !in s.p.mask {
          assert Enabled(s, Deliver(signo)) && !Deliver(signo).Kill?;
        }
      } else {
        if s.p.handlers != [] { assert FrameOk(s.p.handlers[|s.p.handlers| - 1]); }
        assert Enabled(s, Run(true)) && !Run(true).Kill?;
      }
    }
  }

  // ---------------------------------------------------------------- which handlers a jump abandons

  lemma StepCut(s: State, e: Event, mask: set<Signal>, cfg: Config)
    requires Inv(s, mask, cfg) && s.cut !! mask
    ensures Step(s, e, cfg).cut !! mask
  {
    if e.Run? && Enabled(s, e) && s.p.handlers != [] {
      assert forall i | 0 <= i < |s.p.handlers| :: s.p.handlers[i].signo !in mask;
      assert Handled(s.p.handlers) !! mask;
    }
  }

  lemma {:induction false} ExecCut(s: State, es: seq<Event>, mask: set<Signal>, cfg: Config)
    requires Inv(s, mask, cfg) && s.cut !! mask
    ensures Exec(s, es, cfg).cut !! mask
    decreases es
  {
    if es != [] {
      StepCut(s, es[0], mask, cfg);
      StepKeepsInv(s, es[0], mask, cfg);
      ExecCut(Step(s, es[0], cfg), es[1..], mask, cfg);
    }
  }

  /** sig_usr1 at `pc`, started while sig_alrm was running. */
  function InBoth(s: State, pc: Pc): State {
    var m := s.p.mask;
    s.(p := Process(s.p.main, [Frame(InAlrm, SIGALRM, m), Frame(pc, SIGUSR1, m + {SIGALRM})],
                    m + {SIGALRM} + {SIGUSR1}, multiset{}))
  }

  lemma EnterBoth(s: State, es: seq<Event>, cfg: Config) returns (es': seq<Event>)
    requires s.alive && s.usr1Installed && s.alrmInstalled && s.p.handlers == [] && s.p.pending == multiset{}
    requires SIGUSR1 !in s.p.mask && SIGALRM !in s.p.mask
    ensures Exec(s, es', cfg) == Exec(InBoth(s, TestGuard), es, cfg)
  {
    var m := s.p.mask;
    var s1 := Step(s, Kill(SIGALRM), cfg);
    var s2 := Step(s1, Deliver(SIGALRM), cfg);
    assert s2 == s.(p := Process(s.p.main, [Frame(InAlrm, SIGALRM, m)], m + {SIGALRM}, multiset{}));
    var s3 := Step(s2, Kill(SIGUSR1), cfg);
    assert s3 == s2.(p := s2.p.(pending := multiset{SIGUSR1}));
    assert Step(s3, Deliver(SIGUSR1), cfg) == InBoth(s, TestGuard);
    es' := Before(s3, Deliver(SIGUSR1), es, cfg);
    es' := Before(s2, Kill(SIGUSR1), es', cfg);
    es' := Before(s1, Deliver(SIGALRM), es', cfg);
    es' := Before(s, Kill(SIGALRM), es', cfg);
  }

  lemma GuardPassed(s: State, cfg: Config)
    requires s.alive && s.canjump
    ensures Step(InBoth(s, TestGuard), Run(true), cfg) == InBoth(s, Starting)
    ensures Step(InBoth(s, Starting), Run(true), cfg) == InBoth(s, Spin)
  {
  }

  lemma LoopLeft(s: State, cfg: Config)
    requires s.alive
    ensures Step(InBoth(s, Spin), Run(true), cfg) == InBoth(s, ClearCanjump)
    ensures Step(InBoth(s, ClearCanjump), Run(true), cfg) == InBoth(s, Jump).(canjump := false)
  {
  }

  lemma JumpFromBoth(s: State, cfg: Config)
    requires s.alive && s.jmpbuf.Some?
    ensures Step(InBoth(s, Jump).(canjump := false), Run(true), cfg).cut == {SIGUSR1, SIGALRM}
  {
    var hs := InBoth(s, Jump).p.handlers;
    assert hs[0].signo in Handled(hs) && hs[1].signo in Handled(hs);
    assert Handled(hs) == {SIGUSR1, SIGALRM};
  }

  /** A jump can abandon both handlers at once exactly if both signals were free at the start. */
  lemma BothAbandonedExactly(mask: set<Signal>, cfg: Config)
    ensures (exists es :: Exec(Init(mask), es, cfg).cut == {SIGUSR1, SIGALRM})
       <==> SIGUSR1 !in mask && SIGALRM !in mask
  {
    ReachedInv([], mask, cfg);
    forall es | Exec(Init(mask), es, cfg).cut == {SIGUSR1, SIGALRM} ensures SIGUSR1 !in mask && SIGALRM !in mask {
      ExecCut(Init(mask), es, mask, cfg);
    }
    if SIGUSR1 !in mask && SIGALRM !in mask {
      var s1 := Step(Init(mask), Run(true), cfg);
      var s2 := Step(s1, Run(true), cfg);
      var s3 := Step(s2, Run(true), cfg);
      var s4 := Step(s3, Run(true), cfg);
      var es := FromPause(s4, cfg);
      es := Before(s3, Run(true), es, cfg);
      es := Before(s2, Run(true), es, cfg);
      es := Before(s1, Run(true), es, cfg);
      es := Before(Init(mask), Run(true), es, cfg);
    }
  }

  lemma FromPause(s: State, cfg: Config) returns (es: seq<Event>)
    requires s.alive && s.usr1Installed && s.alrmInstalled && s.p.handlers == [] && s.p.pending == multiset{}
    requires SIGUSR1 !in s.p.mask && SIGALRM !in s.p.mask && s.canjump && s.jmpbuf.Some?
    ensures Exec(s, es, cfg).cut == {SIGUSR1, SIGALRM}
  {
    GuardPassed(s, cfg);
    LoopLeft(s, cfg);
    JumpFromBoth(s, cfg);
    es := Before(InBoth(s, Jump).(canjump := false), Run(true), [], cfg);
    es := Before(InBoth(s, ClearCanjump), Run(true), es, cfg);
    es := Before(InBoth(s, Spin), Run(true), es, cfg);
    es := Before(InBoth(s, Starting), Run(true), es, cfg);
    es := Before(InBoth(s, TestGuard), Run(true), es, cfg);
    es := EnterBoth(s, es, cfg);
  }
}
