/** How far the verdicts of signal_semantics.c and sigaction_semantics.c can be trusted. */
module SemanticsTheorems {
  import opened SignalMachine
  import opened Wrappers
  import opened Semantics
  import opened SemanticsProofs

  // ---------------------------------------------------------------- what no run can print

  /**
   The verdict on resetting is "Reset" exactly if the system resets the action and SIGUSR1 was
   not blocked to begin with.
   */
  lemma ResetVerdict(es: seq<Event>, mask: set<Signal>, setup: Setup)
    ensures var v := Exec(Init(mask), es, setup).reset;
      v.Some? ==> (v.value <==> setup.resets && SIGUSR1 !in mask)
  {
    ReachedInv(es, mask, setup);
  }

  /** "NOT prevent" is printed only if the system does not block during handlers, or SIGUSR2 was blocked. */
  lemma PreventVerdict(es: seq<Event>, mask: set<Signal>, setup: Setup)
    ensures Exec(Init(mask), es, setup).prevent == Some(false) ==> !setup.blocks || SIGUSR2 in mask
  {
    ReachedInv(es, mask, setup);
  }

  /** "NOT automatically restart" is printed only for an action that does not restart calls. */
  lemma RestartVerdict(es: seq<Event>, mask: set<Signal>, setup: Setup, k: nat)
    requires k < |Exec(Init(mask), es, setup).restart|
    ensures k < |setup.tests|
    ensures !Exec(Init(mask), es, setup).restart[k] ==> !setup.tests[k].restarts && setup.tests[k].signo !in mask
  {
    ReachedInv(es, mask, setup);
  }

  /** signal_semantics.c; its first read test uses SIGALRM and the second SIGUSR1. */
  lemma SignalSemantics(es: seq<Event>, mask: set<Signal>, resets: bool, blocks: bool, restarts: bool)
    ensures var s := Exec(Init(mask), es, SignalSetup(resets, blocks, restarts));
      && (s.reset.Some? ==> (s.reset.value <==> resets && SIGUSR1 !in mask))
      && (s.prevent == Some(false) ==> !blocks || SIGUSR2 in mask)
      && |s.restart| <= 2
      && (forall k | 0 <= k < |s.restart| && !s.restart[k] ::
            !restarts && (if k == 0 then SIGALRM else SIGUSR1) !in mask)
  {
    ReachedInv(es, mask, SignalSetup(resets, blocks, restarts));
  }

  /** sigaction_semantics.c: what XSH fixes for the flags used is never contradicted. */
  lemma SigactionSemantics(es: seq<Event>, mask: set<Signal>, saRestart: bool)
    ensures var s := Exec(Init(mask), es, SigactionSetup(saRestart));
      && s.reset != Some(true)
      && (SIGUSR2 !in mask ==> s.prevent != Some(false))
      && (saRestart ==> forall k | 2 <= k < |s.restart| :: s.restart[k])
  {
    ReachedInv(es, mask, SigactionSetup(saRestart));
  }

  // ---------------------------------------------------------------- runs that print a verdict

  lemma Before(s: State, e: Event, es: seq<Event>, setup: Setup) returns (es': seq<Event>)
    ensures Exec(s, es', setup) == Exec(Step(s, e, setup), es, setup)
  {
    es' := [e] + es;
    assert es'[1..] == es;
  }

  const R := Run(true)

  ghost predicate Quiet(s: State, mask: set<Signal>) {
    s.alive && s.p.handlers == [] && s.p.mask == mask && forall signo | signo in s.p.pending :: signo in mask
  }

  /** Where the test of blocking starts. */
  ghost predicate BlockStart(s: State, mask: set<Signal>) {
    && Quiet(s, mask) && s.p.main.InstallUsr2? && s.needSleep && s.leftToSleep == 5
    && (SIGUSR2 !in mask ==> s.p.pending[SIGUSR2] == 0) && s.restart == []
  }

  function InReset(main: Pc, hs: seq<Frame<Pc, Signal>>, mask: set<Signal>, pending: multiset<Signal>,
                   usr1: Action): State
  {
    State(Process(main, hs, mask, pending), true, Actions(usr1, Default, Default), true, 5,
          NoChild, 0, false, None, None, [])
  }

  lemma RaiseUsr1(mask: set<Signal>, setup: Setup)
    ensures Step(Step(Init(mask), R, setup), R, setup)
         == InReset(Query, [], mask, multiset{SIGUSR1}, Caught(setup.restarts))
  {
    assert Step(Init(mask), R, setup) == InReset(Raise, [], mask, multiset{}, Caught(setup.restarts));
  }

  lemma EnterUsr1(mask: set<Signal>, setup: Setup)
    requires SIGUSR1 !in mask
    ensures var a := if setup.resets then Default else Caught(setup.restarts);
      var m := if setup.blocks then mask + {SIGUSR1} else mask;
      Step(InReset(Query, [], mask, multiset{SIGUSR1}, Caught(setup.restarts)), Deliver(SIGUSR1, 0), setup)
        == InReset(Query, [Frame(HandlerReturn, SIGUSR1, mask)], m, multiset{}, a)
  {
  }

  lemma QueryReset(mask: set<Signal>, a: Action, setup: Setup)
    ensures BlockStart(Step(InReset(Query, [], mask, multiset{}, a), R, setup), mask)
  {
  }

  lemma HandleUsr1(mask: set<Signal>, setup: Setup) returns (t: State)
    requires SIGUSR1 !in mask
    ensures var s := InReset(Query, [], mask, multiset{SIGUSR1}, Caught(setup.restarts));
      t == Step(Step(Step(s, Deliver(SIGUSR1, 0), setup), R, setup), R, setup)
    ensures BlockStart(t, mask)
  {
    var a := if setup.resets then Default else Caught(setup.restarts);
    var m := if setup.blocks then mask + {SIGUSR1} else mask;
    var u := InReset(Query, [Frame(HandlerReturn, SIGUSR1, mask)], m, multiset{}, a);
    EnterUsr1(mask, setup);
    assert Step(u, R, setup) == InReset(Query, [], mask, multiset{}, a);
    QueryReset(mask, a, setup);
    t := Step(InReset(Query, [], mask, multiset{}, a), R, setup);
  }

  lemma ResetPhase(mask: set<Signal>, setup: Setup) returns (es: seq<Event>, t: State)
    ensures BlockStart(t, mask) && Exec(Init(mask), es, setup) == t
  {
    var s0 := Init(mask);
    var s1 := Step(s0, R, setup);
    var s2 := Step(s1, R, setup);
    RaiseUsr1(mask, setup);
    if SIGUSR1 in mask {
      t := Step(s2, R, setup);
      es := Before(s2, R, [], setup);
    } else {
      t := HandleUsr1(mask, setup);
      var s3 := Step(s2, Deliver(SIGUSR1, 0), setup);
      es := Before(Step(s3, R, setup), R, [], setup);
      es := Before(s3, R, es, setup);
      es := Before(s2, Deliver(SIGUSR1, 0), es, setup);
    }
    es := Before(s1, R, es, setup);
    es := Before(s0, R, es, setup);
  }

  /** The test of blocking under way, entered from `s`. */
  function Block(s: State, main: Pc, hs: seq<Frame<Pc, Signal>>, mask: set<Signal>, pending: multiset<Signal>,
                 usr2: Action, need: bool, left: nat, done: nat): State
  {
    s.(p := Process(main, hs, mask, pending), actions := s.actions.(usr2 := usr2),
       needSleep := need, leftToSleep := left, job := Killer, done := done)
  }

  /** Up to waitpid, with the killer not yet started. */
  lemma ToWaitPid(s: State, mask: set<Signal>, setup: Setup)
    requires BlockStart(s, mask)
    ensures Step(Step(s, R, setup), R, setup)
         == Block(s, WaitPid, [], mask, s.p.pending, Caught(setup.restarts), true, 5, 0)
  {
    var u := Step(s, R, setup);
    assert u == s.(p := s.p.(main := ForkKiller), actions := s.actions.(usr2 := Caught(setup.restarts)));
  }

  /** Where the k-th read test starts, or the program ends. */
  ghost predicate TestStart(s: State, mask: set<Signal>, k: nat, setup: Setup) {
    Quiet(s, mask) && s.p.main == Next(k, setup) && |s.restart| == k
  }

  /** Once the killer has exited and nothing is left to handle, the verdict tells whether a sleep was cut short. */
  lemma ToVerdict(s: State, mask: set<Signal>, setup: Setup) returns (es: seq<Event>)
    requires Quiet(s, mask) && s.p.main.WaitPid? && s.job.Killer? && s.done == 3 && s.restart == []
    ensures Exec(s, es, setup).prevent == Some(s.leftToSleep == 0) && TestStart(Exec(s, es, setup), mask, 0, setup)
  {
    var u := Step(s, R, setup);
    assert u == s.(p := s.p.(main := Judge));
    es := Before(u, R, [], setup);
    es := Before(s, R, es, setup);
  }

  /** With SIGUSR2 blocked from the start the handler never runs. */
  lemma NeverHandled(s: State, mask: set<Signal>, setup: Setup) returns (es: seq<Event>)
    requires Quiet(s, mask) && SIGUSR2 in mask && s.p.main.WaitPid? && s.job.Killer? && s.done == 0 && s.restart == []
    ensures Exec(s, es, setup).prevent == Some(s.leftToSleep == 0) && TestStart(Exec(s, es, setup), mask, 0, setup)
  {
    var c := Child(true);
    var p := s.p.Generate(SIGUSR2, false);
    var s1 := Step(s, c, setup);
    assert s1 == s.(p := p, done := 1);
    var s2 := Step(s1, c, setup);
    assert s2 == s.(p := p, done := 2);
    var s3 := Step(s2, c, setup);
    assert s3 == s.(p := p, done := 3);
    es := ToVerdict(s3, mask, setup);
    es := Before(s2, c, es, setup);
    es := Before(s1, c, es, setup);
    es := Before(s, c, es, setup);
  }

  function F(pc: Pc, mask: set<Signal>): Frame<Pc, Signal> {
    Frame(pc, SIGUSR2, mask)
  }

  function HandlerMask(mask: set<Signal>, setup: Setup): set<Signal> {
    if setup.blocks then mask + {SIGUSR2} else mask
  }

  lemma ReinstallUsr2(s: State, hs: seq<Frame<Pc, Signal>>, mask: set<Signal>,
                      a: Action, need: bool, n: nat, setup: Setup)
    requires BlockStart(s, mask) && SIGUSR2 !in mask
    ensures var r, q, m := Caught(setup.restarts), s.p.pending, HandlerMask(mask, setup);
      Step(Block(s, WaitPid, hs + [F(Reinstall, mask)], m, q, a, need, 5, n), R, setup)
        == Block(s, WaitPid, hs + [F(TestNeed, mask)], m, q, r, need, 5, n)
  {
    assert (hs + [F(Reinstall, mask)])[|hs| := F(TestNeed, mask)] == hs + [F(TestNeed, mask)];
  }

  lemma InterruptedBy(s: State, hs: seq<Frame<Pc, Signal>>, mask: set<Signal>,
                      need: bool, n: nat, left: nat, setup: Setup)
    requires BlockStart(s, mask) && SIGUSR2 !in mask
    requires hs == [] || (hs == [F(Asleep, mask)] && !setup.blocks)
    ensures var r, q := Caught(setup.restarts), s.p.pending;
      var hs' := if hs == [] then [] else [F(SleepEnded(left), mask)];
      Step(Block(s, WaitPid, hs, mask, q + multiset{SIGUSR2}, r, need, 5, n), Deliver(SIGUSR2, left), setup)
        == Block(s, WaitPid, hs' + [F(Reinstall, mask)], HandlerMask(mask, setup), q,
                 if setup.resets then Default else r, need, 5, n)
  {
    assert s.p.pending + multiset{SIGUSR2} - multiset{SIGUSR2} == s.p.pending;
  }

  /** Enters sig_usr2 and runs it up to the re-installation of the handler. */
  lemma EnterUsr2(s: State, hs: seq<Frame<Pc, Signal>>, mask: set<Signal>,
                  need: bool, n: nat, left: nat, es: seq<Event>, setup: Setup)
    returns (es': seq<Event>)
    requires BlockStart(s, mask) && SIGUSR2 !in mask
    requires hs == [] || (hs == [F(Asleep, mask)] && !setup.blocks)
    ensures var r, q := Caught(setup.restarts), s.p.pending;
      var hs' := if hs == [] then [] else [F(SleepEnded(left), mask)];
      Exec(Block(s, WaitPid, hs, mask, q + multiset{SIGUSR2}, r, need, 5, n), es', setup)
        == Exec(Block(s, WaitPid, hs' + [F(TestNeed, mask)], HandlerMask(mask, setup), q, r, need, 5, n), es, setup)
  {
    var a := if setup.resets then Default else Caught(setup.restarts);
    var hs' := if hs == [] then [] else [F(SleepEnded(left), mask)];
    InterruptedBy(s, hs, mask, need, n, left, setup);
    ReinstallUsr2(s, hs', mask, a, need, n, setup);
    var b1 := Block(s, WaitPid, hs' + [F(Reinstall, mask)], HandlerMask(mask, setup), s.p.pending, a, need, 5, n);
    es' := Before(b1, R, es, setup);
    es' := Before(Block(s, WaitPid, hs, mask, s.p.pending + multiset{SIGUSR2}, Caught(setup.restarts), need, 5, n),
                  Deliver(SIGUSR2, left), es', setup);
  }

  lemma CallSleep(s: State, mask: set<Signal>, n: nat, setup: Setup)
    requires BlockStart(s, mask) && SIGUSR2 !in mask
    ensures var r, q, m := Caught(setup.restarts), s.p.pending, HandlerMask(mask, setup);
      Step(Block(s, WaitPid, [F(StartSleep, mask)], m, q, r, false, 5, n), R, setup)
        == Block(s, WaitPid, [F(Asleep, mask)], m, q, r, false, 5, n)
  {
  }

  lemma FallAsleep(s: State, mask: set<Signal>, n: nat, es: seq<Event>, setup: Setup) returns (es': seq<Event>)
    requires BlockStart(s, mask) && SIGUSR2 !in mask
    ensures var r, q, m := Caught(setup.restarts), s.p.pending, HandlerMask(mask, setup);
      Exec(Block(s, WaitPid, [F(TestNeed, mask)], m, q, r, true, 5, n), es', setup)
        == Exec(Block(s, WaitPid, [F(Asleep, mask)], m, q, r, false, 5, n), es, setup)
  {
    var r, q, m := Caught(setup.restarts), s.p.pending, HandlerMask(mask, setup);
    var b0 := Block(s, WaitPid, [F(TestNeed, mask)], m, q, r, true, 5, n);
    var b1 := Block(s, WaitPid, [F(ClearNeed, mask)], m, q, r, true, 5, n);
    assert Step(b0, R, setup) == b1;
    var b2 := Block(s, WaitPid, [F(StartSleep, mask)], m, q, r, false, 5, n);
    assert Step(b1, R, setup) == b2;
    CallSleep(s, mask, n, setup);
    es' := Before(b2, R, es, setup);
    es' := Before(b1, R, es', setup);
    es' := Before(b0, R, es', setup);
  }

  /** The sleep is over with `left` seconds left; the handler returns, the killer exits, and main judges. */
  lemma SleepOver(s: State, mask: set<Signal>, left: nat, setup: Setup) returns (es: seq<Event>)
    requires BlockStart(s, mask) && SIGUSR2 !in mask
    ensures var t := Exec(Block(s, WaitPid, [F(SleepEnded(left), mask)], HandlerMask(mask, setup), s.p.pending,
                                Caught(setup.restarts), false, 5, 2), es, setup);
      t.prevent == Some(left == 0) && TestStart(t, mask, 0, setup)
  {
    var r, q, m := Caught(setup.restarts), s.p.pending, HandlerMask(mask, setup);
    var b0 := Block(s, WaitPid, [F(SleepEnded(left), mask)], m, q, r, false, 5, 2);
    var b1 := Block(s, WaitPid, [F(HandlerReturn, mask)], m, q, r, false, left, 2);
    assert Step(b0, R, setup) == b1;
    var b2 := Block(s, WaitPid, [], mask, q, r, false, left, 2);
    assert Step(b1, R, setup) == b2;
    var b3 := Block(s, WaitPid, [], mask, q, r, false, left, 3);
    assert Step(b2, Child(true), setup) == b3;
    es := ToVerdict(b3, mask, setup);
    es := Before(b2, Child(true), es, setup);
    es := Before(b1, R, es, setup);
    es := Before(b0, R, es, setup);
  }

  /** Both SIGUSR2s come before the first is handled: one handler, one whole sleep. */
  lemma SleepsThrough(s: State, mask: set<Signal>, setup: Setup) returns (es: seq<Event>)
    requires BlockStart(s, mask) && SIGUSR2 !in mask
    ensures var t := Exec(Block(s, WaitPid, [], mask, s.p.pending, Caught(setup.restarts), true, 5, 0), es, setup);
      t.prevent == Some(true) && TestStart(t, mask, 0, setup)
  {
    var r, q, m, c := Caught(setup.restarts), s.p.pending, HandlerMask(mask, setup), Child(true);
    var b0 := Block(s, WaitPid, [], mask, q, r, true, 5, 0);
    var b1 := Block(s, WaitPid, [], mask, q + multiset{SIGUSR2}, r, true, 5, 1);
    assert Step(b0, c, setup) == b1;
    assert Step(b1, c, setup) == Block(s, WaitPid, [], mask, q + multiset{SIGUSR2}, r, true, 5, 2);
    var b3 := Block(s, WaitPid, [F(Asleep, mask)], m, q, r, false, 5, 2);
    assert Step(b3, R, setup) == Block(s, WaitPid, [F(SleepEnded(0), mask)], m, q, r, false, 5, 2);
    es := SleepOver(s, mask, 0, setup);
    es := Before(b3, R, es, setup);
    es := FallAsleep(s, mask, 2, es, setup);
    assert [] + [F(TestNeed, mask)] == [F(TestNeed, mask)];
    es := EnterUsr2(s, [], mask, true, 2, 0, es, setup);
    es := Before(b1, c, es, setup);
    es := Before(b0, c, es, setup);
  }

  /** Without blocking the second SIGUSR2 can cut the sleep short. */
  lemma SleepIsCut(s: State, mask: set<Signal>, setup: Setup) returns (es: seq<Event>)
    requires BlockStart(s, mask) && SIGUSR2 !in mask && !setup.blocks
    ensures var b := Block(s, WaitPid, [], mask, s.p.pending, Caught(setup.restarts), true, 5, 0);
      Exec(b, es, setup).prevent == Some(false)
  {
    var r, q, c := Caught(setup.restarts), s.p.pending, Child(true);
    var b0 := Block(s, WaitPid, [], mask, q, r, true, 5, 0);
    assert Step(b0, c, setup) == Block(s, WaitPid, [], mask, q + multiset{SIGUSR2}, r, true, 5, 1);
    var b2 := Block(s, WaitPid, [F(Asleep, mask)], mask, q, r, false, 5, 1);
    assert Step(b2, c, setup) == Block(s, WaitPid, [F(Asleep, mask)], mask, q + multiset{SIGUSR2}, r, false, 5, 2);
    es := SleepOver(s, mask, 3, setup);
    es := NestedReturns(s, mask, 3, es, setup);
    assert [F(SleepEnded(3), mask)] + [F(TestNeed, mask)] == [F(SleepEnded(3), mask), F(TestNeed, mask)];
    es := EnterUsr2(s, [F(Asleep, mask)], mask, false, 2, 3, es, setup);
    es := Before(b2, c, es, setup);
    es := FallAsleep(s, mask, 1, es, setup);
    assert [] + [F(TestNeed, mask)] == [F(TestNeed, mask)];
    es := EnterUsr2(s, [], mask, true, 1, 0, es, setup);
    es := Before(b0, c, es, setup);
  }

  lemma NestedReturns(s: State, mask: set<Signal>, left: nat, es: seq<Event>, setup: Setup) returns (es': seq<Event>)
    requires BlockStart(s, mask) && SIGUSR2 !in mask && !setup.blocks
    ensures var r, q := Caught(setup.restarts), s.p.pending;
      Exec(Block(s, WaitPid, [F(SleepEnded(left), mask), F(TestNeed, mask)], mask, q, r, false, 5, 2), es', setup)
        == Exec(Block(s, WaitPid, [F(SleepEnded(left), mask)], mask, q, r, false, 5, 2), es, setup)
  {
    var r, q := Caught(setup.restarts), s.p.pending;
    var b0 := Block(s, WaitPid, [F(SleepEnded(left), mask), F(TestNeed, mask)], mask, q, r, false, 5, 2);
    var b1 := Block(s, WaitPid, [F(SleepEnded(left), mask), F(HandlerReturn, mask)], mask, q, r, false, 5, 2);
    assert Step(b0, R, setup) == b1;
    assert Step(b1, R, setup) == Block(s, WaitPid, [F(SleepEnded(left), mask)], mask, q, r, false, 5, 2);
    es' := Before(b1, R, es, setup);
    es' := Before(b0, R, es', setup);
  }

  /** "NOT prevent" can be printed exactly if the system does not block during handlers, or SIGUSR2 was blocked. */
  lemma NotPreventExactly(mask: set<Signal>, setup: Setup)
    ensures (exists es :: Exec(Init(mask), es, setup).prevent == Some(false)) <==> !setup.blocks || SIGUSR2 in mask
  {
    forall es | Exec(Init(mask), es, setup).prevent == Some(false) ensures !setup.blocks || SIGUSR2 in mask {
      PreventVerdict(es, mask, setup);
    }
    if !setup.blocks || SIGUSR2 in mask {
      var es, s := ResetPhase(mask, setup);
      var w := Block(s, WaitPid, [], mask, s.p.pending, Caught(setup.restarts), true, 5, 0);
      ToWaitPid(s, mask, setup);
      var es': seq<Event>;
      if SIGUSR2 in mask { es' := NeverHandled(w, mask, setup); } else { es' := SleepIsCut(s, mask, setup); }
      es' := Before(Step(s, R, setup), R, es', setup);
      es' := Before(s, R, es', setup);
      ExecAppend(Init(mask), es, es', setup);
    }
  }

  /** With SIGUSR2 blocked no sleep is ever finished. */
  predicate NeverSlept(s: State) {
    s.leftToSleep == 5 && s.prevent != Some(true)
  }

  lemma StepNeverSlept(s: State, e: Event, mask: set<Signal>, setup: Setup)
    requires Inv(s, mask, setup) && SIGUSR2 in mask && NeverSlept(s)
    ensures NeverSlept(Step(s, e, setup))
  {
    if e.Run? && Enabled(s, e) {
      if s.p.handlers == [] {
        MainNeverSlept(s, e.ok, setup);
      } else {
        assert s.p.handlers[|s.p.handlers| - 1].signo != SIGUSR2;
      }
    }
  }

  lemma MainNeverSlept(s: State, ok: bool, setup: Setup)
    requires NeverSlept(s)
    ensures NeverSlept(MainStep(s, ok, setup))
  {
    match s.p.main
    case Judge =>
    case _ =>
  }

  lemma {:induction false} ExecNeverSlept(s: State, es: seq<Event>, mask: set<Signal>, setup: Setup)
    requires Inv(s, mask, setup) && SIGUSR2 in mask && NeverSlept(s)
    ensures NeverSlept(Exec(s, es, setup))
    decreases es
  {
    if es != [] {
      StepKeepsInv(s, es[0], mask, setup);
      StepNeverSlept(s, es[0], mask, setup);
      ExecNeverSlept(Step(s, es[0], setup), es[1..], mask, setup);
    }
  }

  lemma PreventPossible(mask: set<Signal>, setup: Setup) returns (es: seq<Event>)
    requires SIGUSR2 !in mask
    ensures Exec(Init(mask), es, setup).prevent == Some(true)
  {
    var s;
    es, s := ResetPhase(mask, setup);
    ToWaitPid(s, mask, setup);
    var es' := SleepsThrough(s, mask, setup);
    es' := Before(Step(s, R, setup), R, es', setup);
    es' := Before(s, R, es', setup);
    ExecAppend(Init(mask), es, es', setup);
    es := es + es';
  }

  /** "Prevent" says nothing about the system: whatever that does, it can be printed exactly if SIGUSR2 was free. */
  lemma PreventIsNoProof(mask: set<Signal>, setup: Setup)
    ensures (exists es :: Exec(Init(mask), es, setup).prevent == Some(true)) <==> SIGUSR2 !in mask
  {
    if SIGUSR2 in mask {
      assert Inv(Init(mask), mask, setup) by { ReachedInv([], mask, setup); }
      forall es ensures Exec(Init(mask), es, setup).prevent != Some(true) {
        ExecNeverSlept(Init(mask), es, mask, setup);
      }
    } else {
      var es := PreventPossible(mask, setup);
    }
  }

  lemma {:induction false} ExecAppend(s: State, a: seq<Event>, b: seq<Event>, setup: Setup)
    ensures Exec(s, a + b, setup) == Exec(Exec(s, a, setup), b, setup)
    decreases a
  {
    if a == [] {
      assert a + b == b;
    } else {
      assert (a + b)[0] == a[0] && (a + b)[1..] == a[1..] + b;
      ExecAppend(Step(s, a[0], setup), a[1..], b, setup);
    }
  }

  // ---------------------------------------------------------------- the read tests

  /** The k-th read test under way, entered from `s`. */
  function Test(s: State, k: nat, main: Pc, hs: seq<Frame<Pc, Signal>>, mask: set<Signal>, pending: multiset<Signal>,
                actions: Actions, done: nat, piped: bool): State
  {
    s.(p := Process(main, hs, mask, pending), actions := actions, job := Writer(k), done := done, piped := piped)
  }

  function Installed(s: State, k: nat, setup: Setup): Actions
    requires k < |setup.tests|
  {
    s.actions.Set(setup.tests[k].signo, Caught(setup.tests[k].restarts))
  }

  function AfterDelivery(s: State, k: nat, setup: Setup): Actions
    requires k < |setup.tests|
  {
    if setup.resets then Installed(s, k, setup).Set(setup.tests[k].signo, Default) else Installed(s, k, setup)
  }

  lemma Prepare(s: State, mask: set<Signal>, k: nat, es: seq<Event>, setup: Setup) returns (es': seq<Event>)
    requires TestStart(s, mask, k, setup) && k < |setup.tests|
    ensures Exec(s, es', setup)
         == Exec(Test(s, k, Read(k), [], mask, s.p.pending, Installed(s, k, setup), 0, false), es, setup)
  {
    var s1 := Step(s, R, setup);
    assert s1 == s.(p := s.p.(main := Pipe(k)), actions := Installed(s, k, setup));
    var s2 := Step(s1, R, setup);
    assert s2 == s1.(p := s.p.(main := ForkWriter(k)), piped := false);
    assert Step(s2, R, setup) == Test(s, k, Read(k), [], mask, s.p.pending, Installed(s, k, setup), 0, false);
    es' := Before(s2, R, es, setup);
    es' := Before(s1, R, es', setup);
    es' := Before(s, R, es', setup);
  }

  /** The signal arrives, is caught if it is not blocked, and the handler returns. */
  lemma SignalArrives(s: State, mask: set<Signal>, k: nat, reading: bool, es: seq<Event>, setup: Setup)
    returns (es': seq<Event>)
    requires TestStart(s, mask, k, setup) && k < |setup.tests| && setup.tests[k].signo !in mask
    ensures var main := if reading then Reading(k) else Read(k);
      var after := if reading && !setup.tests[k].restarts then Interrupted(k) else main;
      Exec(Test(s, k, main, [], mask, s.p.pending, Installed(s, k, setup), 0, false), es', setup)
        == Exec(Test(s, k, after, [], mask, s.p.pending, AfterDelivery(s, k, setup), 1, false), es, setup)
  {
    var signo := setup.tests[k].signo;
    var main := if reading then Reading(k) else Read(k);
    var after := if reading && !setup.tests[k].restarts then Interrupted(k) else main;
    var i, d, q := Installed(s, k, setup), AfterDelivery(s, k, setup), s.p.pending;
    var b0 := Test(s, k, main, [], mask, q, i, 0, false);
    var b1 := Test(s, k, main, [], mask, q + multiset{signo}, i, 1, false);
    assert signo !in q && q + multiset{signo} - multiset{signo} == q;
    assert Step(b0, Child(true), setup) == b1;
    var m := if setup.blocks then mask + {signo} else mask;
    var b2 := Test(s, k, after, [Frame(HandlerReturn, signo, mask)], m, q, d, 1, false);
    SignalHandled(s, mask, k, reading, setup);
    HandlerReturns(s, mask, k, after, signo, if setup.resets then Default else Caught(setup.tests[k].restarts), setup);
    assert d == s.actions.Set(signo, if setup.resets then Default else Caught(setup.tests[k].restarts));
    es' := Before(b2, R, es, setup);
    es' := Before(b1, Deliver(signo, 0), es', setup);
    es' := Before(b0, Child(true), es', setup);
  }

  lemma SignalHandled(s: State, mask: set<Signal>, k: nat, reading: bool, setup: Setup)
    requires TestStart(s, mask, k, setup) && k < |setup.tests| && setup.tests[k].signo !in mask
    ensures var signo := setup.tests[k].signo;
      var main := if reading then Reading(k) else Read(k);
      var after := if reading && !setup.tests[k].restarts then Interrupted(k) else main;
      var i, d, q := Installed(s, k, setup), AfterDelivery(s, k, setup), s.p.pending;
      Step(Test(s, k, main, [], mask, q + multiset{signo}, i, 1, false), Deliver(signo, 0), setup)
        == Test(s, k, after, [Frame(HandlerReturn, signo, mask)],
                if setup.blocks then mask + {signo} else mask, q, d, 1, false)
  {
    var signo := setup.tests[k].signo;
    assert signo !in s.p.pending && s.p.pending + multiset{signo} - multiset{signo} == s.p.pending;
    assert Installed(s, k, setup).Get(signo) == Caught(setup.tests[k].restarts);
  }

  lemma HandlerReturns(s: State, mask: set<Signal>, k: nat, main: Pc, signo: Signal, a: Action, setup: Setup)
    requires TestStart(s, mask, k, setup) && signo != SIGUSR2
    ensures var d, q := s.actions.Set(signo, a), s.p.pending;
      var m := if setup.blocks then mask + {signo} else mask;
      Step(Test(s, k, main, [Frame(HandlerReturn, signo, mask)], m, q, d, 1, false), R, setup)
        == Test(s, k, main, [], mask, q, d, 1, false)
  {
  }

  /** Whether or not it was handled, a signal before the read does not show: the byte is read. */
  lemma PassTest(s: State, mask: set<Signal>, k: nat, setup: Setup) returns (es: seq<Event>)
    requires TestStart(s, mask, k, setup) && k < |setup.tests|
    ensures TestStart(Exec(s, es, setup), mask, k + 1, setup)
  {
    var signo := setup.tests[k].signo;
    var i, d, q := Installed(s, k, setup), AfterDelivery(s, k, setup), s.p.pending;
    if signo in mask {
      var b0 := Test(s, k, Read(k), [], mask, q, i, 0, false);
      var p := b0.p.Generate(signo, false);
      assert Step(b0, Child(true), setup) == Test(s, k, Read(k), [], mask, p.pending, i, 1, false);
      es := ByteRead(s, mask, k, p.pending, i, setup);
      es := Before(b0, Child(true), es, setup);
    } else {
      es := ByteRead(s, mask, k, q, d, setup);
      es := SignalArrives(s, mask, k, false, es, setup);
    }
    es := Prepare(s, mask, k, es, setup);
  }

  lemma ReadReturns(s: State, mask: set<Signal>, k: nat, q: multiset<Signal>, a: Actions, setup: Setup)
    requires TestStart(s, mask, k, setup) && k < |setup.tests| && forall signo | signo in q :: signo in mask
    ensures TestStart(Step(Test(s, k, Reading(k), [], mask, q, a, 2, true), R, setup), mask, k + 1, setup)
  {
  }

  lemma ByteRead(s: State, mask: set<Signal>, k: nat, q: multiset<Signal>, a: Actions, setup: Setup)
    returns (es: seq<Event>)
    requires TestStart(s, mask, k, setup) && k < |setup.tests| && forall signo | signo in q :: signo in mask
    ensures TestStart(Exec(Test(s, k, Read(k), [], mask, q, a, 1, false), es, setup), mask, k + 1, setup)
  {
    var b0 := Test(s, k, Read(k), [], mask, q, a, 1, false);
    var b1 := Test(s, k, Read(k), [], mask, q, a, 2, true);
    var b2 := Test(s, k, Reading(k), [], mask, q, a, 2, true);
    assert Step(b0, Child(true), setup) == b1;
    assert Step(b1, R, setup) == b2;
    ReadReturns(s, mask, k, q, a, setup);
    es := Before(b2, R, [], setup);
    es := Before(b1, R, es, setup);
    es := Before(b0, Child(true), es, setup);
  }

  /** A signal during the read interrupts it if its action does not restart calls. */
  lemma CutTest(s: State, mask: set<Signal>, k: nat, setup: Setup) returns (es: seq<Event>)
    requires TestStart(s, mask, k, setup) && k < |setup.tests|
    requires !setup.tests[k].restarts && setup.tests[k].signo !in mask
    ensures Exec(s, es, setup).restart == s.restart + [false]
  {
    var q := s.p.pending;
    var b0 := Test(s, k, Read(k), [], mask, q, Installed(s, k, setup), 0, false);
    assert Step(b0, R, setup) == Test(s, k, Reading(k), [], mask, q, Installed(s, k, setup), 0, false);
    var b1 := Test(s, k, Interrupted(k), [], mask, q, AfterDelivery(s, k, setup), 1, false);
    es := Before(b1, R, [], setup);
    es := SignalArrives(s, mask, k, true, es, setup);
    es := Before(b0, R, es, setup);
    es := Prepare(s, mask, k, es, setup);
  }

  lemma {:induction false} ReachTest(mask: set<Signal>, k: nat, setup: Setup) returns (es: seq<Event>)
    requires k <= |setup.tests|
    ensures TestStart(Exec(Init(mask), es, setup), mask, k, setup)
  {
    var es': seq<Event>;
    if k > 0 {
      es := ReachTest(mask, k - 1, setup);
      es' := PassTest(Exec(Init(mask), es, setup), mask, k - 1, setup);
    } else {
      var s;
      es, s := ResetPhase(mask, setup);
      var w := Block(s, WaitPid, [], mask, s.p.pending, Caught(setup.restarts), true, 5, 0);
      ToWaitPid(s, mask, setup);
      if SIGUSR2 in mask { es' := NeverHandled(w, mask, setup); } else { es' := SleepsThrough(s, mask, setup); }
      es' := Before(Step(s, R, setup), R, es', setup);
      es' := Before(s, R, es', setup);
    }
    ExecAppend(Init(mask), es, es', setup);
    es := es + es';
  }

  /** The k-th read test can report "NOT automatically restart" exactly if its action does not restart and is free. */
  lemma NotRestartExactly(mask: set<Signal>, k: nat, setup: Setup)
    requires k < |setup.tests|
    ensures (exists es :: NotRestart(Exec(Init(mask), es, setup), k)) <==>
            !setup.tests[k].restarts && setup.tests[k].signo !in mask
  {
    forall es | NotRestart(Exec(Init(mask), es, setup), k)
      ensures !setup.tests[k].restarts && setup.tests[k].signo !in mask
    {
      RestartVerdict(es, mask, setup, k);
    }
    if !setup.tests[k].restarts && setup.tests[k].signo !in mask {
      var es := ReachTest(mask, k, setup);
      var es' := CutTest(Exec(Init(mask), es, setup), mask, k, setup);
      ExecAppend(Init(mask), es, es', setup);
      assert NotRestart(Exec(Init(mask), es + es', setup), k);
    }
  }

  /** sigaction_semantics.c: without flags a read can be cut short; with SA_RESTART only if the system lacks it. */
  lemma SigactionRestartExactly(mask: set<Signal>, saRestart: bool, k: nat)
    requires k < 4
    ensures (exists es :: NotRestart(Exec(Init(mask), es, SigactionSetup(saRestart)), k)) <==>
            (k < 2 || !saRestart) && (if k % 2 == 0 then SIGALRM else SIGUSR1) !in mask
  {
    NotRestartExactly(mask, k, SigactionSetup(saRestart));
  }

  predicate NotRestart(s: State, k: nat) {
    k < |s.restart| && !s.restart[k]
  }
}
