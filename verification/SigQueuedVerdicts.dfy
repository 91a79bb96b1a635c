/**
 What main of signals/sig_queued.c can report, and what its report is worth.
 */
module SigQueuedVerdicts {
  import opened SignalMachine
  import opened Wrappers
  import opened SigQueued
  import opened SigQueuedProofs
  import opened SigQueuedTheorems

  // ---------------------------------------------------------------- how the process ends

  /** Some step of the run is of the kind `p`. */
  predicate Happens(p: (State, Event) -> bool, s: State, es: seq<Event>, queues: bool)
    decreases es
  {
    es != [] && (p(s, es[0]) || Happens(p, Step(s, es[0], queues), es[1..], queues))
  }

  /** main, not interrupted, takes its step at `pc`. */
  predicate MainAt(s: State, e: Event, pc: Pc) {
    s.alive && e.Run? && s.p.handlers == [] && s.p.main == pc
  }

  predicate FindsTwo(s: State, e: Event) {
    MainAt(s, e, TestTwo) && s.sigcount == 2
  }

  predicate FindsFour(s: State, e: Event) {
    MainAt(s, e, TestFour) && s.sigcount == 4
  }

  predicate Reports(s: State, e: Event, count: int) {
    MainAt(s, e, Report) && s.sigcount == count
  }

  /** TELL_WAIT or fork fails, or sigprocmask in WAIT_CHILD. */
  predicate CallFails(s: State, e: Event) {
    s.alive && e == Run(false) && (s.p.Running().TellWait? || s.p.Running().Fork? || s.p.Running().RestoreMask?)
  }

  lemma MainVerdict(s: State, ok: bool)
    requires Inv0(s) && s.alive && s.p.handlers == [] && s.verdict.None?
    ensures var t, e := MainStep(s, ok), Run(ok);
      && (t.verdict == Some(NotQueued) <==> FindsTwo(s, e))
      && (t.verdict == Some(Queued) <==> FindsFour(s, e))
      && (forall n :: t.verdict == Some(Unknown(n)) <==> Reports(s, e, n))
      && (!t.alive <==> t.verdict.Some? || CallFails(s, e))
  {
    match s.p.main
    case TellWait =>
    case Fork =>
    case Sleeping =>
    case TestTwo =>
    case TestFour =>
    case Report =>
  }

  lemma HandlerVerdict(s: State, ok: bool, queues: bool)
    requires Inv0(s) && s.alive && s.p.handlers != []
    ensures var t := Step(s, Run(ok), queues);
      t.verdict == s.verdict && (!t.alive <==> CallFails(s, Run(ok)))
  {
    var top := s.p.handlers[|s.p.handlers| - 1];
    if |s.p.handlers| > 1 { assert NestedFrame(top); }
    match top.pc
    case LoadCount =>
    case StoreCount(_) =>
    case TestWaitflag =>
    case ClearWaitflag =>
    case QuitReturn =>
    case TestSigflag =>
    case CallSuspend =>
    case Parked(_) =>
    case ClearSigflag =>
    case RestoreMask =>
    case WaitReturned =>
    case SetSigflag =>
    case UsrReturn =>
  }

  ghost predicate Pending(s: State) {
    s.alive ==> s.verdict.None?
  }

  lemma StepVerdict(s: State, e: Event, queues: bool)
    requires Inv0(s) && Pending(s)
    ensures var t := Step(s, e, queues);
      && Pending(t)
      && (t.verdict == Some(NotQueued) <==> s.verdict == Some(NotQueued) || FindsTwo(s, e))
      && (t.verdict == Some(Queued) <==> s.verdict == Some(Queued) || FindsFour(s, e))
      && (forall n :: t.verdict == Some(Unknown(n)) <==> s.verdict == Some(Unknown(n)) || Reports(s, e, n))
      && (!t.alive && t.verdict.None? <==> (!s.alive && s.verdict.None?) || CallFails(s, e))
  {
    if s.alive && e.Run? && !s.p.Running().Parked? {
      if s.p.handlers == [] {
        assert Step(s, e, queues) == MainStep(s, e.ok);
        MainVerdict(s, e.ok);
      } else {
        HandlerVerdict(s, e.ok, queues);
      }
    }
  }

  lemma {:induction false} ExecVerdict(s: State, es: seq<Event>, n: int, queues: bool)
    requires Inv(s, queues) && Pending(s)
    ensures var t := Exec(s, es, queues);
      && (t.verdict == Some(NotQueued) <==> s.verdict == Some(NotQueued) || Happens(FindsTwo, s, es, queues))
      && (t.verdict == Some(Queued) <==> s.verdict == Some(Queued) || Happens(FindsFour, s, es, queues))
      && (t.verdict == Some(Unknown(n)) <==>
            s.verdict == Some(Unknown(n)) || Happens((s, e) => Reports(s, e, n), s, es, queues))
      && (!t.alive && t.verdict.None? <==> (!s.alive && s.verdict.None?) || Happens(CallFails, s, es, queues))
    decreases es
  {
    if es != [] {
      StepVerdict(s, es[0], queues);
      StepKeepsInv(s, es[0], queues);
      ExecVerdict(Step(s, es[0], queues), es[1..], n, queues);
    }
  }

  /**
   Each verdict is given exactly if main's test finds the count for it, and the process ends without
   a verdict exactly if a call fails.
   */
  lemma VerdictExactly(mask: set<Signal>, es: seq<Event>, n: int, queues: bool)
    ensures var s := Reached(mask, es, queues);
      && (s.verdict == Some(NotQueued) <==> Happens(FindsTwo, Init(mask), es, queues))
      && (s.verdict == Some(Queued) <==> Happens(FindsFour, Init(mask), es, queues))
      && (s.verdict == Some(Unknown(n)) <==> Happens((s, e) => Reports(s, e, n), Init(mask), es, queues))
      && (!s.alive && s.verdict.None? <==> Happens(CallFails, Init(mask), es, queues))
  {
    VerdictFromInit(Init(mask), mask, es, n, queues);
  }

  ghost predicate Fresh(s: State, queues: bool) {
    Inv(s, queues) && Tested(s) && s.alive && s.verdict.None?
  }

  lemma InitFresh(s: State, mask: set<Signal>, queues: bool)
    requires s == Init(mask)
    ensures Fresh(s, queues)
  {
    InitInv(mask, queues);
    InitTested(s, mask);
  }

  lemma InitTested(s: State, mask: set<Signal>)
    requires s == Init(mask)
    ensures Tested(s) && s.alive && s.verdict.None?
  {
  }

  lemma VerdictFromInit(s: State, mask: set<Signal>, es: seq<Event>, n: int, queues: bool)
    requires s == Init(mask)
    ensures var t := Exec(s, es, queues);
      && (t.verdict == Some(NotQueued) <==> Happens(FindsTwo, s, es, queues))
      && (t.verdict == Some(Queued) <==> Happens(FindsFour, s, es, queues))
      && (t.verdict == Some(Unknown(n)) <==> Happens((s, e) => Reports(s, e, n), s, es, queues))
      && (!t.alive && t.verdict.None? <==> Happens(CallFails, s, es, queues))
  {
    InitFresh(s, mask, queues);
    VerdictFrom(s, es, n, queues);
  }

  lemma VerdictFrom(s: State, es: seq<Event>, n: int, queues: bool)
    requires Fresh(s, queues)
    ensures var t := Exec(s, es, queues);
      && (t.verdict == Some(NotQueued) <==> Happens(FindsTwo, s, es, queues))
      && (t.verdict == Some(Queued) <==> Happens(FindsFour, s, es, queues))
      && (t.verdict == Some(Unknown(n)) <==> Happens((s, e) => Reports(s, e, n), s, es, queues))
      && (!t.alive && t.verdict.None? <==> Happens(CallFails, s, es, queues))
  {
    ExecVerdict(s, es, n, queues);
  }

  // ---------------------------------------------------------------- the verdict and the final count

  /** The verdict is the one for the final count. */
  predicate Fits(v: Verdict, sigcount: int) {
    v == if sigcount == 2 then NotQueued else if sigcount == 4 then Queued else Unknown(sigcount)
  }

  /** A SIGQUIT starts to be handled after main's first test. */
  predicate QuitDuringTests(s: State, e: Event) {
    Enabled(s, e) && e == Deliver(SIGQUIT) && (s.p.main.TestFour? || s.p.main.Report?)
  }

  /** What main's tests have found out, as long as nothing interrupts them. */
  ghost predicate Tested(s: State) {
    && (s.p.main.TestFour? || s.p.main.Report? ==> NoQuitRuns(s.p.handlers) && s.sigcount != 2)
    && (s.p.main.Report? ==> s.sigcount != 4)
    && (s.verdict.Some? ==> !s.alive && Fits(s.verdict.value, s.sigcount))
  }

  ghost predicate NoQuitRuns(hs: seq<Frame<Pc, Signal>>) {
    forall i | 0 <= i < |hs| :: hs[i].signo != SIGQUIT
  }

  lemma StepTested(s: State, e: Event, queues: bool)
    requires Inv0(s) && Tested(s) && !QuitDuringTests(s, e)
    ensures Tested(Step(s, e, queues))
  {
    if e.Run? && Enabled(s, e) {
      if s.p.handlers == [] {
        MainTested(s, e.ok);
      } else {
        HandlerVerdict(s, e.ok, queues);
        HandlerTested(s, e.ok, queues);
      }
    }
  }

  lemma MainTested(s: State, ok: bool)
    requires Inv0(s) && Tested(s) && s.alive && s.p.handlers == []
    ensures Tested(MainStep(s, ok))
  {
    match s.p.main
    case TellWait =>
    case Fork =>
    case Sleeping =>
    case TestTwo =>
    case TestFour =>
    case Report =>
  }

  lemma HandlerTested(s: State, ok: bool, queues: bool)
    requires Inv0(s) && Tested(s) && Enabled(s, Run(ok)) && s.p.handlers != []
    ensures Step(s, Run(ok), queues).p.main == s.p.main
    ensures !(s.p.main.TestFour? || s.p.main.Report?)
  {
    assert s.p.handlers[0].signo == SIGQUIT;
    QuitTouchesMain(s, ok);
  }

  lemma QuitTouchesMain(s: State, ok: bool)
    requires s.p.handlers != []
    ensures SigQuitStep(s, ok).p.main == s.p.main && SigUsrStep(s).p.main == s.p.main
  {
    match s.p.Running()
    case LoadCount =>
    case StoreCount(_) =>
    case TestWaitflag =>
    case ClearWaitflag =>
    case _ =>
  }

  lemma {:induction false} ExecTested(s: State, es: seq<Event>, queues: bool)
    requires Inv(s, queues) && Tested(s) && !Happens(QuitDuringTests, s, es, queues)
    ensures Tested(Exec(s, es, queues))
    decreases es
  {
    if es != [] {
      StepTested(s, es[0], queues);
      StepKeepsInv(s, es[0], queues);
      ExecTested(Step(s, es[0], queues), es[1..], queues);
    }
  }

  /** Unless a SIGQUIT is delivered between main's tests, the verdict is the one for the final count. */
  lemma VerdictFitsCount(mask: set<Signal>, es: seq<Event>, queues: bool)
    requires !Happens(QuitDuringTests, Init(mask), es, queues)
    ensures var s := Reached(mask, es, queues);
      s.verdict.Some? ==>
        && (s.verdict == Some(NotQueued) <==> s.sigcount == 2)
        && (s.verdict == Some(Queued) <==> s.sigcount == 4)
        && (s.sigcount != 2 && s.sigcount != 4 ==> s.verdict == Some(Unknown(s.sigcount)))
  {
    FitsFromInit(Init(mask), mask, es, queues);
  }

  lemma FitsFromInit(s: State, mask: set<Signal>, es: seq<Event>, queues: bool)
    requires s == Init(mask) && !Happens(QuitDuringTests, s, es, queues)
    ensures var t := Exec(s, es, queues); t.verdict.Some? ==> Fits(t.verdict.value, t.sigcount)
  {
    InitFresh(s, mask, queues);
    FitsFrom(s, es, queues);
  }

  lemma FitsFrom(s: State, es: seq<Event>, queues: bool)
    requires Fresh(s, queues) && !Happens(QuitDuringTests, s, es, queues)
    ensures var t := Exec(s, es, queues); t.verdict.Some? ==> Fits(t.verdict.value, t.sigcount)
  {
    ExecTested(s, es, queues);
  }

  // ---------------------------------------------------------------- pieces of runs

  lemma {:induction false} ExecAppend(s: State, a: seq<Event>, b: seq<Event>, queues: bool)
    ensures Exec(s, a + b, queues) == Exec(Exec(s, a, queues), b, queues)
    decreases a
  {
    if a == [] {
      assert a + b == b;
    } else {
      assert (a + b)[0] == a[0] && (a + b)[1..] == a[1..] + b;
      ExecAppend(Step(s, a[0], queues), a[1..], b, queues);
    }
  }

  /** Extends a run from the initial state by one event. */
  lemma Then(mask: set<Signal>, es: seq<Event>, e: Event, queues: bool) returns (es': seq<Event>)
    requires NothingFromOthers(es) && !e.ForeignKill?
    ensures NothingFromOthers(es') && Reached(mask, es', queues) == Step(Reached(mask, es, queues), e, queues)
  {
    es' := es + [e];
    ExecAppend(Init(mask), es, [e], queues);
  }

  /** main stands at `main` under the stack `hs`, and `quits` SIGQUITs are pending. */
  ghost predicate At(s: State, omask: set<Signal>, main: Pc, hs: seq<Frame<Pc, Signal>>, mask: set<Signal>, quits: nat,
                     sigcount: int, waitflag: bool, sigflag: bool, child: nat)
  {
    s == State(Process(main, hs, mask, multiset{}[SIGQUIT := quits]), true, omask, sigcount, waitflag, sigflag, child,
               None, s.h)
  }

  function Blocked(omask: set<Signal>): set<Signal> {
    omask + USR + {SIGQUIT}
  }

  function Lowest(pc: Pc, omask: set<Signal>): seq<Frame<Pc, Signal>> {
    [Frame(pc, SIGQUIT, omask + USR)]
  }

  /** A handler on top of the waiting one. */
  function Nested(pc: Pc, signo: Signal, omask: set<Signal>): seq<Frame<Pc, Signal>> {
    [Frame(TestSigflag, SIGQUIT, omask + USR), Frame(pc, signo, Blocked(omask))]
  }

  function Asleep(omask: set<Signal>): Pc {
    Parked(Blocked(omask))
  }

  /** How many SIGQUITs are pending after one more. */
  function OneMore(quits: nat, queues: bool): nat {
    if queues || quits == 0 then quits + 1 else quits
  }

  lemma Start(m: set<Signal>, queues: bool) returns (es: seq<Event>)
    ensures NothingFromOthers(es)
    ensures At(Reached(m, es, queues), m, Sleeping, [], m + USR, 0, 0, true, false, 0)
  {
    es := [];
    es := Then(m, es, Run(true), queues);
    es := Then(m, es, Run(true), queues);
    assert multiset{}[SIGQUIT := 0] == multiset{};
  }

  lemma Quit(m: set<Signal>, es: seq<Event>, hs: seq<Frame<Pc, Signal>>, mask: set<Signal>, quits: nat,
             n: int, waitflag: bool, c: nat, queues: bool) returns (es': seq<Event>)
    requires NothingFromOthers(es) && c < 4
    requires At(Reached(m, es, queues), m, Sleeping, hs, mask, quits, n, waitflag, false, c)
    ensures NothingFromOthers(es')
    ensures At(Reached(m, es', queues), m, Sleeping, hs, mask, OneMore(quits, queues), n, waitflag, false, c + 1)
  {
    es' := Then(m, es, ChildKill, queues);
    assert multiset{}[SIGQUIT := quits] + multiset{SIGQUIT} == multiset{}[SIGQUIT := quits + 1];
  }

  lemma DeliverFirst(m: set<Signal>, es: seq<Event>, quits: nat, c: nat, queues: bool) returns (es': seq<Event>)
    requires NothingFromOthers(es) && SIGQUIT !in m && quits > 0
    requires At(Reached(m, es, queues), m, Sleeping, [], m + USR, quits, 0, true, false, c)
    ensures NothingFromOthers(es')
    ensures At(Reached(m, es', queues), m, Sleeping, Lowest(LoadCount, m), Blocked(m), quits - 1, 0, true, false, c)
  {
    es' := Then(m, es, Deliver(SIGQUIT), queues);
    assert multiset{}[SIGQUIT := quits] - multiset{SIGQUIT} == multiset{}[SIGQUIT := quits - 1];
  }

  lemma FirstEntry(m: set<Signal>, es: seq<Event>, quits: nat, c: nat, queues: bool) returns (es': seq<Event>)
    requires NothingFromOthers(es)
    requires At(Reached(m, es, queues), m, Sleeping, Lowest(LoadCount, m), Blocked(m), quits, 0, true, false, c)
    ensures NothingFromOthers(es')
    ensures At(Reached(m, es', queues), m, Sleeping, Lowest(TestSigflag, m), Blocked(m), quits, 1, false, false, c)
  {
    es' := Then(m, es, Run(true), queues);
    assert At(Reached(m, es', queues), m, Sleeping, Lowest(StoreCount(0), m), Blocked(m), quits, 0, true, false, c);
    es' := Then(m, es', Run(true), queues);
    assert At(Reached(m, es', queues), m, Sleeping, Lowest(TestWaitflag, m), Blocked(m), quits, 1, true, false, c);
    es' := Then(m, es', Run(true), queues);
    assert At(Reached(m, es', queues), m, Sleeping, Lowest(ClearWaitflag, m), Blocked(m), quits, 1, true, false, c);
    es' := Then(m, es', Run(true), queues);
  }

  lemma FallAsleep(m: set<Signal>, es: seq<Event>, quits: nat, n: nat, c: nat, queues: bool) returns (es': seq<Event>)
    requires NothingFromOthers(es)
    requires At(Reached(m, es, queues), m, Sleeping, Lowest(TestSigflag, m), Blocked(m), quits, n, false, false, c)
    ensures NothingFromOthers(es')
    ensures At(Reached(m, es', queues), m, Sleeping, Lowest(Asleep(m), m), {}, quits, n, false, false, c)
  {
    es' := Then(m, es, Run(true), queues);
    assert At(Reached(m, es', queues), m, Sleeping, Lowest(CallSuspend, m), Blocked(m), quits, n, false, false, c);
    es' := Then(m, es', Run(true), queues);
  }

  lemma DeliverNext(m: set<Signal>, es: seq<Event>, quits: nat, n: nat, c: nat, queues: bool) returns (es': seq<Event>)
    requires NothingFromOthers(es) && quits > 0
    requires At(Reached(m, es, queues), m, Sleeping, Lowest(Asleep(m), m), {}, quits, n, false, false, c)
    ensures NothingFromOthers(es')
    ensures At(Reached(m, es', queues), m, Sleeping, Nested(LoadCount, SIGQUIT, m), {SIGQUIT}, quits - 1,
               n, false, false, c)
  {
    es' := Then(m, es, Deliver(SIGQUIT), queues);
    assert multiset{}[SIGQUIT := quits] - multiset{SIGQUIT} == multiset{}[SIGQUIT := quits - 1];
  }

  /** A SIGQUIT is handled while WAIT_CHILD sleeps. */
  lemma NextEntry(m: set<Signal>, es: seq<Event>, quits: nat, n: nat, c: nat, queues: bool) returns (es': seq<Event>)
    requires NothingFromOthers(es) && quits > 0
    requires At(Reached(m, es, queues), m, Sleeping, Lowest(Asleep(m), m), {}, quits, n, false, false, c)
    ensures NothingFromOthers(es')
    ensures At(Reached(m, es', queues), m, Sleeping, Lowest(TestSigflag, m), Blocked(m), quits - 1,
               n + 1, false, false, c)
  {
    var q := quits - 1;
    es' := DeliverNext(m, es, quits, n, c, queues);
    es' := Then(m, es', Run(true), queues);
    assert At(Reached(m, es', queues), m, Sleeping, Nested(StoreCount(n), SIGQUIT, m), {SIGQUIT}, q,
              n, false, false, c);
    es' := Then(m, es', Run(true), queues);
    assert At(Reached(m, es', queues), m, Sleeping, Nested(TestWaitflag, SIGQUIT, m), {SIGQUIT}, q,
              n + 1, false, false, c);
    es' := Then(m, es', Run(true), queues);
    assert At(Reached(m, es', queues), m, Sleeping, Nested(QuitReturn, SIGQUIT, m), {SIGQUIT}, q,
              n + 1, false, false, c);
    es' := Then(m, es', Run(true), queues);
  }

  lemma WakeUp(m: set<Signal>, es: seq<Event>, quits: nat, n: nat, queues: bool) returns (es': seq<Event>)
    requires NothingFromOthers(es)
    requires At(Reached(m, es, queues), m, Sleeping, Lowest(Asleep(m), m), {}, quits, n, false, false, 4)
    ensures NothingFromOthers(es')
    ensures At(Reached(m, es', queues), m, Sleeping, Nested(SetSigflag, SIGUSR2, m), {SIGUSR2}, quits,
               n, false, false, 5)
  {
    es' := Then(m, es, ChildKill, queues);
    es' := Then(m, es', Deliver(SIGUSR2), queues);
    assert multiset{}[SIGQUIT := quits] + multiset{SIGUSR2} - multiset{SIGUSR2} == multiset{}[SIGQUIT := quits];
  }

  lemma TellParent(m: set<Signal>, es: seq<Event>, quits: nat, n: nat, queues: bool) returns (es': seq<Event>)
    requires NothingFromOthers(es)
    requires At(Reached(m, es, queues), m, Sleeping, Lowest(Asleep(m), m), {}, quits, n, false, false, 4)
    ensures NothingFromOthers(es')
    ensures At(Reached(m, es', queues), m, Sleeping, Lowest(TestSigflag, m), Blocked(m), quits, n, false, true, 5)
  {
    es' := WakeUp(m, es, quits, n, queues);
    es' := Then(m, es', Run(true), queues);
    assert At(Reached(m, es', queues), m, Sleeping, Nested(UsrReturn, SIGUSR2, m), {SIGUSR2}, quits, n, false, true, 5);
    es' := Then(m, es', Run(true), queues);
  }

  lemma LeaveHandler(m: set<Signal>, es: seq<Event>, quits: nat, n: nat, queues: bool) returns (es': seq<Event>)
    requires NothingFromOthers(es)
    requires At(Reached(m, es, queues), m, Sleeping, Lowest(TestSigflag, m), Blocked(m), quits, n, false, true, 5)
    ensures NothingFromOthers(es')
    ensures At(Reached(m, es', queues), m, Sleeping, [], m + USR, quits, n, false, false, 5)
  {
    es' := Then(m, es, Run(true), queues);
    assert At(Reached(m, es', queues), m, Sleeping, Lowest(ClearSigflag, m), Blocked(m), quits, n, false, true, 5);
    es' := Then(m, es', Run(true), queues);
    assert At(Reached(m, es', queues), m, Sleeping, Lowest(RestoreMask, m), Blocked(m), quits, n, false, false, 5);
    es' := Then(m, es', Run(true), queues);
    assert At(Reached(m, es', queues), m, Sleeping, Lowest(WaitReturned, m), m, quits, n, false, false, 5);
    es' := Then(m, es', Run(true), queues);
  }

  lemma DeliverLate(m: set<Signal>, es: seq<Event>, main: Pc, quits: nat, n: nat, queues: bool)
    returns (es': seq<Event>)
    requires NothingFromOthers(es) && SIGQUIT !in m && quits > 0 && (main.TestFour? || main.Report?)
    requires At(Reached(m, es, queues), m, main, [], m + USR, quits, n, false, false, 5)
    ensures NothingFromOthers(es')
    ensures At(Reached(m, es', queues), m, main, Lowest(LoadCount, m), Blocked(m), quits - 1, n, false, false, 5)
  {
    es' := Then(m, es, Deliver(SIGQUIT), queues);
    assert multiset{}[SIGQUIT := quits] - multiset{SIGQUIT} == multiset{}[SIGQUIT := quits - 1];
  }

  /** A SIGQUIT is handled on top of main, after the wait. */
  lemma LateQuit(m: set<Signal>, es: seq<Event>, main: Pc, quits: nat, n: nat, queues: bool) returns (es': seq<Event>)
    requires NothingFromOthers(es) && SIGQUIT !in m && quits > 0 && (main.TestFour? || main.Report?)
    requires At(Reached(m, es, queues), m, main, [], m + USR, quits, n, false, false, 5)
    ensures NothingFromOthers(es')
    ensures At(Reached(m, es', queues), m, main, [], m + USR, quits - 1, n + 1, false, false, 5)
  {
    var q := quits - 1;
    es' := DeliverLate(m, es, main, quits, n, queues);
    es' := Then(m, es', Run(true), queues);
    assert At(Reached(m, es', queues), m, main, Lowest(StoreCount(n), m), Blocked(m), q, n, false, false, 5);
    es' := Then(m, es', Run(true), queues);
    assert At(Reached(m, es', queues), m, main, Lowest(TestWaitflag, m), Blocked(m), q, n + 1, false, false, 5);
    es' := Then(m, es', Run(true), queues);
    assert At(Reached(m, es', queues), m, main, Lowest(QuitReturn, m), Blocked(m), q, n + 1, false, false, 5);
    es' := Then(m, es', Run(true), queues);
  }

  /** The first `n` SIGQUITs are handled one by one, each as soon as it is sent. */
  lemma {:induction false} CountTo(m: set<Signal>, n: nat, queues: bool) returns (es: seq<Event>)
    requires SIGQUIT !in m && 1 <= n <= 4
    ensures NothingFromOthers(es)
    ensures At(Reached(m, es, queues), m, Sleeping, Lowest(TestSigflag, m), Blocked(m), 0, n, false, false, n)
  {
    if n == 1 {
      es := Start(m, queues);
      es := Quit(m, es, [], m + USR, 0, 0, true, 0, queues);
      es := DeliverFirst(m, es, 1, 1, queues);
      es := FirstEntry(m, es, 0, 1, queues);
    } else {
      es := CountTo(m, n - 1, queues);
      es := FallAsleep(m, es, 0, n - 1, n - 1, queues);
      es := Quit(m, es, Lowest(Asleep(m), m), {}, 0, n - 1, false, n - 1, queues);
      es := NextEntry(m, es, 1, n - 1, n, queues);
    }
  }

  /** How many SIGQUITs are pending after `more` of them arrive while they are blocked. */
  function Arrived(more: nat, queues: bool): nat {
    if queues || more == 0 then more else 1
  }

  /** The child sends the rest of its SIGQUITs while the handler is busy. */
  lemma {:induction false} SendRest(m: set<Signal>, es: seq<Event>, n: nat, c: nat, queues: bool)
    returns (es': seq<Event>)
    requires NothingFromOthers(es) && n <= c <= 4
    requires At(Reached(m, es, queues), m, Sleeping, Lowest(TestSigflag, m), Blocked(m), Arrived(c - n, queues),
                n, false, false, c)
    ensures NothingFromOthers(es')
    ensures At(Reached(m, es', queues), m, Sleeping, Lowest(TestSigflag, m), Blocked(m), Arrived(4 - n, queues),
               n, false, false, 4)
    decreases 4 - c
  {
    es' := es;
    if c < 4 {
      es' := Quit(m, es, Lowest(TestSigflag, m), Blocked(m), Arrived(c - n, queues), n, false, c, queues);
      es' := SendRest(m, es', n, c + 1, queues);
    }
  }

  lemma EndWait(m: set<Signal>, es: seq<Event>, quits: nat, n: nat, queues: bool) returns (es': seq<Event>)
    requires NothingFromOthers(es)
    requires At(Reached(m, es, queues), m, Sleeping, Lowest(TestSigflag, m), Blocked(m), quits, n, false, false, 4)
    ensures NothingFromOthers(es')
    ensures At(Reached(m, es', queues), m, Sleeping, [], m + USR, quits, n, false, false, 5)
  {
    es' := FallAsleep(m, es, quits, n, 4, queues);
    es' := TellParent(m, es', quits, n, queues);
    es' := LeaveHandler(m, es', quits, n, queues);
  }

  /** `n` SIGQUITs are counted when the handler returns, and the others are pending or merged. */
  lemma Counted(m: set<Signal>, n: nat, queues: bool) returns (es: seq<Event>)
    requires SIGQUIT !in m && 1 <= n <= 4
    ensures NothingFromOthers(es)
    ensures At(Reached(m, es, queues), m, Sleeping, [], m + USR, Arrived(4 - n, queues), n, false, false, 5)
  {
    es := CountTo(m, n, queues);
    es := SendRest(m, es, n, n, queues);
    es := EndWait(m, es, Arrived(4 - n, queues), n, queues);
  }

  // ---------------------------------------------------------------- from main's sleep to the verdict

  lemma WakeMain(m: set<Signal>, es: seq<Event>, quits: nat, n: nat, waitflag: bool, c: nat, queues: bool)
    returns (es': seq<Event>)
    requires NothingFromOthers(es)
    requires At(Reached(m, es, queues), m, Sleeping, [], m + USR, quits, n, waitflag, false, c)
    ensures NothingFromOthers(es')
    ensures At(Reached(m, es', queues), m, TestTwo, [], m + USR, quits, n, waitflag, false, c)
  {
    es' := Then(m, es, Run(true), queues);
  }

  lemma PassTwo(m: set<Signal>, es: seq<Event>, quits: nat, n: nat, waitflag: bool, c: nat, queues: bool)
    returns (es': seq<Event>)
    requires NothingFromOthers(es) && n != 2
    requires At(Reached(m, es, queues), m, TestTwo, [], m + USR, quits, n, waitflag, false, c)
    ensures NothingFromOthers(es')
    ensures At(Reached(m, es', queues), m, TestFour, [], m + USR, quits, n, waitflag, false, c)
  {
    es' := Then(m, es, Run(true), queues);
  }

  lemma PassFour(m: set<Signal>, es: seq<Event>, quits: nat, n: nat, waitflag: bool, c: nat, queues: bool)
    returns (es': seq<Event>)
    requires NothingFromOthers(es) && n != 4
    requires At(Reached(m, es, queues), m, TestFour, [], m + USR, quits, n, waitflag, false, c)
    ensures NothingFromOthers(es')
    ensures At(Reached(m, es', queues), m, Report, [], m + USR, quits, n, waitflag, false, c)
  {
    es' := Then(m, es, Run(true), queues);
  }

  /** With nothing in between, main gives the verdict for the count. */
  lemma Judged(m: set<Signal>, es: seq<Event>, quits: nat, n: nat, waitflag: bool, c: nat, queues: bool)
    returns (es': seq<Event>)
    requires NothingFromOthers(es)
    requires At(Reached(m, es, queues), m, Sleeping, [], m + USR, quits, n, waitflag, false, c)
    ensures NothingFromOthers(es')
    ensures var s := Reached(m, es', queues);
      s.verdict.Some? && Fits(s.verdict.value, n) && s.p.pending == multiset{}[SIGQUIT := quits]
  {
    es' := WakeMain(m, es, quits, n, waitflag, c, queues);
    if n != 2 {
      es' := PassTwo(m, es', quits, n, waitflag, c, queues);
      if n != 4 { es' := PassFour(m, es', quits, n, waitflag, c, queues); }
    }
    es' := Then(m, es', Run(true), queues);
  }

  /** A SIGQUIT handled between the tests makes main report a count of 2 or 4 as unknown. */
  lemma JudgedLate(m: set<Signal>, n: nat, queues: bool) returns (es: seq<Event>)
    requires SIGQUIT !in m && (n == 2 || n == 4)
    ensures NothingFromOthers(es) && Reached(m, es, queues).verdict == Some(Unknown(n))
  {
    var q := Arrived(5 - n, queues);
    es := Counted(m, n - 1, queues);
    es := WakeMain(m, es, q, n - 1, false, 5, queues);
    es := PassTwo(m, es, q, n - 1, false, 5, queues);
    if n == 2 {
      es := LateQuit(m, es, TestFour, q, 1, queues);
      es := PassFour(m, es, q - 1, 2, false, 5, queues);
    } else {
      es := PassFour(m, es, q, 3, false, 5, queues);
      es := LateQuit(m, es, Report, q, 3, queues);
    }
    es := Then(m, es, Run(true), queues);
  }

  lemma Uncounted(m: set<Signal>, queues: bool) returns (es: seq<Event>)
    ensures NothingFromOthers(es) && Reached(m, es, queues).verdict == Some(Unknown(0))
  {
    es := Start(m, queues);
    es := Judged(m, es, 0, 0, true, 0, queues);
  }

  // ---------------------------------------------------------------- SIGQUIT blocked from the start

  /** A SIGQUIT blocked from the start is never handled, since only the handler itself unblocks it. */
  ghost predicate NeverHandled(s: State) {
    && s.p.handlers == [] && SIGQUIT in s.p.mask && s.sigcount == 0
    && (s.verdict.None? || s.verdict == Some(Unknown(0)))
    && (if s.p.main.TellWait? then s.p.pending == multiset{} else USR <= s.p.mask)
  }

  lemma NothingDeliverable(s: State, signo: Signal)
    requires NeverHandled(s)
    ensures !s.p.Deliverable(signo)
  {
    assert signo == SIGQUIT || signo in USR;
  }

  lemma StepNeverHandled(s: State, e: Event, queues: bool)
    requires NeverHandled(s)
    ensures NeverHandled(Step(s, e, queues))
  {
    if Enabled(s, e) {
      match e
      case Run(ok) => MainNeverHandled(s, ok);
      case Deliver(signo) => NothingDeliverable(s, signo);
      case ChildKill =>
      case ForeignKill(_) =>
    }
  }

  lemma MainNeverHandled(s: State, ok: bool)
    requires NeverHandled(s)
    ensures NeverHandled(MainStep(s, ok))
  {
    match s.p.main
    case TellWait =>
    case Fork =>
    case Sleeping =>
    case TestTwo =>
    case TestFour =>
    case Report =>
    case _ =>
  }

  lemma {:induction false} ExecNeverHandled(s: State, es: seq<Event>, queues: bool)
    requires NeverHandled(s)
    ensures NeverHandled(Exec(s, es, queues))
    decreases es
  {
    if es != [] {
      StepNeverHandled(s, es[0], queues);
      ExecNeverHandled(Step(s, es[0], queues), es[1..], queues);
    }
  }

  // ---------------------------------------------------------------- which verdicts are possible

  /** The verdicts of runs with no signals from others; `free` tells that SIGQUIT was not blocked. */
  predicate PossibleVerdict(v: Verdict, free: bool) {
    match v
    case NotQueued => free
    case Queued => free
    case Unknown(n) => n == 0 || (free && 1 <= n <= 4)
  }

  lemma VerdictPossible(m: set<Signal>, es: seq<Event>, queues: bool)
    requires NothingFromOthers(es) && Reached(m, es, queues).verdict.Some?
    ensures PossibleVerdict(Reached(m, es, queues).verdict.value, SIGQUIT !in m)
  {
    ReachedInv(m, es, queues);
    ReachedOutcome(m, es, queues);
    ExecForeign(Init(m), es, queues);
    if SIGQUIT in m { ExecNeverHandled(Init(m), es, queues); }
  }

  /**
   With no signals from others, main can report exactly this, on a kernel that queues and on one that
   does not: "unknown 0"; and, if SIGQUIT is not blocked at the start, "queued", "NOT queued", and
   "unknown" with any count from 1 to 4.
   */
  lemma VerdictsExactly(m: set<Signal>, v: Verdict, queues: bool)
    ensures (exists es :: NothingFromOthers(es) && Reached(m, es, queues).verdict == Some(v))
       <==> PossibleVerdict(v, SIGQUIT !in m)
  {
    forall es | NothingFromOthers(es) && Reached(m, es, queues).verdict == Some(v)
      ensures PossibleVerdict(v, SIGQUIT !in m)
    {
      VerdictPossible(m, es, queues);
    }
    if PossibleVerdict(v, SIGQUIT !in m) { var es := SomeRun(m, v, queues); }
  }

  lemma SomeRun(m: set<Signal>, v: Verdict, queues: bool) returns (es: seq<Event>)
    requires PossibleVerdict(v, SIGQUIT !in m)
    ensures NothingFromOthers(es) && Reached(m, es, queues).verdict == Some(v)
  {
    if v == Unknown(0) {
      es := Uncounted(m, queues);
    } else if v == Unknown(2) || v == Unknown(4) {
      es := JudgedLate(m, v.count, queues);
    } else {
      var n := match v case NotQueued => 2 case Queued => 4 case Unknown(count) => count;
      es := Counted(m, n, queues);
      es := Judged(m, es, Arrived(4 - n, queues), n, false, 5, queues);
    }
  }

  /**
   The verdict "Signal is queued" can be given exactly if the process does not start with SIGQUIT
   blocked, with or without signals from others, on a kernel that queues and on one that never does.
   */
  lemma QueuedWithoutQueueing(m: set<Signal>, queues: bool)
    ensures (exists es :: NothingFromOthers(es) && Reached(m, es, queues).verdict == Some(Queued)) <==> SIGQUIT !in m
    ensures (exists es :: Reached(m, es, queues).verdict == Some(Queued)) <==> SIGQUIT !in m
  {
    VerdictsExactly(m, Queued, queues);
    if SIGQUIT in m {
      forall es ensures Reached(m, es, queues).verdict != Some(Queued) { ExecNeverHandled(Init(m), es, queues); }
    }
  }

  /**
   The verdict fits the final count in every run without signals from others exactly if SIGQUIT is
   blocked at the start: else one that arrives between main's tests can make a count of 2 "unknown".
   */
  lemma FitsAlwaysExactly(m: set<Signal>, queues: bool)
    ensures (forall es :: var s := Reached(m, es, queues);
               NothingFromOthers(es) && s.verdict.Some? ==> Fits(s.verdict.value, s.sigcount)) <==> SIGQUIT in m
  {
    if SIGQUIT in m {
      forall es | Reached(m, es, queues).verdict.Some?
        ensures Fits(Reached(m, es, queues).verdict.value, Reached(m, es, queues).sigcount)
      {
        ExecNeverHandled(Init(m), es, queues);
      }
    } else {
      var es := JudgedLate(m, 2, queues);
      ReachedOutcome(m, es, queues);
      var s := Reached(m, es, queues);
      assert NothingFromOthers(es) && s.verdict.Some? && !Fits(s.verdict.value, s.sigcount);
    }
  }

  // ---------------------------------------------------------------- what "NOT queued" is worth

  /** Two SIGQUITs are counted, and the other two were merged or are pending. */
  lemma NotQueuedVerdict(m: set<Signal>, es: seq<Event>, queues: bool)
    requires NothingFromOthers(es) && Reached(m, es, queues).verdict == Some(NotQueued)
    ensures var s := Reached(m, es, queues); s.h.merged + s.p.pending[SIGQUIT] == 2
  {
    ReachedOutcome(m, es, queues);
    ReachedInv(m, es, queues);
    FinalRead(m, es, queues);
  }

  /** All three further SIGQUITs arrive during the first handler and are merged into one. */
  lemma TwoHandled(m: set<Signal>, queues: bool) returns (es: seq<Event>)
    requires SIGQUIT !in m && !queues
    ensures NothingFromOthers(es)
    ensures At(Reached(m, es, queues), m, Sleeping, [], m + USR, 0, 2, false, false, 5)
  {
    es := CountTo(m, 1, queues);
    es := SendRest(m, es, 1, 1, queues);
    es := FallAsleep(m, es, 1, 1, 4, queues);
    es := NextEntry(m, es, 1, 1, 4, queues);
    es := EndWait(m, es, 0, 2, queues);
  }

  /**
   Unlike "queued", the verdict "NOT queued" tells something, if pending signals are delivered before
   main's test: with no SIGQUIT left pending it can be given exactly if the kernel does not queue and
   SIGQUIT is not blocked at the start.
   */
  lemma NotQueuedExactly(m: set<Signal>, queues: bool)
    ensures (exists es :: var s := Reached(m, es, queues);
               NothingFromOthers(es) && s.verdict == Some(NotQueued) && SIGQUIT !in s.p.pending)
       <==> SIGQUIT !in m && !queues
  {
    forall es | NothingFromOthers(es) && Reached(m, es, queues).verdict == Some(NotQueued)
                && SIGQUIT !in Reached(m, es, queues).p.pending
      ensures SIGQUIT !in m && !queues
    {
      VerdictPossible(m, es, queues);
      NotQueuedVerdict(m, es, queues);
      ReachedInv(m, es, queues);
    }
    if SIGQUIT !in m && !queues {
      var es := TwoHandled(m, queues);
      es := Judged(m, es, 0, 2, false, 5, queues);
      var s := Reached(m, es, queues);
      assert NothingFromOthers(es) && s.verdict == Some(NotQueued) && SIGQUIT !in s.p.pending;
    }
  }
}
