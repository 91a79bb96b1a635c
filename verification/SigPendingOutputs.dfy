/** What signals/sigpending.c can print, exactly. */
module SigPendingOutputs {
  import opened SignalMachine
  import opened SigPending

  const R := Run(true)

  lemma Before(s: State, e: Event, es: seq<Event>, queues: bool) returns (es': seq<Event>)
    ensures Exec(s, es', queues) == Exec(Step(s, e, queues), es, queues)
  {
    es' := [e] + es;
    assert es'[1..] == es;
  }

  function At(main: Pc, hs: seq<Frame<Pc, Signal>>, mask: set<Signal>, n: nat, d: Disposition,
              saved: set<Signal>, out: seq<Line>): State
  {
    State(Process(main, hs, mask, multiset{}[SIGQUIT := n]), true, d, saved, out)
  }

  // ---------------------------------------------------------------- how the process ends

  /** Some step of the run is of the kind `p`. */
  predicate Happens(p: (State, Event) -> bool, s: State, es: seq<Event>, queues: bool)
    decreases es
  {
    es != [] && (p(s, es[0]) || Happens(p, Step(s, es[0], queues), es[1..], queues))
  }

  /** A call of main or of sig_quit fails, and main or the handler exits. */
  predicate CallFails(s: State, e: Event) {
    e == Run(false) &&
    var pc := s.p.Running();
    pc.Install? || pc.Block? || pc.AskPending? || pc.Unblock? || pc.RestoreDefault?
  }

  /** A SIGQUIT arrives before the handler is installed, unless it was ignored then, or after it was caught. */
  predicate QuitKills(s: State, e: Event, ignored: bool) {
    e.Deliver? && s.p.Deliverable(SIGQUIT) && if s.p.main.Install? then !ignored else Caught in s.out
  }

  predicate Ends(s: State, e: Event, ignored: bool) {
    s.alive && (CallFails(s, e) || QuitKills(s, e, ignored) || (e.Run? && s.p.Running().Return?))
  }

  /** Until it is replaced, the disposition is the one the process started with. */
  predicate Started(s: State, ignored: bool) {
    s.p.main.Install? ==> s.disposition == if ignored then Ignore else Default
  }

  lemma StepEnds(s: State, e: Event, mask: set<Signal>, ignored: bool, queues: bool)
    requires Inv(s, mask) && Started(s, ignored)
    ensures var t := Step(s, e, queues);
      Started(t, ignored) && (!t.alive <==> !s.alive || Ends(s, e, ignored))
  {
  }

  lemma {:induction false} ExecEnds(s: State, es: seq<Event>, mask: set<Signal>, ignored: bool, queues: bool)
    requires Inv(s, mask) && Started(s, ignored)
    ensures !Exec(s, es, queues).alive <==>
            !s.alive || Happens((s, e) => Ends(s, e, ignored), s, es, queues)
    decreases es
  {
    if es != [] {
      StepEnds(s, es[0], mask, ignored, queues);
      StepKeepsInv(s, es[0], mask, queues);
      ExecEnds(Step(s, es[0], queues), es[1..], mask, ignored, queues);
    }
  }

  /**
   The handler is one-shot: the process ends exactly by a failing call, by main's return, or by a
   SIGQUIT that arrives before the handler is installed or after it has caught one.
   */
  lemma EndsExactly(es: seq<Event>, mask: set<Signal>, ignored: bool, queues: bool)
    ensures !Exec(Init(mask, ignored), es, queues).alive <==>
            Happens((s, e) => Ends(s, e, ignored), Init(mask, ignored), es, queues)
  {
    ExecEnds(Init(mask, ignored), es, mask, ignored, queues);
  }

  // ---------------------------------------------------------------- every run is finite

  /** Steps the code at `pc` can still take by itself. */
  function Work(pc: Pc): nat {
    match pc
    case Install => 10 case Block => 9 case Sleeping => 8 case AskPending => 7 case PrintPending => 6 case Unblock => 5
    case UnblockReturns(_) => 4 case PrintUnblocked => 3 case SleepAgain => 2 case Return => 1
    case PrintCatch => 3 case RestoreDefault => 2 case HandlerReturn => 1
  }

  function Measure(s: State): nat {
    if !s.alive then 0
    else 4 * |s.p.pending| + Work(s.p.main) + if s.p.handlers == [] then 0 else Work(s.p.handlers[0].pc)
  }

  lemma DeliverWorks(s: State, mask: set<Signal>)
    requires Inv(s, mask) && s.alive && s.p.Deliverable(SIGQUIT)
    ensures Measure(DeliverQuit(s)) < Measure(s)
  {
    var t := DeliverQuit(s);
    if t.alive { assert |t.p.pending| == |s.p.pending| - 1; }
  }

  /** Every step and every delivery uses up some of the measure. */
  lemma StepsDecrease(s: State, e: Event, mask: set<Signal>, queues: bool)
    requires Inv(s, mask) && Enabled(s, e) && !e.Kill?
    ensures Measure(Step(s, e, queues)) < Measure(s)
  {
    if e.Deliver? { DeliverWorks(s, mask); }
  }

  lemma KillAddsWork(s: State, queues: bool)
    ensures Measure(Step(s, Kill, queues)) <= Measure(s) + 4
  {
    assert |s.p.pending + multiset{SIGQUIT}| == |s.p.pending| + 1;
  }

  function Effective(s: State, es: seq<Event>, queues: bool): nat
    decreases es
  {
    if es == [] then 0
    else (if Enabled(s, es[0]) && !es[0].Kill? then 1 else 0) + Effective(Step(s, es[0], queues), es[1..], queues)
  }

  function Kills(es: seq<Event>): nat {
    if es == [] then 0 else (if es[0].Kill? then 1 else 0) + Kills(es[1..])
  }

  lemma {:induction false} RunsAreBounded(s: State, es: seq<Event>, mask: set<Signal>, queues: bool)
    requires Inv(s, mask)
    ensures Effective(s, es, queues) + Measure(Exec(s, es, queues)) <= Measure(s) + 4 * Kills(es)
    decreases es
  {
    if es != [] {
      StepKeepsInv(s, es[0], mask, queues);
      if es[0].Kill? { KillAddsWork(s, queues); }
      else if Enabled(s, es[0]) { StepsDecrease(s, es[0], mask, queues); }
      RunsAreBounded(Step(s, es[0], queues), es[1..], mask, queues);
    }
  }

  /** With finitely many SIGQUITs a run is finite, at most 4 steps each and 10 more, and only its end stops it. */
  lemma Termination(es: seq<Event>, mask: set<Signal>, ignored: bool, queues: bool)
    ensures Effective(Init(mask, ignored), es, queues) <= 10 + 4 * Kills(es)
    ensures var s := Exec(Init(mask, ignored), es, queues);
      s.alive ==> Enabled(s, Run(true)) || Enabled(s, Deliver)
  {
    RunsAreBounded(Init(mask, ignored), es, mask, queues);
    ExecInv(Init(mask, ignored), es, mask, queues);
  }

  // ---------------------------------------------------------------- pieces of runs

  /** main installs the handler; `es` goes on from there. */
  lemma FromStart(mask: set<Signal>, ignored: bool, es: seq<Event>, queues: bool) returns (es': seq<Event>)
    ensures Exec(Init(mask, ignored), es', queues) == Exec(At(Block, [], mask, 0, Catch, {}, []), es, queues)
  {
    assert Step(Init(mask, ignored), R, queues) == At(Block, [], mask, 0, Catch, {}, []);
    es' := Before(Init(mask, ignored), R, es, queues);
  }

  /** sig_quit is all there is on the stack. */
  function Quit(pc: Pc, mask: set<Signal>): seq<Frame<Pc, Signal>> {
    [Frame(pc, SIGQUIT, mask)]
  }

  /** sig_quit runs from its first line to its return. */
  lemma HandlerRuns(main: Pc, mask: set<Signal>, saved: set<Signal>, out: seq<Line>, es: seq<Event>, queues: bool)
    returns (es': seq<Event>)
    ensures Exec(At(main, Quit(PrintCatch, mask), mask + {SIGQUIT}, 0, Catch, saved, out), es', queues)
         == Exec(At(main, [], mask, 0, Default, saved, out + [Caught]), es, queues)
  {
    var b, words := mask + {SIGQUIT}, out + [Caught];
    var s0 := At(main, Quit(PrintCatch, mask), b, 0, Catch, saved, out);
    var s1 := Step(s0, R, queues);
    assert s1 == At(main, Quit(RestoreDefault, mask), b, 0, Catch, saved, words);
    var s2 := Step(s1, R, queues);
    assert s2 == At(main, Quit(HandlerReturn, mask), b, 0, Default, saved, words);
    assert Step(s2, R, queues) == At(main, [], mask, 0, Default, saved, words);
    es' := Before(s2, R, es, queues);
    es' := Before(s1, R, es', queues);
    es' := Before(s0, R, es', queues);
  }

  /** A SIGQUIT comes and is handled before main goes on. */
  lemma CatchOne(main: Pc, mask: set<Signal>, saved: set<Signal>, out: seq<Line>, es: seq<Event>, queues: bool)
    returns (es': seq<Event>)
    requires SIGQUIT !in mask && (main.Block? || main.SleepAgain?)
    ensures Exec(At(main, [], mask, 0, Catch, saved, out), es', queues)
         == Exec(At(main, [], mask, 0, Default, saved, out + [Caught]), es, queues)
  {
    var s0 := At(main, [], mask, 0, Catch, saved, out);
    var s1 := Step(s0, Kill, queues);
    assert s1 == At(main, [], mask, 1, Catch, saved, out);
    assert Step(s1, Deliver, queues) == At(main, Quit(PrintCatch, mask), mask + {SIGQUIT}, 0, Catch, saved, out);
    es' := HandlerRuns(main, mask, saved, out, es, queues);
    es' := Before(s1, Deliver, es', queues);
    es' := Before(s0, Kill, es', queues);
  }

  /** A SIGQUIT comes while it is blocked and is found pending. */
  lemma PendingWindow(mask: set<Signal>, d: Disposition, saved: set<Signal>, out: seq<Line>,
                      es: seq<Event>, queues: bool)
    returns (es': seq<Event>)
    ensures Exec(At(Block, [], mask, 0, d, saved, out), es', queues)
         == Exec(At(Unblock, [], mask + {SIGQUIT}, 1, d, mask, out + [Pending]), es, queues)
  {
    var b := mask + {SIGQUIT};
    var s0 := At(Block, [], mask, 0, d, saved, out);
    var s1 := Step(s0, R, queues);
    assert s1 == At(Sleeping, [], b, 0, d, mask, out);
    var s2 := Step(s1, Kill, queues);
    assert s2 == At(Sleeping, [], b, 1, d, mask, out);
    var s3 := Step(s2, R, queues);
    assert s3 == At(AskPending, [], b, 1, d, mask, out);
    var s4 := Step(s3, R, queues);
    assert s4 == At(PrintPending, [], b, 1, d, mask, out);
    assert Step(s4, R, queues) == At(Unblock, [], b, 1, d, mask, out + [Pending]);
    es' := Before(s4, R, es, queues);
    es' := Before(s3, R, es', queues);
    es' := Before(s2, R, es', queues);
    es' := Before(s1, Kill, es', queues);
    es' := Before(s0, R, es', queues);
  }

  /** No SIGQUIT comes while it is blocked. */
  lemma QuietWindow(mask: set<Signal>, d: Disposition, saved: set<Signal>, out: seq<Line>, es: seq<Event>, queues: bool)
    returns (es': seq<Event>)
    ensures Exec(At(Block, [], mask, 0, d, saved, out), es', queues)
         == Exec(At(SleepAgain, [], mask, 0, d, mask, out + [Unblocked]), es, queues)
  {
    var b := mask + {SIGQUIT};
    var s0 := At(Block, [], mask, 0, d, saved, out);
    var s1 := Step(s0, R, queues);
    assert s1 == At(Sleeping, [], b, 0, d, mask, out);
    var s2 := Step(s1, R, queues);
    assert s2 == At(AskPending, [], b, 0, d, mask, out);
    var s3 := Step(s2, R, queues);
    assert s3 == At(Unblock, [], b, 0, d, mask, out);
    es' := ToSleepAgain(mask, 0, d, out, es, queues);
    es' := Before(s3, R, es', queues);
    es' := Before(s2, R, es', queues);
    es' := Before(s1, R, es', queues);
    es' := Before(s0, R, es', queues);
  }

  /** With nothing to deliver, main prints "unblocked". */
  lemma ToSleepAgain(mask: set<Signal>, n: nat, d: Disposition, out: seq<Line>, es: seq<Event>, queues: bool)
    returns (es': seq<Event>)
    ensures Exec(At(UnblockReturns(false), [], mask, n, d, mask, out), es', queues)
         == Exec(At(SleepAgain, [], mask, n, d, mask, out + [Unblocked]), es, queues)
  {
    var s0 := At(UnblockReturns(false), [], mask, n, d, mask, out);
    var s1 := Step(s0, R, queues);
    assert s1 == At(PrintUnblocked, [], mask, n, d, mask, out);
    assert Step(s1, R, queues) == At(SleepAgain, [], mask, n, d, mask, out + [Unblocked]);
    es' := Before(s1, R, es, queues);
    es' := Before(s0, R, es', queues);
  }

  // ---------------------------------------------------------------- the longest words

  /** The longest of the words is printed in some run. */
  lemma LongestOutput(mask: set<Signal>, ignored: bool, queues: bool) returns (es: seq<Event>)
    requires SIGQUIT !in mask
    ensures Exec(Init(mask, ignored), es, queues).out == [Pending, Caught, Unblocked]
  {
    var b, back := mask + {SIGQUIT}, UnblockReturns(false);
    assert [] + [Pending] == [Pending] && [Pending] + [Caught] + [Unblocked] == [Pending, Caught, Unblocked];
    var s0 := At(Unblock, [], b, 1, Catch, mask, [Pending]);
    var s1 := Step(s0, R, queues);
    assert s1 == At(UnblockReturns(true), [], mask, 1, Catch, mask, [Pending]);
    assert Step(s1, Deliver, queues) == At(back, Quit(PrintCatch, mask), b, 0, Catch, mask, [Pending]);
    es := ToSleepAgain(mask, 0, Default, [Pending] + [Caught], [], queues);
    es := HandlerRuns(back, mask, mask, [Pending], es, queues);
    es := Before(s1, Deliver, es, queues);
    es := Before(s0, R, es, queues);
    es := PendingWindow(mask, Catch, {}, [], es, queues);
    es := FromStart(mask, ignored, es, queues);
  }

  /** SIGQUIT is caught before the window and, if `pending`, comes again inside it. */
  lemma CaughtFirst(mask: set<Signal>, ignored: bool, pending: bool, queues: bool) returns (es: seq<Event>)
    requires SIGQUIT !in mask
    ensures Exec(Init(mask, ignored), es, queues).out == [Caught, if pending then Pending else Unblocked]
  {
    assert [] + [Caught] == [Caught];
    assert [Caught] + [Pending] == [Caught, Pending] && [Caught] + [Unblocked] == [Caught, Unblocked];
    if pending {
      es := PendingWindow(mask, Default, {}, [Caught], [], queues);
    } else {
      es := QuietWindow(mask, Default, {}, [Caught], [], queues);
    }
    es := CatchOne(Block, mask, {}, [], es, queues);
    es := FromStart(mask, ignored, es, queues);
  }

  lemma CaughtLast(mask: set<Signal>, ignored: bool, queues: bool) returns (es: seq<Event>)
    requires SIGQUIT !in mask
    ensures Exec(Init(mask, ignored), es, queues).out == [Unblocked, Caught]
  {
    assert [] + [Unblocked] == [Unblocked] && [Unblocked] + [Caught] == [Unblocked, Caught];
    es := CatchOne(SleepAgain, mask, mask, [Unblocked], [], queues);
    es := QuietWindow(mask, Catch, {}, [], es, queues);
    es := FromStart(mask, ignored, es, queues);
  }

  lemma OnlyUnblocked(mask: set<Signal>, ignored: bool, queues: bool) returns (es: seq<Event>)
    ensures Exec(Init(mask, ignored), es, queues).out == [Unblocked]
  {
    assert [] + [Unblocked] == [Unblocked];
    es := QuietWindow(mask, Catch, {}, [], [], queues);
    es := FromStart(mask, ignored, es, queues);
  }

  /** Blocked from the start, SIGQUIT stays pending. */
  lemma NeverCaught(mask: set<Signal>, ignored: bool, queues: bool) returns (es: seq<Event>)
    requires SIGQUIT in mask
    ensures Exec(Init(mask, ignored), es, queues).out == [Pending, Unblocked]
  {
    assert [] + [Pending] == [Pending] && [Pending] + [Unblocked] == [Pending, Unblocked];
    var s := At(Unblock, [], mask + {SIGQUIT}, 1, Catch, mask, [Pending]);
    assert Step(s, R, queues) == At(UnblockReturns(false), [], mask, 1, Catch, mask, [Pending]);
    es := ToSleepAgain(mask, 1, Catch, [Pending], [], queues);
    es := Before(s, R, es, queues);
    es := PendingWindow(mask, Catch, {}, [], es, queues);
    es := FromStart(mask, ignored, es, queues);
  }

  // ---------------------------------------------------------------- all words

  lemma StepPrintsOne(s: State, e: Event, queues: bool)
    ensures var t := Step(s, e, queues); s.out <= t.out && |t.out| <= |s.out| + 1
  {
  }

  /** Output comes line by line: a run that prints a word has printed each of its beginnings. */
  lemma {:induction false} Beginning(s: State, es: seq<Event>, word: seq<Line>, queues: bool) returns (es': seq<Event>)
    requires s.out <= word <= Exec(s, es, queues).out
    ensures Exec(s, es', queues).out == word
    decreases es
  {
    es' := [];
    if word != s.out {
      StepPrintsOne(s, es[0], queues);
      var t := Step(s, es[0], queues);
      ExecPrints(t, es[1..], queues);
      es' := Beginning(t, es[1..], word, queues);
      es' := Before(s, es[0], es', queues);
    }
  }

  lemma {:induction false} ExecPrints(s: State, es: seq<Event>, queues: bool)
    ensures s.out <= Exec(s, es, queues).out
    decreases es
  {
    if es != [] {
      StepPrintsOne(s, es[0], queues);
      ExecPrints(Step(s, es[0], queues), es[1..], queues);
    }
  }

  /** A run that prints the given word or goes on after it. */
  lemma Extended(word: seq<Line>, mask: set<Signal>, ignored: bool, queues: bool) returns (es: seq<Event>)
    requires PossibleOutput(word, SIGQUIT !in mask)
    ensures word <= Exec(Init(mask, ignored), es, queues).out
  {
    if SIGQUIT in mask {
      if word == [Unblocked] {
        es := OnlyUnblocked(mask, ignored, queues);
      } else {
        es := NeverCaught(mask, ignored, queues);
      }
    } else if |word| == 2 && word[0].Caught? {
      es := CaughtFirst(mask, ignored, word[1].Pending?, queues);
    } else if word == [Caught] {
      es := CaughtFirst(mask, ignored, true, queues);
    } else if word != [] && word[0].Unblocked? {
      es := CaughtLast(mask, ignored, queues);
    } else {
      es := LongestOutput(mask, ignored, queues);
    }
  }

  /** The words listed by PossibleOutput are exactly the outputs of runs. */
  lemma OutputsExactly(word: seq<Line>, mask: set<Signal>, ignored: bool, queues: bool)
    ensures PossibleOutput(word, SIGQUIT !in mask)
       <==> exists es :: Exec(Init(mask, ignored), es, queues).out == word
  {
    forall es | Exec(Init(mask, ignored), es, queues).out == word ensures PossibleOutput(word, SIGQUIT !in mask) {
      OutputLanguage(es, mask, ignored, queues);
    }
    if PossibleOutput(word, SIGQUIT !in mask) {
      var es := Extended(word, mask, ignored, queues);
      es := Beginning(Init(mask, ignored), es, word, queues);
    }
  }
}
