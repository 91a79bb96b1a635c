/**
 A single-threaded process as POSIX signals see it (XSH sections 2.4.1 and 2.4.3 of
 POSIX.1-2017): the place where the main program stands, a stack of handler frames,
 the signal mask in force and the pending signals.  `P` names program points and `S`
 the signals a program deals with.
 */
module SignalMachine {

  /** A handler in progress: where it stands, the signal it handles and the mask its return restores. */
  datatype Frame<P, S> = Frame(pc: P, signo: S, saved: set<S>)

  datatype Process<P, !S> = Process(main: P, handlers: seq<Frame<P, S>>, mask: set<S>, pending: multiset<S>)
  {
    /** The program point that executes next. */
    function Running(): P {
      if handlers == [] then main else handlers[|handlers| - 1].pc
    }

    /** Moves the running code to another program point. */
    function Goto(pc: P): Process<P, S> {
      if handlers == [] then this.(main := pc)
      else
        var top := |handlers| - 1;
        this.(handlers := handlers[top := handlers[top].(pc := pc)])
    }

    /** Signal generation: without queueing, a signal that is already pending is not recorded again. */
    function Generate(signo: S, queues: bool): Process<P, S> {
      if queues || signo !in pending then this.(pending := pending + multiset{signo}) else this
    }

    predicate Deliverable(signo: S) {
      signo in pending && signo !in mask
    }

    /**
     Delivery to a handler that starts at `entry`.  `restored` is the mask its return brings back;
     it differs from the mask in force when a sigsuspend is being interrupted.
     */
    function Enter(signo: S, entry: P, restored: set<S>, blocks: bool): Process<P, S> {
      Process(main, handlers + [Frame(entry, signo, restored)],
              if blocks then mask + {signo} else mask, pending - multiset{signo})
    }

    /** Normal return of the running handler. */
    function Return(): Process<P, S>
      requires handlers != []
    {
      var top := |handlers| - 1;
      Process(main, handlers[..top], handlers[top].saved, pending)
    }

    /** The mask that is in force once only the `i` lowest handlers remain. */
    ghost function MaskBelow(i: nat): set<S>
      requires i <= |handlers|
    {
      if i == |handlers| then mask else handlers[i].saved
    }
  }

  /** Delivery leaves the masks of all suspended frames as they were, and the return undoes it. */
  lemma EnterThenReturn<P, S>(p: Process<P, S>, signo: S, entry: P, blocks: bool)
    ensures var q := p.Enter(signo, entry, p.mask, blocks);
      && (forall i: nat | i <= |p.handlers| :: q.MaskBelow(i) == p.MaskBelow(i))
      && q.Return() == p.(pending := p.pending - multiset{signo})
  {
    var q := p.Enter(signo, entry, p.mask, blocks);
    assert q.handlers[..|p.handlers|] == p.handlers;
  }
}
