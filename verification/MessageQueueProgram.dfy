/**
 The two threads of sv_msq.c and the queue between them, updated in place.  Each method takes
 one step of its thread and is proved to take the step that MessageQueue describes.
 */
module MessageQueueProgram {
  import opened Fgets
  import M = MessageQueue
  import T = MessageQueueTheorems

  class Process {
    const cfg: M.Config
    // main
    var input: string
    var producer: M.ProducerPc
    // thr_func
    var consumer: M.ConsumerPc
    // the message queue
    var queue: seq<M.Text>
    var removed: bool
    var alive: bool
    // output, and what the program itself does not record
    var printed: seq<M.Text>
    ghost var readFailed: bool
    ghost var chunks: seq<string>
    ghost var sent: seq<M.Text>
    ghost var received: seq<M.Text>
    ghost var lost: seq<M.Text>

    ghost function View(): M.State
      reads this
    {
      M.State(input, producer, consumer, queue, removed, alive, readFailed, chunks, sent, received, printed, lost)
    }

    constructor (stdin: string, config: M.Config)
      ensures View() == M.Init(stdin) && cfg == config
    {
      cfg, input, producer, consumer := config, stdin, M.Read, M.Start;
      queue, removed, alive, printed := [], false, true, [];
      readFailed, chunks, sent, received, lost := false, [], [], [], [];
    }

    method QueuedBytes() returns (n: nat)
      ensures n == M.Bytes(queue)
    {
      n := 0;
      for i := 0 to |queue|
        invariant n + M.Bytes(queue[i..]) == M.Bytes(queue)
      {
        assert queue[i..][1..] == queue[i + 1..];
        n := n + M.Size(queue[i]);
      }
    }

    /** A step of main: the fgets loop, the removal of the queue and the join. */
    method RunMain(ok: bool)
      requires alive
      modifies this
      ensures View() == M.Step(old(View()), M.Producer(ok), cfg)
    {
      match producer
      case Read => ReadInput(ok);
      case Send(text) =>
        var used := QueuedBytes();
        if !ok {
          alive := false;
        } else if used + M.Size(text) <= cfg.queueBytes {
          MsgSnd(text);
        }
      case Remove =>
        if ok { MsgCtlRemove(); } else { alive := false; }
      case Join =>
        if consumer.Over? { producer := M.Returned; }
      case Returned =>
    }

    method ReadInput(ok: bool)
      requires producer.Read?
      modifies this`producer, this`input, this`readFailed, this`chunks
      ensures View() == M.ProducerStep(old(View()), ok, cfg)
    {
      if !ok || input == [] {
        producer := M.Remove;
        readFailed := readFailed || !ok;
      } else {
        var n := Taken(input, cfg.capacity - 1);
        producer := M.Send(Truncated(input[..n]));
        chunks := chunks + [input[..n]];
        input := input[n..];
      }
    }

    method MsgSnd(text: M.Text)
      modifies this
      ensures View() == M.SendStep(old(View()), text)
    {
      producer := M.Read;
      sent := sent + [text];
      if consumer.Asleep? {
        consumer := M.Print(text);
        received := received + [text];
      } else {
        queue := queue + [text];
      }
    }

    method MsgCtlRemove()
      modifies this
      ensures View() == M.RemoveStep(old(View()))
    {
      producer, removed := M.Join, true;
      lost := queue;
      queue := [];
      if consumer.Asleep? { consumer := M.Idrm; }
    }

    /** A step of thr_func. */
    method ThrFunc(ok: bool)
      requires alive
      modifies this
      ensures View() == M.Step(old(View()), M.Consumer(ok), cfg)
    {
      match consumer
      case Start =>
        if ok { consumer := M.Receive; } else { consumer, alive := M.Error, false; }
      case Receive =>
        if !ok || removed {
          consumer, alive := M.Error, false;
        } else if queue == [] {
          consumer := M.Asleep;
        } else {
          consumer := M.Print(queue[0]);
          received := received + [queue[0]];
          queue := queue[1..];
        }
      case Asleep =>
        if !ok { consumer, alive := M.Error, false; }
      case Print(text) =>
        printed := printed + [text];
        consumer := M.Receive;
      case Idrm => consumer := M.Over;
      case _ =>
    }

    method Run(es: seq<M.Event>)
      modifies this
      ensures View() == M.Exec(old(View()), es, cfg)
      ensures old(View()) == M.Init(old(input)) ==>
        printed <= Texts(Chunks(old(input), cfg.capacity - 1)) && (consumer.Over? ==> printed == sent)
    {
      ghost var start := View();
      for i := 0 to |es|
        invariant M.Exec(View(), es[i..], cfg) == M.Exec(start, es, cfg)
      {
        assert es[i..][0] == es[i] && es[i..][1..] == es[i + 1..];
        if alive {
          match es[i]
          case Producer(ok) => RunMain(ok);
          case Consumer(ok) => ThrFunc(ok);
        }
      }
      if start == M.Init(old(input)) {
        T.PrintedTexts(old(input), es, cfg);
        if consumer.Over? { T.CleanShutdown(old(input), es, cfg); }
      }
    }
  }
}
