/** The serial data recorder thread: a poll loop that drains the bytes waiting
    on the serial port into the log file, counts them, and stops when a `STOP`
    message arrives on its queue.

    Time, the thread itself and the serial driver are abstracted: the loop is
    driven by a script of steps, one per iteration, each giving the bytes the
    driver reports waiting and the messages other threads post to the queue
    during that iteration, or a fault (an exception from the driver or from
    decoding).  Bytes are written to the log as they are read. */
module Recorder {
  import opened Wrappers

  newtype byte = x: int | 0 <= x < 256

  /** The only message the loop acts on. */
  const STOP: string := "STOP"

  /** One iteration of the poll loop, as the environment presents it. */
  datatype Step = Poll(chunk: seq<byte>, posted: seq<string>) | Fault

  /** How the loop ended: on `STOP`, by an exception, or not yet (the script ran out). */
  datatype Exit = Stopped | Crashed | Polling

  /** The loop's data: the log written so far, the byte counter `BYTES`, the
      message queue, and (for the specification only) the messages taken from it. */
  datatype LoopState = LoopState(log: seq<byte>, bytes: nat, queue: seq<string>, taken: seq<string>)

  /** The end of the loop: its state, how it ended, and how many iterations
      completed their read-and-write. */
  datatype LoopEnd = LoopEnd(state: LoopState, exit: Exit, iterations: nat)

  /** The state after one iteration and whether the message it took was `STOP`:
      posted messages join the queue; waiting bytes are appended and counted;
      at most one message is taken, without blocking. */
  function Iterate(s: LoopState, chunk: seq<byte>, posted: seq<string>): (LoopState, bool) {
    var q := s.queue + posted;
    var log := if |chunk| > 0 then s.log + chunk else s.log;
    var bytes := if |chunk| > 0 then s.bytes + |chunk| else s.bytes;
    if |q| > 0 then (LoopState(log, bytes, q[1..], s.taken + [q[0]]), q[0] == STOP)
    else (LoopState(log, bytes, q, s.taken), false)
  }

  /** The loop `while True` run against a script, from state `s`. */
  function RunLoop(s: LoopState, script: seq<Step>): (e: LoopEnd)
    ensures e.iterations <= |script|
    ensures forall k :: 0 <= k < e.iterations ==> script[k].Poll?
    ensures e.exit == Polling ==> e.iterations == |script|
    ensures e.exit == Crashed ==> e.iterations < |script| && script[e.iterations] == Fault
    ensures e.exit == Stopped ==> e.iterations >= 1
    decreases |script|
  {
    if script == [] then LoopEnd(s, Polling, 0)
    else match script[0]
      case Fault => LoopEnd(s, Crashed, 0)
      case Poll(chunk, posted) =>
        var (s', stop) := Iterate(s, chunk, posted);
        if stop then LoopEnd(s', Stopped, 1)
        else
          var e := RunLoop(s', script[1..]);
          LoopEnd(e.state, e.exit, e.iterations + 1)
  }

  /** The bytes of the steps' chunks, in order. */
  function Chunks(steps: seq<Step>): seq<byte> {
    if steps == [] then []
    else (if steps[0].Poll? then steps[0].chunk else []) + Chunks(steps[1..])
  }

  /** The messages the steps post, in order. */
  function Posts(steps: seq<Step>): seq<string> {
    if steps == [] then []
    else (if steps[0].Poll? then steps[0].posted else []) + Posts(steps[1..])
  }

  /** The log grows by exactly the chunks of the completed iterations, in order
      (including the one that took `STOP`), and the counter by their length. */
  lemma {:induction false} RunLoopWrites(s: LoopState, script: seq<Step>)
    ensures var e := RunLoop(s, script);
      && e.state.log == s.log + Chunks(script[..e.iterations])
      && e.state.bytes == s.bytes + |Chunks(script[..e.iterations])|
    decreases |script|
  {
    if script != [] && script[0].Poll? {
      var (s', stop) := Iterate(s, script[0].chunk, script[0].posted);
      var e := RunLoop(s, script);
      assert script[..1][1..] == [];
      if !stop {
        RunLoopWrites(s', script[1..]);
        assert script[..e.iterations][1..] == script[1..][..e.iterations - 1];
      }
    }
  }

  /** One iteration keeps every message: queued plus posted equals taken plus
      still queued; it takes at most one, and reports `STOP` exactly when the
      one it took is `STOP`. */
  lemma IterateMessages(s: LoopState, chunk: seq<byte>, posted: seq<string>)
    ensures var (s', stop) := Iterate(s, chunk, posted);
      && s.taken + s.queue + posted == s'.taken + s'.queue
      && (|s'.taken| == |s.taken| || |s'.taken| == |s.taken| + 1)
      && s'.taken[..|s.taken|] == s.taken
      && (stop <==> |s'.taken| == |s.taken| + 1 && s'.taken[|s.taken|] == STOP)
  {
    var q := s.queue + posted;
    if |q| > 0 {
      assert q == [q[0]] + q[1..];
    }
  }

  lemma PostsPrefix(script: seq<Step>, k: nat)
    requires 1 <= k <= |script|
    ensures Posts(script[..k]) == (if script[0].Poll? then script[0].posted else []) + Posts(script[1..][..k - 1])
  {
    assert script[..k][1..] == script[1..][..k - 1];
  }

  /** Messages are taken in arrival order and none is lost: what was queued plus
      what was posted during the completed iterations equals what was taken plus
      what is still queued; at most one message is taken per iteration. */
  lemma {:induction false} RunLoopKeepsMessageOrder(s: LoopState, script: seq<Step>)
    ensures var e := RunLoop(s, script);
      && s.taken + s.queue + Posts(script[..e.iterations]) == e.state.taken + e.state.queue
      && |s.taken| <= |e.state.taken| <= |s.taken| + e.iterations
      && e.state.taken[..|s.taken|] == s.taken
    decreases |script|
  {
    if script != [] && script[0].Poll? {
      var (s', stop) := Iterate(s, script[0].chunk, script[0].posted);
      IterateMessages(s, script[0].chunk, script[0].posted);
      var e := RunLoop(s, script);
      PostsPrefix(script, e.iterations);
      if stop {
        assert script[1..][..0] == [];
      } else {
        RunLoopKeepsMessageOrder(s', script[1..]);
        assert e.state.taken[..|s'.taken|][..|s.taken|] == e.state.taken[..|s.taken|];
      }
    }
  }

  /** The loop stops exactly when one of the messages it took is `STOP`. */
  lemma {:induction false} RunLoopStopsOnFirstStop(s: LoopState, script: seq<Step>)
    ensures var e := RunLoop(s, script);
      && |s.taken| <= |e.state.taken|
      && (e.exit == Stopped <==> STOP in e.state.taken[|s.taken|..])
    decreases |script|
  {
    if script != [] && script[0].Poll? {
      var (s', stop) := Iterate(s, script[0].chunk, script[0].posted);
      IterateMessages(s, script[0].chunk, script[0].posted);
      var e := RunLoop(s, script);
      if stop {
        assert e.state == s';
        assert e.state.taken[|s.taken|..] == [STOP];
      } else {
        var e' := RunLoop(s', script[1..]);
        assert e.state == e'.state && e.exit == e'.exit;
        RunLoopStopsOnFirstStop(s', script[1..]);
        RunLoopKeepsMessageOrder(s', script[1..]);
        var t, t', te := s.taken, s'.taken, e'.state.taken;
        assert STOP !in t'[|t|..];
        assert te[|t|..] == t'[|t|..] + te[|t'|..];
        assert STOP in te[|t|..] <==> STOP in te[|t'|..];
      }
    }
  }

  /** When the loop stops, the last message it took is the `STOP`. */
  lemma {:induction false} RunLoopStopIsLastTaken(s: LoopState, script: seq<Step>)
    ensures var e := RunLoop(s, script);
      e.exit == Stopped ==> |e.state.taken| > 0 && e.state.taken[|e.state.taken| - 1] == STOP
    decreases |script|
  {
    if script != [] && script[0].Poll? {
      var (s', stop) := Iterate(s, script[0].chunk, script[0].posted);
      IterateMessages(s, script[0].chunk, script[0].posted);
      if !stop {
        RunLoopStopIsLastTaken(s', script[1..]);
      }
    }
  }

  /** The loop as `run` starts it: empty log, zero bytes, the queue as it is. */
  function FromStart(queue: seq<string>, script: seq<Step>): LoopEnd {
    RunLoop(LoopState([], 0, queue, []), script)
  }

  /** A run as `run` starts it writes exactly the chunks of its completed
      iterations, in order, and its byte counter is the length of that log. */
  lemma RunFromStartWritesChunks(queue: seq<string>, script: seq<Step>)
    ensures var e := FromStart(queue, script);
      e.state.log == Chunks(script[..e.iterations]) && e.state.bytes == |e.state.log|
  {
    RunLoopWrites(LoopState([], 0, queue, []), script);
  }

  /** The log only grows, and the counter never decreases. */
  lemma LogOnlyGrows(s: LoopState, script: seq<Step>)
    ensures var e := RunLoop(s, script); s.log <= e.state.log && s.bytes <= e.state.bytes
  {
    RunLoopWrites(s, script);
  }

  /** With an empty queue and nothing posted, the loop never stops and never
      crashes on a fault-free script: an empty queue is not a stop. */
  lemma {:induction false} QuietQueueKeepsPolling(s: LoopState, script: seq<Step>)
    requires s.queue == []
    requires forall k :: 0 <= k < |script| ==> script[k] .Poll? && script[k].posted == []
    ensures RunLoop(s, script).exit == Polling
    decreases |script|
  {
    if script != [] {
      var (s', stop) := Iterate(s, script[0].chunk, script[0].posted);
      QuietQueueKeepsPolling(s', script[1..]);
    }
  }

  /** A `STOP` behind `q` other messages ends the loop in iteration `|q| + 1`
      when nothing else is posted: one message is taken per iteration. */
  lemma {:induction false} StopLatency(s: LoopState, q: seq<string>, script: seq<Step>)
    requires s.queue == q + [STOP] && STOP !in q
    requires |script| > |q|
    requires forall k :: 0 <= k < |script| ==> script[k].Poll? && script[k].posted == []
    ensures RunLoop(s, script).exit == Stopped && RunLoop(s, script).iterations == |q| + 1
    decreases |script|
  {
    var (s', stop) := Iterate(s, script[0].chunk, script[0].posted);
    assert s.queue + script[0].posted == s.queue;
    if q != [] {
      assert s'.queue == q[1..] + [STOP];
      StopLatency(s', q[1..], script[1..]);
    }
  }

  /** The end of a loop entered after `k` iterations already done. */
  function Shift(e: LoopEnd, k: nat): LoopEnd {
    LoopEnd(e.state, e.exit, e.iterations + k)
  }

  /** What `run` reports for a loop end. */
  function Outcome(e: LoopEnd): RunResult {
    match e.exit
    case Stopped => Returned(e.state.bytes)
    case Crashed => Raised(e.state.bytes)
    case Polling => StillPolling(e.state.bytes)
  }

  lemma RunLoopFaultStep(s: LoopState, script: seq<Step>, i: nat)
    requires i < |script| && script[i] == Fault
    ensures RunLoop(s, script[i..]) == LoopEnd(s, Crashed, 0)
  {
    assert script[i..][0] == script[i];
  }

  lemma RunLoopPollStep(s: LoopState, script: seq<Step>, i: nat)
    requires i < |script| && script[i].Poll?
    ensures var (s', stop) := Iterate(s, script[i].chunk, script[i].posted);
      RunLoop(s, script[i..]) == if stop then LoopEnd(s', Stopped, 1) else Shift(RunLoop(s', script[i + 1..]), 1)
  {
    assert script[i..][0] == script[i] && script[i..][1..] == script[i + 1..];
  }

  /** The serial port handle the recorder opens. */
  datatype SerialPort = SerialPort(port: string, baud: int, isOpen: bool)

  /** The identifiers of a recording session. */
  datatype SessionIds = SessionIds(patient: string, session: string, record: string)

  /** What `run` ends with: the serial port could not be opened; the log file
      could not be opened for writing; it returned the byte count after `STOP`;
      an exception ended it; or it is still polling. */
  datatype RunResult =
    | OpenFailed | LogOpenFailed | Returned(bytes: nat) | Raised(bytesLogged: nat) | StillPolling(bytesLogged: nat)

  /** The log file `__init__` uses when none is given. */
  const DefaultLogFile: string := "log.txt"

  class SerialDataRecorder {
    const port: string
    const baud: int
    const logfile: string
    /** The session identifiers, when the recorder was given them. */
    const ids: Option<SessionIds>
    /** `spobj`: the serial port, once `run` has opened it. */
    var spobj: Option<SerialPort>
    /** `msgq`: the messages waiting to be taken by the loop. */
    var msgq: seq<string>
    /** The contents of the log file as this recorder has written it. */
    var log: seq<byte>
    /** Whether the thread has been started, and whether it is alive. */
    var started: bool
    var alive: bool
    /** How many times the serial port has been closed. */
    ghost var closeCount: nat

    /** `__init__` as declared: port, baud and log file, no port yet, an empty queue. */
    constructor (port: string, baud: int, logfile: string)
      ensures this.port == port && this.baud == baud && this.logfile == logfile && ids == None
      ensures spobj == None && msgq == [] && log == [] && !started && !alive && closeCount == 0
    {
      this.port, this.baud, this.logfile, ids := port, baud, logfile, None;
      spobj, msgq, log := None, [], [];
      started, alive, closeCount := false, false, 0;
    }

    /** `__init__` called without a log file: the default one. */
    constructor WithDefaultLog(port: string, baud: int)
      ensures this.port == port && this.baud == baud && this.logfile == DefaultLogFile && ids == None
      ensures spobj == None && msgq == [] && log == [] && !started && !alive && closeCount == 0
    {
      this.port, this.baud, this.logfile, ids := port, baud, DefaultLogFile, None;
      spobj, msgq, log := None, [], [];
      started, alive, closeCount := false, false, 0;
    }

    /** The constructor the controller calls: the same, also keeping the session identifiers. */
    constructor WithSession(port: string, baud: int, logfile: string, patient: string, session: string, record: string)
      ensures this.port == port && this.baud == baud && this.logfile == logfile
      ensures ids == Some(SessionIds(patient, session, record))
      ensures spobj == None && msgq == [] && log == [] && !started && !alive && closeCount == 0
    {
      this.port, this.baud, this.logfile := port, baud, logfile;
      ids := Some(SessionIds(patient, session, record));
      spobj, msgq, log := None, [], [];
      started, alive, closeCount := false, false, 0;
    }

    /** `Thread.start`: the thread is alive after the grace wait unless its run
        already ended (for instance because the port could not be opened). */
    method Start(aliveAfterGrace: bool)
      requires !started
      modifies this`started, this`alive
      ensures started && alive == aliveAfterGrace
    {
      started, alive := true, aliveAfterGrace;
    }

    /** `stop_recording`: post one `STOP`; nothing else changes. */
    method StopRecording()
      modifies this`msgq
      ensures msgq == old(msgq) + [STOP]
    {
      msgq := msgq + [STOP];
    }

    /** One pass of the poll loop: queue what was posted, append and count the
        waiting bytes, and take at most one message without blocking. */
    method PollOnce(chunk: seq<byte>, posted: seq<string>, bytes: nat, ghost taken: seq<string>)
      returns (bytes': nat, stop: bool, ghost taken': seq<string>)
      modifies this`msgq, this`log
      ensures (LoopState(log, bytes', msgq, taken'), stop) == Iterate(LoopState(old(log), bytes, old(msgq), taken), chunk, posted)
    {
      msgq := msgq + posted;
      bytes' := bytes;
      if |chunk| > 0 {
        log := log + chunk;
        bytes' := bytes' + |chunk|;
      }
      stop := false;
      taken' := taken;
      if |msgq| > 0 {
        var msg := msgq[0];
        msgq := msgq[1..];
        taken' := taken' + [msg];
        stop := msg == STOP;
      }
    }

    /** `run`: open the port (or fail), open the log for writing (or fail, with
        the port left open), poll until `STOP`, then close the port and return
        the byte count.  An exception in the loop ends the thread without
        closing the port.  `opens` and `logOpens` say whether the two opens
        succeed. */
    method Run(opens: bool, logOpens: bool, script: seq<Step>) returns (result: RunResult)
      requires alive && spobj.None?
      modifies this`spobj, this`msgq, this`log, this`alive, this`closeCount
      ensures !opens ==> result == OpenFailed && !alive && spobj == None
      ensures !opens ==> unchanged(this`log, this`msgq, this`closeCount)
      ensures opens && !logOpens ==> result == LogOpenFailed && !alive && spobj == Some(SerialPort(port, baud, true))
      ensures opens && !logOpens ==> unchanged(this`log, this`msgq, this`closeCount)
      ensures opens && logOpens ==> log == FromStart(old(msgq), script).state.log
      ensures opens && logOpens ==> msgq == FromStart(old(msgq), script).state.queue
      ensures opens && logOpens ==> spobj == Some(SerialPort(port, baud, FromStart(old(msgq), script).exit != Stopped))
      ensures opens && logOpens ==> closeCount == old(closeCount) + (if FromStart(old(msgq), script).exit == Stopped then 1 else 0)
      ensures opens && logOpens ==> alive == (FromStart(old(msgq), script).exit == Polling)
      ensures opens && logOpens ==> result == Outcome(FromStart(old(msgq), script))
    {
      if !opens {
        alive := false;
        return OpenFailed;
      }
      spobj := Some(SerialPort(port, baud, true));
      if !logOpens {
        alive := false;
        return LogOpenFailed;
      }
      var bytes: nat := 0;
      log := [];
      ghost var taken: seq<string> := [];
      ghost var end := FromStart(msgq, script);
      var i := 0;
      var stopped := false;
      while i < |script|
        invariant 0 <= i <= |script|
        invariant !stopped && alive
        invariant spobj == Some(SerialPort(port, baud, true)) && closeCount == old(closeCount)
        invariant Shift(RunLoop(LoopState(log, bytes, msgq, taken), script[i..]), i) == end
      {
        match script[i]
        case Fault =>
          RunLoopFaultStep(LoopState(log, bytes, msgq, taken), script, i);
          alive := false;
          return Raised(bytes);
        case Poll(chunk, posted) =>
          ghost var before := LoopState(log, bytes, msgq, taken);
          var stop;
          bytes, stop, taken := PollOnce(chunk, posted, bytes, taken);
          RunLoopPollStep(before, script, i);
          i := i + 1;
          if stop {
            stopped := true;
            break;
          }
      }
      if stopped {
        spobj := Some(spobj.value.(isOpen := false));
        closeCount := closeCount + 1;
        alive := false;
        return Returned(bytes);
      }
      assert script[i..] == [];
      return StillPolling(bytes);
    }
  }
}
