/** The recording-session controller behind the `/record/start`, `/record/stop`
    and `/record/status` endpoints.  Its one slot, `DATARECTHREAD`, is empty or
    holds a recorder thread that is alive or dead.  Thread liveness is the
    recorder's `alive` flag; whether a freshly started thread is still alive
    after the half-second grace wait is an input of `Start`. */
module Controller {
  import opened Wrappers
  import opened Text
  import opened Recorder
  import opened Telemetry

  /** The file a recording is logged to:
      `<root>/EXPDATA/sub_<patient>/sess_<session>/rec_<record>.csv`. */
  function LogPath(root: string, patient: string, session: string, record: string): string {
    root + "/" + Join(["EXPDATA", "sub_" + patient, "sess_" + session, "rec_" + record + ".csv"], '/')
  }

  /** Identifiers without a `/` determine their log file: two recordings share a
      file only when they have the same patient, session and record. */
  lemma LogPathInjective(root: string, p: string, s: string, r: string, p': string, s': string, r': string)
    requires '/' !in p && '/' !in s && '/' !in r && '/' !in p' && '/' !in s' && '/' !in r'
    requires LogPath(root, p, s, r) == LogPath(root, p', s', r')
    ensures p == p' && s == s' && r == r'
  {
    var parts := ["EXPDATA", "sub_" + p, "sess_" + s, "rec_" + r + ".csv"];
    var parts' := ["EXPDATA", "sub_" + p', "sess_" + s', "rec_" + r' + ".csv"];
    forall x | x in parts ensures '/' !in x {
      assert forall c :: c in "sub_" + p ==> c in "sub_" || c in p;
      assert forall c :: c in "sess_" + s ==> c in "sess_" || c in s;
      assert forall c :: c in "rec_" + r + ".csv" ==> c in "rec_" || c in r || c in ".csv";
    }
    forall x | x in parts' ensures '/' !in x {
      assert forall c :: c in "sub_" + p' ==> c in "sub_" || c in p';
      assert forall c :: c in "sess_" + s' ==> c in "sess_" || c in s';
      assert forall c :: c in "rec_" + r' + ".csv" ==> c in "rec_" || c in r' || c in ".csv";
    }
    var n := |root| + 1;
    assert Join(parts, '/') == LogPath(root, p, s, r)[n..];
    assert Join(parts', '/') == LogPath(root, p', s', r')[n..];
    SplitJoin(parts, '/');
    SplitJoin(parts', '/');
    assert parts == parts';
    assert p == parts[1][4..] == parts'[1][4..] == p';
    assert s == parts[2][5..] == parts'[2][5..] == s';
    assert r == parts[3][4..|parts[3]| - 4] == parts'[3][4..|parts'[3]| - 4] == r';
  }

  /** Identifiers holding a `/` can make two different recordings write the
      same file: moving `/sess_<b>` from the end of the patient to the front of
      the session leaves the path as it was. */
  lemma LogPathCollision(root: string, a: string, b: string, c: string, r: string)
    ensures a + "/sess_" + b != a
    ensures LogPath(root, a + "/sess_" + b, c, r) == LogPath(root, a, b + "/sess_" + c, r)
  {
    var p, s := "sub_" + (a + "/sess_" + b), "sess_" + c;
    var p', s' := "sub_" + a, "sess_" + (b + "/sess_" + c);
    var tail := "rec_" + r + ".csv";
    JoinFour("EXPDATA", p, s, tail);
    JoinFour("EXPDATA", p', s', tail);
    MovedSeparator(a, b, c);
    assert |a + "/sess_" + b| > |a|;
  }

  lemma MovedSeparator(a: string, b: string, c: string)
    ensures ("sub_" + (a + "/sess_" + b)) + "/" + ("sess_" + c) == ("sub_" + a) + "/" + ("sess_" + (b + "/sess_" + c))
  {
    var x := "sub_" + a;
    assert "sub_" + (a + "/sess_" + b) == x + "/sess_" + b;
    assert "/" + "sess_" == "/sess_";
  }

  lemma JoinFour(a: string, b: string, c: string, d: string)
    ensures Join([a, b, c, d], '/') == a + "/" + (b + "/" + c) + "/" + d
  {
    assert [a, b, c, d][1..] == [b, c, d];
    assert [b, c, d][1..] == [c, d];
    assert [c, d][1..] == [d];
    assert Join([c, d], '/') == c + "/" + d;
    assert Join([b, c, d], '/') == b + "/" + (c + "/" + d);
    assert Join([a, b, c, d], '/') == a + "/" + (b + "/" + (c + "/" + d));
  }

  /** The status strings the endpoints answer with. */
  datatype RecStatus = RECORDING | FINISHED | ERROR

  /** The `data` part of a status answer. */
  datatype PatData<V> = PatData(patient: string, session: string, record: string, plot: Option<seq<Record<V>>>)

  /** A status answer, or the `AttributeError` raised when the recorder in the
      slot was not given session identifiers. */
  datatype StatusReply<V> = StatusReply(status: RecStatus, data: Option<PatData<V>>) | StatusRaised

  /** A start answer, or the `TypeError` the recorder's constructor raises for
      keyword arguments it does not declare. */
  datatype StartReply = Started(status: RecStatus) | StartRaised(unexpected: seq<string>)

  /** The parameters of the recorder's constructor as declared. */
  const RecorderParameters: seq<string> := ["port", "baud", "logfile"]

  /** The keyword arguments the start endpoint passes to that constructor. */
  const StartKeywords: seq<string> := ["port", "baud", "logfile", "patient", "session", "record"]

  /** The keyword arguments a call passes that the callee does not declare, in
      the order they are passed. */
  function Unexpected(keywords: seq<string>, parameters: seq<string>): seq<string> {
    if keywords == [] then []
    else (if keywords[0] in parameters then [] else [keywords[0]]) + Unexpected(keywords[1..], parameters)
  }

  /** Exactly the passed keywords that are not declared parameters are unexpected. */
  lemma {:induction false} UnexpectedMembers(keywords: seq<string>, parameters: seq<string>)
    ensures forall k :: k in Unexpected(keywords, parameters) <==> k in keywords && k !in parameters
  {
    if keywords != [] {
      UnexpectedMembers(keywords[1..], parameters);
      assert forall k :: k in keywords <==> k == keywords[0] || k in keywords[1..];
    }
  }

  /** The start endpoint's constructor call names three parameters the
      recorder does not declare, `patient` first. */
  lemma StartCallHasUnexpectedKeywords()
    ensures Unexpected(StartKeywords, RecorderParameters) == ["patient", "session", "record"]
  {
  }

  class RecordingController {
    /** `DATARECTHREAD`: the current recorder, if any. */
    var current: SerialDataRecorder?
    /** Every recorder this controller has created. */
    ghost var spawned: set<SerialDataRecorder>

    /** The slot's recorder has been started and carries its identifiers;
        every other recorder ever created is dead. */
    ghost predicate Valid()
      reads this, spawned
    {
      && (current != null ==> current in spawned && current.started && current.ids.Some?)
      && forall r :: r in spawned && r != current ==> r.started && !r.alive
    }

    /** At most one recorder is alive, and it is the one in the slot. */
    lemma AtMostOneAlive()
      requires Valid()
      ensures forall r :: r in spawned && r.alive ==> r == current
    {
    }

    /** The process starts with an empty slot. */
    constructor ()
      ensures Valid() && current == null && spawned == {}
    {
      current := null;
      spawned := {};
    }

    /** `start_data_record` with a recorder that accepts the session identifiers:
        an empty slot or a dead recorder is replaced by a new, started recorder,
        and the answer says whether it survived the grace wait; a live recorder
        is kept and the answer is RECORDING. */
    method Start(root: string, patient: string, session: string, record: string, port: string, baud: int, aliveAfterGrace: bool)
      returns (status: RecStatus)
      requires Valid()
      modifies this
      ensures Valid()
      ensures old(current) == null || !old(current.alive) ==>
        && current != null && fresh(current) && spawned == old(spawned) + {current}
        && current.ids == Some(SessionIds(patient, session, record))
        && current.logfile == LogPath(root, patient, session, record)
        && current.port == port && current.baud == baud
        && current.msgq == [] && current.spobj == None && current.log == [] && current.closeCount == 0
        && current.alive == aliveAfterGrace
        && status == (if aliveAfterGrace then RECORDING else ERROR)
      ensures old(current) != null && old(current.alive) ==>
        current == old(current) && spawned == old(spawned) && status == RECORDING
    {
      var logfilename := LogPath(root, patient, session, record);
      if current == null || !current.alive {
        var recorder := new SerialDataRecorder.WithSession(port, baud, logfilename, patient, session, record);
        recorder.Start(aliveAfterGrace);
        current := recorder;
        spawned := spawned + {recorder};
        if current.alive {
          return RECORDING;
        } else {
          return ERROR;
        }
      }
      return RECORDING;
    }

    /** `start_data_record` as written: when it has to create a recorder, the
        constructor call raises `TypeError` for the keywords the constructor
        does not declare, before the slot is assigned. */
    method StartAsWritten(root: string, patient: string, session: string, record: string, port: string, baud: int)
      returns (reply: StartReply)
      requires Valid()
      ensures old(current) == null || !old(current.alive) ==> reply == StartRaised(Unexpected(StartKeywords, RecorderParameters))
      ensures old(current) != null && old(current.alive) ==> reply == Started(RECORDING)
    {
      if current == null || !current.alive {
        return StartRaised(Unexpected(StartKeywords, RecorderParameters));
      }
      return Started(RECORDING);
    }

    /** `stop_data_record`: always FINISHED.  An empty slot stays empty; a live
        recorder gets exactly one STOP and stays in the slot; a dead recorder
        is dropped from the slot. */
    method Stop() returns (status: RecStatus)
      requires Valid()
      modifies this, current
      ensures Valid() && status == FINISHED && spawned == old(spawned)
      ensures old(current) == null ==> current == null
      ensures old(current) != null && old(current.alive) ==>
        current == old(current) && current.msgq == old(current.msgq) + [STOP]
      ensures old(current) != null && !old(current.alive) ==> current == null
      ensures old(current) != null ==>
        unchanged(old(current)`alive, old(current)`started, old(current)`log, old(current)`spobj, old(current)`closeCount)
    {
      if current == null {
        return FINISHED;
      }
      if current.alive {
        current.StopRecording();
        return FINISHED;
      }
      current := null;
      return FINISHED;
    }

    /** `data_record_status` for the log as it reads at the time of the call:
        an empty slot gives FINISHED and no data; a recorder gives RECORDING
        while alive and FINISHED once dead, with its identifiers and the plot
        window of its log. */
    method Status<V>(lines: seq<seq<V>>, classify: V -> Literal) returns (reply: StatusReply<V>)
      ensures current == null ==> reply == StatusReply(FINISHED, None)
      ensures current != null && current.ids.None? ==> reply == StatusRaised
      ensures current != null && current.ids.Some? ==>
        var ids := current.ids.value;
        reply == StatusReply(if current.alive then RECORDING else FINISHED,
                             Some(PatData(ids.patient, ids.session, ids.record, PlotData(lines, classify))))
    {
      if current == null {
        return StatusReply(FINISHED, None);
      }
      match current.ids
      case None =>
        return StatusRaised;
      case Some(ids) =>
        var plot := PlotData(lines, classify);
        var patdata := PatData(ids.patient, ids.session, ids.record, plot);
        if current.alive {
          return StatusReply(RECORDING, Some(patdata));
        }
        return StatusReply(FINISHED, Some(patdata));
    }
  }

  /** Before any recording: stop changes nothing and answers FINISHED, and status
      answers FINISHED without data. */
  method IdleController<V>(lines: seq<seq<V>>, classify: V -> Literal) returns (stopped: RecStatus, reply: StatusReply<V>)
    ensures stopped == FINISHED && reply == StatusReply(FINISHED, None)
  {
    var c := new RecordingController();
    stopped := c.Stop();
    reply := c.Status(lines, classify);
  }

  /** With the start endpoint as written, the slot is never filled: every start
      raises, and status keeps answering FINISHED without data. */
  method AsWrittenNeverRecords<V>(root: string, patient: string, session: string, record: string, port: string, baud: int, lines: seq<seq<V>>, classify: V -> Literal)
    returns (first: StartReply, second: StartReply, reply: StatusReply<V>)
    ensures first == second == StartRaised(["patient", "session", "record"])
    ensures reply == StatusReply(FINISHED, None)
  {
    var c := new RecordingController();
    StartCallHasUnexpectedKeywords();
    first := c.StartAsWritten(root, patient, session, record, port, baud);
    second := c.StartAsWritten(root, patient, session, record, port, baud);
    reply := c.Status(lines, classify);
  }

  /** With the corrected constructor, a start that survives the grace wait is
      reported as RECORDING with its identifiers; a second start keeps it; a
      stop posts one STOP and status still reports RECORDING until the thread
      has ended. */
  method StartStopScenario<V>(root: string, patient: string, session: string, record: string, port: string, baud: int, lines: seq<seq<V>>, classify: V -> Literal)
    returns (started: RecStatus, again: RecStatus, stopped: RecStatus, reply: StatusReply<V>)
    ensures started == again == RECORDING && stopped == FINISHED
    ensures reply == StatusReply(RECORDING, Some(PatData(patient, session, record, PlotData(lines, classify))))
  {
    var c := new RecordingController();
    started := c.Start(root, patient, session, record, port, baud, true);
    again := c.Start(root, patient, session, record, port, baud, true);
    stopped := c.Stop();
    reply := c.Status(lines, classify);
  }

  /** A stop right after a start, with the recorder's thread running to its
      end: the thread takes the STOP it was sent in its first pass, closes the
      port once and returns without having logged a byte, and status then
      reports FINISHED with the identifiers. */
  method StopRightAfterStart<V>(root: string, patient: string, session: string, record: string, port: string, baud: int, lines: seq<seq<V>>, classify: V -> Literal)
    returns (started: RecStatus, stopped: RecStatus, result: RunResult, portState: Option<SerialPort>, ghost closes: nat, reply: StatusReply<V>)
    ensures started == RECORDING && stopped == FINISHED
    ensures result == Returned(0)
    ensures portState == Some(SerialPort(port, baud, false)) && closes == 1
    ensures reply == StatusReply(FINISHED, Some(PatData(patient, session, record, PlotData(lines, classify))))
  {
    var c := new RecordingController();
    started := c.Start(root, patient, session, record, port, baud, true);
    stopped := c.Stop();
    var recorder := c.current;
    assert recorder.msgq == [STOP];
    var script := [Poll([], [])];
    assert FromStart([STOP], script) == LoopEnd(LoopState([], 0, [], [STOP]), Stopped, 1);
    result := recorder.Run(true, true, script);
    portState := recorder.spobj;
    closes := recorder.closeCount;
    reply := c.Status(lines, classify);
  }
}
