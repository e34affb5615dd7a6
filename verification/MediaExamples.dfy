/** Short runs of the media call server that reach the cases the theorems single out. */
module MediaExamples {
  import opened Prelude
  import opened MediaModel
  import opened MediaSteps
  import opened MediaEngine
  import opened MediaRecordings
  import opened MediaCoverage
  import opened MediaViews
  import opened MediaAnswers
  import opened MediaHistories

  /** The connection is open, and the only one in its session. */
  ghost predicate AloneOn(st: Media, c: ConnId, who: ParticipantId, sid: SessionId) {
    && c in st.conns && st.conns[c].who == who && st.conns[c].phase.Open? && st.conns[c].active == Some(sid)
    && Alone(st, sid, who) && InSession(st, sid, who) && st.sessions[sid].participants[who].socket == c
  }

  function JoinRun(c: ConnId, who: ParticipantId, profile: Profile, sid: SessionId): seq<Command> {
    [Connect(c, who, profile)] + [Signal(c, sid, JoinSession(true))]
  }

  lemma AfterJoin(c: ConnId, who: ParticipantId, profile: Profile, sid: SessionId)
    ensures var st := Run(JoinRun(c, who, profile, sid));
      AloneOn(st, c, who, sid) && st.recordings == map[] && st.recordingOf == map[]
  {
    var connected := Step(EMPTY, Connect(c, who, profile));
    RunFromGrows(EMPTY, [], Connect(c, who, profile));
    assert [] + [Connect(c, who, profile)] == [Connect(c, who, profile)];
    assert Run([Connect(c, who, profile)]) == connected;
    RunFromGrows(EMPTY, [Connect(c, who, profile)], Signal(c, sid, JoinSession(true)));
    assert Run(JoinRun(c, who, profile, sid)) == Join(connected, c, sid, true);
    JoinAlone(connected, c, who, sid);
  }

  lemma JoinAlone(st: Media, c: ConnId, who: ParticipantId, sid: SessionId)
    requires c in st.conns && st.conns[c].who == who && st.conns[c].phase.Open? && sid !in st.sessions
    ensures AloneOn(Join(st, c, sid, true), c, who, sid)
    ensures Join(st, c, sid, true).recordings == st.recordings && Join(st, c, sid, true).recordingOf == st.recordingOf
  {
    assert Join(st, c, sid, true).sessions[sid].participants == map[who := Newcomer(st.conns[c], c)];
  }

  // ------------------------------------------------------------------- the echo

  /** A client muted by a moderator finds itself among the others. */
  lemma MutedClientSeesItself(c: ConnId, who: ParticipantId, profile: Profile, sid: SessionId)
    ensures var commands := JoinRun(c, who, profile, sid) + [Mute(sid, who, Some(true), None)];
      && StaysInOneSession(commands, c) && Echoed(commands, c)
      && Member(Run(commands), sid, c) && IsOpen(Run(commands), c)
      && View(Run(commands).conns[c].inbox) != Others(Run(commands).sessions[sid], who)
  {
    var before, mute := JoinRun(c, who, profile, sid), Mute(sid, who, Some(true), None);
    var commands := before + [mute];
    AfterJoin(c, who, profile, sid);
    RunFromGrows(EMPTY, before, mute);
    assert commands[..|before|] == before;
    MuteAlone(Run(before), c, who, sid);
    StaysAfterJoin(c, who, profile, sid);
    assert StaysInOneSession(commands, c) && Echoed(commands, c);
    ClientsSeeTheirSession(commands, sid, c, Run(commands));
  }

  lemma MuteAlone(st: Media, c: ConnId, who: ParticipantId, sid: SessionId)
    requires AloneOn(st, c, who, sid)
    ensures AloneOn(ModerateMute(st, sid, who, Some(true), None), c, who, sid)
    ensures Member(st, sid, c) && IsOpen(st, c)
  {
  }

  lemma StaysGrows(commands: seq<Command>, command: Command, c: ConnId)
    ensures StaysInOneSession(commands + [command], c) <==>
      StaysInOneSession(commands, c) && OneSession(Run(commands), command, c)
  {
    assert (commands + [command])[..|commands|] == commands;
  }

  lemma StaysAfterJoin(c: ConnId, who: ParticipantId, profile: Profile, sid: SessionId)
    ensures StaysInOneSession(JoinRun(c, who, profile, sid), c)
  {
    var connect, join := Connect(c, who, profile), Signal(c, sid, JoinSession(true));
    RunFromGrows(EMPTY, [], connect);
    StaysGrows([], connect, c);
    assert [] + [connect] == [connect];
    assert Run([connect]).sessions == map[];
    StaysGrows([connect], join, c);
  }

  // --------------------------------------------------------- the second session

  /** The connection is open and sits in two sessions, in the second one by itself. */
  ghost predicate InBoth(st: Media, c: ConnId, who: ParticipantId, a: SessionId, b: SessionId) {
    && c in st.conns && st.conns[c].who == who && Member(st, a, c) && Member(st, b, c) && IsOpen(st, c)
    && Alone(st, b, who)
  }

  function BothRun(c: ConnId, who: ParticipantId, profile: Profile, a: SessionId, b: SessionId): seq<Command> {
    JoinRun(c, who, profile, a) + [Signal(c, b, JoinSession(true))]
  }

  lemma OneSessionYet(c: ConnId, who: ParticipantId, profile: Profile, a: SessionId)
    ensures Run(JoinRun(c, who, profile, a)).sessions.Keys == {a} && Run(JoinRun(c, who, profile, a)).conns.Keys == {c}
  {
    var connect, join := Connect(c, who, profile), Signal(c, a, JoinSession(true));
    OneMore([], connect);
    assert [] + [connect] == [connect];
    OneMore([connect], join);
  }

  lemma JoinSecond(st: Media, c: ConnId, who: ParticipantId, a: SessionId, b: SessionId)
    requires AloneOn(st, c, who, a) && b !in st.sessions
    ensures InBoth(Join(st, c, b, true), c, who, a, b) && Join(st, c, b, true).conns.Keys == st.conns.Keys
  {
    assert Join(st, c, b, true).sessions[b].participants == map[who := Newcomer(st.conns[c], c)];
  }

  lemma ConnectAnother(st: Media, c: ConnId, who: ParticipantId, a: SessionId, b: SessionId, d: ConnId, other: ParticipantId, profile: Profile)
    requires InBoth(st, c, who, a, b) && d !in st.conns
    ensures var st' := Step(st, Connect(d, other, profile));
      InBoth(st', c, who, a, b) && d in st'.conns && st'.conns[d].who == other && st'.conns[d].phase.Open?
  {
  }

  /** A client joins two sessions, and somebody else joins the first: now the client takes
      the newcomer for a participant of the second. */
  lemma TwoSessionsSpoilView(c: ConnId, who: ParticipantId, d: ConnId, other: ParticipantId, profile: Profile, a: SessionId, b: SessionId)
    requires a != b && c != d && who != other
    ensures var st := Run(BothRun(c, who, profile, a, b) + [Connect(d, other, profile)] + [Signal(d, a, JoinSession(true))]);
      && Member(st, b, c) && IsOpen(st, c)
      && View(st.conns[c].inbox) - {who} != Others(st.sessions[b], who)
  {
    hide Step, Run, Others, View, EngineOk;
    var joined, both := JoinRun(c, who, profile, a), BothRun(c, who, profile, a, b);
    var second, connect, join := Signal(c, b, JoinSession(true)), Connect(d, other, profile), Signal(d, a, JoinSession(true));
    AfterJoin(c, who, profile, a);
    OneSessionYet(c, who, profile, a);
    OneMore(joined, second);
    JoinIsStep(Run(joined), c, b);
    JoinSecond(Run(joined), c, who, a, b);
    OneMore(both, connect);
    ConnectAnother(Run(both), c, who, a, b, d, other, profile);
    var st := Run(both + [connect]);
    OneMore(both + [connect], join);
    JoinIsStep(st, d, a);
    RunsPin(both + [connect]);
    assert other !in st.sessions[b].participants.Keys;
    SecondSessionSpoilsView(st, a, b, c, d, Join(st, d, a, true));
    SpoiledStaysWho(st, d, a, c);
  }

  lemma JoinIsStep(st: Media, c: ConnId, sid: SessionId)
    requires c in st.conns && st.conns[c].phase.Open?
    ensures Step(st, Signal(c, sid, JoinSession(true))) == Join(st, c, sid, true)
  {
  }

  lemma SpoiledStaysWho(st: Media, d: ConnId, a: SessionId, c: ConnId)
    requires c in st.conns && d in st.conns
    ensures c in Join(st, d, a, true).conns && Join(st, d, a, true).conns[c].who == st.conns[c].who
  {
  }

  // ------------------------------------------------------------- the lost track

  function RecordedRun(c: ConnId, who: ParticipantId, profile: Profile, sid: SessionId, rid: RecordingId): seq<Command> {
    JoinRun(c, who, profile, sid)
    + [Signal(c, sid, NewTransport(true, true))]
    + [Signal(c, sid, NewProducerOn(true, true))]
    + [RecordingStart(sid, rid, true, {})]
  }

  lemma TransportAlone(st: Media, c: ConnId, who: ParticipantId, sid: SessionId)
    requires AloneOn(st, c, who, sid)
    ensures var st' := CreateTransport(st, c, sid, true, true);
      && AloneOn(st', c, who, sid) && st'.recordings == st.recordings && st'.recordingOf == st.recordingOf
      && CanProduce(st', sid, who)
  {
  }

  lemma ProduceAlone(st: Media, c: ConnId, who: ParticipantId, sid: SessionId)
    requires AloneOn(st, c, who, sid) && CanProduce(st, sid, who) && st.recordings == map[] && st.recordingOf == map[]
    ensures var st' := Produce(st, c, sid, true, true);
      && AloneOn(st', c, who, sid) && st'.recordings == map[] && st'.recordingOf == map[]
      && st.nextId in st'.sessions[sid].participants[who].producers
  {
  }

  lemma StartAlone(st: Media, c: ConnId, who: ParticipantId, sid: SessionId, rid: RecordingId, x: nat)
    requires AloneOn(st, c, who, sid) && st.recordings == map[] && st.recordingOf == map[]
    ensures var st' := StartRecording(st, sid, rid, true, {});
      && AloneOn(st', c, who, sid) && sid in st'.recordingOf && st'.recordingOf[sid] == rid && rid in st'.recordings
      && st'.recordings[rid].missed == {}
      && st'.sessions[sid].participants == st.sessions[sid].participants
  {
  }

  lemma NeverForgetsGrows(commands: seq<Command>, command: Command)
    ensures NeverForgets(commands + [command]) <==> NeverForgets(commands) && !ForgetfulCommand(Run(commands), command)
  {
    assert (commands + [command])[..|commands|] == commands;
  }

  lemma JoinForgetsNothing(c: ConnId, who: ParticipantId, profile: Profile, sid: SessionId)
    ensures NeverForgets(JoinRun(c, who, profile, sid))
  {
    var connect, join := Connect(c, who, profile), Signal(c, sid, JoinSession(true));
    RunFromGrows(EMPTY, [], connect);
    NeverForgetsGrows([], connect);
    assert [] + [connect] == [connect];
    assert Run([connect]).sessions == map[];
    NeverForgetsGrows([connect], join);
  }

  lemma RecordedForgetsNothing(c: ConnId, who: ParticipantId, profile: Profile, sid: SessionId, rid: RecordingId)
    ensures NeverForgets(RecordedRun(c, who, profile, sid, rid))
  {
    hide Run, JoinRun;
    var joined := JoinRun(c, who, profile, sid);
    var a, b := Signal(c, sid, NewTransport(true, true)), Signal(c, sid, NewProducerOn(true, true));
    JoinForgetsNothing(c, who, profile, sid);
    NeverForgetsGrows(joined, a);
    NeverForgetsGrows(joined + [a], b);
    NeverForgetsGrows(joined + [a] + [b], RecordingStart(sid, rid, true, {}));
  }

  /** What the recorded client looks like. */
  lemma AfterRecordedRun(c: ConnId, who: ParticipantId, profile: Profile, sid: SessionId, rid: RecordingId)
    ensures var st := Run(RecordedRun(c, who, profile, sid, rid));
      && AloneOn(st, c, who, sid) && sid in st.recordingOf && st.recordingOf[sid] == rid && rid in st.recordings
      && st.recordings[rid].missed == {} && st.sessions[sid].participants[who].producers != {}
  {
    hide Step, JoinRun, CanProduce;
    var joined := JoinRun(c, who, profile, sid);
    var a, b, start := Signal(c, sid, NewTransport(true, true)), Signal(c, sid, NewProducerOn(true, true)), RecordingStart(sid, rid, true, {});
    var st0 := Run(joined);
    AfterJoin(c, who, profile, sid);
    var st1 := CreateTransport(st0, c, sid, true, true);
    TransportAlone(st0, c, who, sid);
    var st2 := Produce(st1, c, sid, true, true);
    ProduceAlone(st1, c, who, sid);
    StartAlone(st2, c, who, sid, rid, st1.nextId);
    ThreeSteps(joined, a, b, start);
    StepsOfRecorded(st0, st1, st2, c, who, sid, rid);
  }

  lemma ThreeSteps(commands: seq<Command>, a: Command, b: Command, d: Command)
    ensures Run(commands + [a] + [b] + [d]) == Step(Step(Step(Run(commands), a), b), d)
  {
    hide Step;
    RunFromGrows(EMPTY, commands, a);
    RunFromGrows(EMPTY, commands + [a], b);
    RunFromGrows(EMPTY, commands + [a] + [b], d);
  }

  lemma StepsOfRecorded(st0: Media, st1: Media, st2: Media, c: ConnId, who: ParticipantId, sid: SessionId, rid: RecordingId)
    requires AloneOn(st0, c, who, sid) && AloneOn(st1, c, who, sid)
    requires st1 == CreateTransport(st0, c, sid, true, true) && st2 == Produce(st1, c, sid, true, true)
    ensures Step(st0, Signal(c, sid, NewTransport(true, true))) == st1
    ensures Step(st1, Signal(c, sid, NewProducerOn(true, true))) == st2
    ensures Step(st2, RecordingStart(sid, rid, true, {})) == StartRecording(st2, sid, rid, true, {})
  {
    hide CreateTransport, Produce, StartRecording;
  }

  /** A client that joins once more while it is being recorded: the next step of this run
      leaves its recording with a track too many. */
  lemma RejoinForgets(c: ConnId, who: ParticipantId, profile: Profile, sid: SessionId, rid: RecordingId)
    ensures var commands := RecordedRun(c, who, profile, sid, rid);
      && NeverForgets(commands) && ForgetfulCommand(Run(commands), Signal(c, sid, JoinSession(true)))
      && !CoverOk(Run(commands + [Signal(c, sid, JoinSession(true))]), {rid})
  {
    hide Run, RecordedRun, CoverOk, EngineOk, PinOk, Step;
    var commands, again := RecordedRun(c, who, profile, sid, rid), Signal(c, sid, JoinSession(true));
    AfterRecordedRun(c, who, profile, sid, rid);
    RecordedForgetsNothing(c, who, profile, sid, rid);
    RunsCover(commands, {rid});
    RunsPin(commands);
    StepCovers(Run(commands), again, {rid});
    OneMore(commands, again);
  }

  lemma OneMore(commands: seq<Command>, command: Command)
    ensures Run(commands + [command]) == Step(Run(commands), command)
  {
    RunFromGrows(EMPTY, commands, command);
  }

  // ------------------------------------------------------- the deserted session

  /** The participant of a recorded session leaves and the recording is stopped: the session
      stays with nobody in it and nothing recorded, and its router stays open. */
  lemma StopLeavesSessionDeserted(c: ConnId, who: ParticipantId, profile: Profile, sid: SessionId, rid: RecordingId)
    ensures var commands := JoinRun(c, who, profile, sid) + [RecordingStart(sid, rid, true, {})]
                            + [Signal(c, sid, LeaveSession)] + [RecordingStop(rid, {}, true)];
      && Deserted(Run(commands), sid) && sid !in Run(commands).recordingOf
      && Run(commands).sessions[sid].router in Run(commands).open
  {
    hide JoinRun, Run, Step, EngineOk, StartRecording, StopRecording;
    var joined := JoinRun(c, who, profile, sid);
    var start, leave, stop := RecordingStart(sid, rid, true, {}), Signal(c, sid, LeaveSession), RecordingStop(rid, {}, true);
    var started, left := joined + [start], joined + [start] + [leave];
    AfterJoin(c, who, profile, sid);
    StartAlone(Run(joined), c, who, sid, rid, 0);
    OneMore(joined, start);
    StepIsStart(Run(joined), sid, rid);
    OneMore(started, leave);
    RunsPin(started);
    StepDeserts(Run(started), leave, sid);
    OtherStepsKeepPins(Run(started), leave);
    OneMore(left, stop);
    RunsPin(left);
    StepDeserts(Run(left), stop, sid);
    StopClearsIndex(Run(left), sid, rid);
    RunsPin(left + [stop]);
    RoutersAreOpen(Run(left + [stop]), sid);
  }

  lemma StepIsStart(st: Media, sid: SessionId, rid: RecordingId)
    ensures Step(st, RecordingStart(sid, rid, true, {})) == StartRecording(st, sid, rid, true, {})
  {
  }

  lemma StopClearsIndex(st: Media, sid: SessionId, rid: RecordingId)
    requires PinOk(st) && sid in st.recordingOf && st.recordingOf[sid] == rid
    ensures sid !in Step(st, RecordingStop(rid, {}, true)).recordingOf
  {
  }

  lemma RoutersAreOpen(st: Media, sid: SessionId)
    requires EngineOk(st) && sid in st.sessions
    ensures st.sessions[sid].router in st.open
  {
  }

  // ---------------------------------------------------------- the seat left behind

  /** A leave sent for another session makes the connection count as active in none, so that
      the close of its socket leaves its seat taken. */
  lemma ClosedSocketKeepsSeat(c: ConnId, who: ParticipantId, profile: Profile, a: SessionId, b: SessionId)
    requires a != b
    ensures var st := Run(JoinRun(c, who, profile, a) + [Signal(c, b, LeaveSession)] + [SocketClosed(c)]);
      Member(st, a, c) && st.conns[c].phase.Closed?
  {
    hide EngineOk, Step;
    var joined := JoinRun(c, who, profile, a);
    var left := joined + [Signal(c, b, LeaveSession)];
    AfterJoin(c, who, profile, a);
    RunsPin(joined);
    RunsPin(left);
    RunFromGrows(EMPTY, joined, Signal(c, b, LeaveSession));
    RunFromGrows(EMPTY, left, SocketClosed(c));
    LeaveDoes(Run(joined), c, b, Run(left));
    CloseFreesActiveSeat(Run(left), a, c, Run(left + [SocketClosed(c)]));
    ClosesIts(Run(left), c);
  }

  lemma ClosesIts(st: Media, c: ConnId)
    requires EngineOk(st) && Speaks(st, c)
    ensures c in Step(st, SocketClosed(c)).conns && Step(st, SocketClosed(c)).conns[c].phase.Closed?
  {
    hide EngineOk;
    SocketClosedDoes(st, c, Step(st, SocketClosed(c)));
  }
}
