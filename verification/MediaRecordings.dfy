/** Recordings: they pin their session, tell one story each, and may leave it empty. */
module MediaRecordings {
  import opened Prelude
  import opened MediaModel
  import opened MediaSteps
  import opened MediaEngine

  // ------------------------------------------------------------------- pinning

  /** The two indices are mutual inverses, the flag of a session agrees with them, and
      a recorded session is there. */
  ghost predicate PinOk(st: Media) {
    && (forall rid :: rid in st.recordings ==>
          st.recordings[rid].sessionId in st.recordingOf && st.recordingOf[st.recordings[rid].sessionId] == rid)
    && (forall sid :: sid in st.recordingOf ==>
          st.recordingOf[sid] in st.recordings && st.recordings[st.recordingOf[sid]].sessionId == sid)
    && (forall sid :: sid in st.sessions ==> (st.sessions[sid].recordingActive <==> sid in st.recordingOf))
    && st.recordingOf.Keys <= st.sessions.Keys
  }

  /** Nothing was started, stopped or published, and no recorded session ended. */
  ghost predicate SamePins(st: Media, st': Media) {
    && st'.recordingOf == st.recordingOf
    && st'.published == st.published
    && st'.recordings.Keys == st.recordings.Keys
    && (forall rid :: rid in st.recordings ==> st'.recordings[rid].sessionId == st.recordings[rid].sessionId)
    && (forall sid :: sid in st'.sessions ==>
          st'.sessions[sid].recordingActive == (sid in st.sessions && st.sessions[sid].recordingActive))
    && st.recordingOf.Keys <= st'.sessions.Keys
  }

  lemma SamePinsKeepPinOk(st: Media, st': Media)
    requires PinOk(st) && SamePins(st, st')
    ensures PinOk(st')
  {
  }

  lemma RemoveKeepsPins(st: Media, sid: SessionId, pid: ParticipantId)
    requires PinOk(st)
    ensures SamePins(st, RemoveParticipant(st, sid, pid))
  {
    hide PinOk, SamePins, EndSession, DropParticipant;
    if InSession(st, sid, pid) {
      if st.sessions[sid].participants.Keys == {pid} && !st.sessions[sid].recordingActive {
        EndKeepsPins(st, sid);
      } else {
        DropKeepsPins(st, sid, pid);
      }
    } else {
      NothingKeepsPins(st);
    }
  }

  lemma NothingKeepsPins(st: Media)
    requires PinOk(st)
    ensures SamePins(st, st)
  {
  }

  lemma EndKeepsPins(st: Media, sid: SessionId)
    requires PinOk(st) && sid in st.sessions && !st.sessions[sid].recordingActive
    ensures SamePins(st, EndSession(st, sid))
  {
  }

  lemma DropKeepsPins(st: Media, sid: SessionId, pid: ParticipantId)
    requires PinOk(st) && InSession(st, sid, pid)
    ensures SamePins(st, DropParticipant(st, sid, pid))
  {
  }

  lemma StartKeepsPinOk(st: Media, sid: SessionId, rid: RecordingId, dirOk: bool, noTap: set<nat>)
    requires PinOk(st)
    ensures PinOk(StartRecording(st, sid, rid, dirOk, noTap))
  {
  }

  lemma StopKeepsPinOk(st: Media, rid: RecordingId, rejects: set<nat>, archiveOk: bool)
    requires PinOk(st)
    ensures PinOk(StopRecording(st, rid, rejects, archiveOk))
    ensures rid !in StopRecording(st, rid, rejects, archiveOk).recordings
  {
  }

  /** Once its recording has been stopped, a session can end without breaking an index. */
  lemma EndKeepsPinOk(st: Media, sid: SessionId, rejects: set<nat>, archiveOk: bool)
    requires PinOk(st)
    ensures PinOk(EndSession(StopRecordingBySession(st, sid, rejects, archiveOk), sid))
  {
    var st1 := StopRecordingBySession(st, sid, rejects, archiveOk);
    if sid in st.recordingOf {
      StopKeepsPinOk(st, st.recordingOf[sid], rejects, archiveOk);
    }
    assert PinOk(st1) && sid !in st1.recordingOf;
    SamePinsKeepPinOk(st1, EndSession(st1, sid));
  }

  lemma JoinKeepsPins(st: Media, c: ConnId, sid: SessionId, routerOk: bool)
    requires PinOk(st) && c in st.conns
    ensures SamePins(st, Join(st, c, sid, routerOk))
  {
  }

  lemma CreateTransportKeepsPins(st: Media, c: ConnId, sid: SessionId, send: bool, ok: bool)
    requires PinOk(st) && c in st.conns
    ensures SamePins(st, CreateTransport(st, c, sid, send, ok))
  {
  }

  lemma ProduceKeepsPins(st: Media, c: ConnId, sid: SessionId, ok: bool, tapOk: bool)
    requires PinOk(st) && c in st.conns
    ensures SamePins(st, Produce(st, c, sid, ok, tapOk))
  {
    hide Send, Sockets;
  }

  lemma ConsumeKeepsPins(st: Media, c: ConnId, sid: SessionId, producer: nat, ok: bool)
    requires PinOk(st) && c in st.conns
    ensures SamePins(st, Consume(st, c, sid, producer, ok))
  {
  }

  lemma SetMuteKeepsPins(st: Media, c: ConnId, sid: SessionId, audio: Option<bool>, video: Option<bool>)
    requires PinOk(st) && c in st.conns
    ensures SamePins(st, SetMute(st, c, sid, audio, video))
  {
  }

  lemma LeaveKeepsPins(st: Media, c: ConnId, sid: SessionId)
    requires PinOk(st) && c in st.conns
    ensures SamePins(st, Leave(st, c, sid))
  {
    RemoveKeepsPins(WithActive(st, c, None), sid, st.conns[c].who);
  }

  lemma SignalKeepsPins(st: Media, c: ConnId, sid: SessionId, request: Request)
    requires PinOk(st) && c in st.conns
    ensures SamePins(st, Answer(st, c, sid, request))
  {
    match request
    case JoinSession(routerOk) => JoinKeepsPins(st, c, sid, routerOk);
    case NewTransport(send, ok) => CreateTransportKeepsPins(st, c, sid, send, ok);
    case NewProducerOn(ok, tapOk) => ProduceKeepsPins(st, c, sid, ok, tapOk);
    case NewConsumer(producer, ok) => ConsumeKeepsPins(st, c, sid, producer, ok);
    case LeaveSession => LeaveKeepsPins(st, c, sid);
    case MuteSelf(audio, video) => SetMuteKeepsPins(st, c, sid, audio, video);
  }

  lemma KickKeepsPins(st: Media, sid: SessionId, pid: ParticipantId)
    requires PinOk(st)
    ensures SamePins(st, Kick(st, sid, pid))
  {
    if InSession(st, sid, pid) {
      var c := st.sessions[sid].participants[pid].socket;
      var st1 := Deliver(st, {c}, ModeratorKicked(pid));
      var st2 := if c in st1.conns && st1.conns[c].phase.Open?
                 then st1.(conns := st1.conns[c := st1.conns[c].(phase := Closing)]) else st1;
      RemoveKeepsPins(st2, sid, pid);
    }
  }

  lemma CloseSocketKeepsPins(st: Media, c: ConnId)
    requires PinOk(st) && c in st.conns
    ensures SamePins(st, CloseSocket(st, c))
  {
    if st.conns[c].active.Some? {
      RemoveKeepsPins(st.(conns := st.conns[c := st.conns[c].(phase := Closed)]), st.conns[c].active.value, st.conns[c].who);
    }
  }

  lemma ModerateMuteKeepsPins(st: Media, sid: SessionId, pid: ParticipantId, audio: Option<bool>, video: Option<bool>)
    requires PinOk(st)
    ensures SamePins(st, ModerateMute(st, sid, pid, audio, video))
  {
  }

  /** Only ending a session and the two recording commands touch recordings. */
  predicate TouchesRecordings(command: Command) {
    command.End? || command.RecordingStart? || command.RecordingStop?
  }

  lemma OtherStepsKeepPins(st: Media, command: Command)
    requires PinOk(st) && !TouchesRecordings(command)
    ensures SamePins(st, Step(st, command))
  {
    match command
    case Connect(c, who, profile) =>
    case Signal(c, sid, request) => if Speaks(st, c) { SignalKeepsPins(st, c, sid, request); }
    case SocketClosed(c) => if Speaks(st, c) { CloseSocketKeepsPins(st, c); }
    case KickOut(sid, pid) => KickKeepsPins(st, sid, pid);
    case Mute(sid, pid, audio, video) => ModerateMuteKeepsPins(st, sid, pid, audio, video);
  }

  lemma StepKeepsPinOk(st: Media, command: Command)
    requires PinOk(st)
    ensures PinOk(Step(st, command))
  {
    match command
    case End(sid, rejects, archiveOk) => EndKeepsPinOk(st, sid, rejects, archiveOk);
    case RecordingStart(sid, rid, dirOk, noTap) => StartKeepsPinOk(st, sid, rid, dirOk, noTap);
    case RecordingStop(rid, rejects, archiveOk) => StopKeepsPinOk(st, rid, rejects, archiveOk);
    case _ =>
      OtherStepsKeepPins(st, command);
      SamePinsKeepPinOk(st, Step(st, command));
  }

  /** Pinning safety over every run: the indices agree with each other and with the
      sessions' flags, and a session being recorded is there with its router open. */
  lemma {:induction false} RunsPin(commands: seq<Command>)
    ensures EngineOk(Run(commands)) && PinOk(Run(commands))
    ensures forall sid :: sid in Run(commands).recordingOf ==>
      sid in Run(commands).sessions && Run(commands).sessions[sid].router in Run(commands).open
  {
    if commands != [] {
      var before := commands[..|commands| - 1];
      RunsPin(before);
      StepKeepsEngine(Run(before), commands[|commands| - 1]);
      StepKeepsPinOk(Run(before), commands[|commands| - 1]);
    }
  }

  // ------------------------------------------------------------------- stories

  /** The events published for one recording, oldest first. */
  function Story(events: seq<Event>, rid: RecordingId): seq<Event> {
    if events == [] then []
    else
      var last := events[|events| - 1];
      Story(events[..|events| - 1], rid) + if last.recordingId == rid then [last] else []
  }

  lemma StoryGrows(events: seq<Event>, e: Event)
    ensures forall rid :: Story(events + [e], rid) == Story(events, rid) + if e.recordingId == rid then [e] else []
  {
    assert (events + [e])[..|events|] == events;
  }

  /** A story is empty, one failure, a start still going on, or a start and its one end;
      only a start still going on is in the index. */
  ghost predicate StoryOk(st: Media, rid: RecordingId, story: seq<Event>) {
    if rid in st.recordings then
      |story| == 1 && story[0].Started? && story[0].sessionId == st.recordings[rid].sessionId
    else
      || story == []
      || (|story| == 1 && story[0].Failed?)
      || (|story| == 2 && story[0].Started? && !story[1].Started? && story[0].sessionId == story[1].sessionId)
  }

  ghost predicate StoriesOk(st: Media) {
    forall rid :: StoryOk(st, rid, Story(st.published, rid))
  }

  /** Every start command uses a recording id nothing was published for yet. */
  ghost predicate FreshIds(commands: seq<Command>) {
    commands == [] ||
    (var before, last := commands[..|commands| - 1], commands[|commands| - 1];
     FreshIds(before) && (last.RecordingStart? ==> Story(Run(before).published, last.rid) == []))
  }

  /** One more event for `rid` keeps every story well told, if it does so for that one. */
  lemma OneMoreEvent(st: Media, st': Media, rid: RecordingId, e: Event)
    requires StoriesOk(st) && st'.published == st.published + [e] && e.recordingId == rid
    requires forall other :: other != rid && other in st'.recordings ==>
      other in st.recordings && st'.recordings[other].sessionId == st.recordings[other].sessionId
    requires forall other :: other != rid && other in st.recordings ==> other in st'.recordings
    requires StoryOk(st', rid, Story(st.published, rid) + [e])
    ensures StoriesOk(st')
  {
    StoryGrows(st.published, e);
    forall other
      ensures StoryOk(st', other, Story(st'.published, other))
    {
      assert StoryOk(st, other, Story(st.published, other));
      if other != rid {
        assert Story(st'.published, other) == Story(st.published, other);
      }
    }
  }

  lemma StartKeepsStories(st: Media, sid: SessionId, rid: RecordingId, dirOk: bool, noTap: set<nat>)
    requires StoriesOk(st) && Story(st.published, rid) == []
    ensures StoriesOk(StartRecording(st, sid, rid, dirOk, noTap))
  {
    var refused := sid !in st.sessions || rid in st.recordings || sid in st.recordingOf;
    assert StoryOk(st, rid, []);
    if refused || dirOk {
      var st' := StartRecording(st, sid, rid, dirOk, noTap);
      OneMoreEvent(st, st', rid, if refused then Failed(rid, sid) else Started(rid, sid, |st'.recordings[rid].tracks|));
    }
  }

  lemma StopKeepsStories(st: Media, rid: RecordingId, rejects: set<nat>, archiveOk: bool)
    requires StoriesOk(st)
    ensures StoriesOk(StopRecording(st, rid, rejects, archiveOk))
  {
    if rid in st.recordings {
      assert StoryOk(st, rid, Story(st.published, rid));
      OneMoreEvent(st, StopRecording(st, rid, rejects, archiveOk), rid, StopEvent(st.recordings[rid], rid, rejects, archiveOk));
    }
  }

  lemma SamePinsKeepStories(st: Media, st': Media)
    requires StoriesOk(st) && SamePins(st, st')
    ensures StoriesOk(st')
  {
    forall rid
      ensures StoryOk(st', rid, Story(st'.published, rid))
    {
      assert StoryOk(st, rid, Story(st.published, rid));
    }
  }

  lemma EndKeepsStories(st: Media, sid: SessionId, rejects: set<nat>, archiveOk: bool)
    requires StoriesOk(st) && PinOk(st)
    ensures StoriesOk(EndSession(StopRecordingBySession(st, sid, rejects, archiveOk), sid))
  {
    var st1 := StopRecordingBySession(st, sid, rejects, archiveOk);
    if sid in st.recordingOf {
      StopKeepsPinOk(st, st.recordingOf[sid], rejects, archiveOk);
      StopKeepsStories(st, st.recordingOf[sid], rejects, archiveOk);
    }
    SamePinsKeepStories(st1, EndSession(st1, sid));
  }

  /** With fresh ids, the events of every recording form one well-told story. */
  lemma {:induction false} RunsTellStories(commands: seq<Command>)
    requires FreshIds(commands)
    ensures StoriesOk(Run(commands))
  {
    if commands != [] {
      var before, last := commands[..|commands| - 1], commands[|commands| - 1];
      RunsTellStories(before);
      RunsPin(before);
      match last
      case End(sid, rejects, archiveOk) => EndKeepsStories(Run(before), sid, rejects, archiveOk);
      case RecordingStart(sid, rid, dirOk, noTap) => StartKeepsStories(Run(before), sid, rid, dirOk, noTap);
      case RecordingStop(rid, rejects, archiveOk) => StopKeepsStories(Run(before), rid, rejects, archiveOk);
      case _ =>
        OtherStepsKeepPins(Run(before), last);
        SamePinsKeepStories(Run(before), Run(commands));
    }
  }

  lemma TerminalIsLast(st: Media, rid: RecordingId, story: seq<Event>, i: nat)
    requires PinOk(st) && StoryOk(st, rid, story) && i < |story| && !story[i].Started?
    ensures i == |story| - 1 && rid !in st.recordings
    ensures forall sid :: sid in st.recordingOf ==> st.recordingOf[sid] != rid
  {
  }

  /** A terminal event is the last one, and by then the recording is in neither index. */
  lemma {:induction false} TerminalLeavesIndices(commands: seq<Command>, rid: RecordingId, i: nat, st: Media, story: seq<Event>)
    requires FreshIds(commands) && st == Run(commands) && story == Story(st.published, rid)
    requires i < |story| && !story[i].Started?
    ensures i == |story| - 1 && rid !in st.recordings
    ensures forall sid :: sid in st.recordingOf ==> st.recordingOf[sid] != rid
  {
    RunsTellStories(commands);
    RunsPin(commands);
    TerminalIsLast(st, rid, story, i);
  }

  // ------------------------------------------------------------ empty sessions

  /** The session is there with nobody in it. */
  predicate Deserted(st: Media, sid: SessionId) {
    sid in st.sessions && st.sessions[sid].participants.Keys == {}
  }

  /** The only participant of the session. */
  predicate Alone(st: Media, sid: SessionId, pid: ParticipantId) {
    sid in st.sessions && st.sessions[sid].participants.Keys == {pid}
  }

  /** The command takes the only participant out of the session. */
  predicate Empties(st: Media, command: Command, sid: SessionId) {
    match command
    case Signal(c, s, LeaveSession) => s == sid && Speaks(st, c) && Alone(st, sid, st.conns[c].who)
    case SocketClosed(c) => Speaks(st, c) && st.conns[c].active == Some(sid) && Alone(st, sid, st.conns[c].who)
    case KickOut(s, pid) => s == sid && Alone(st, sid, pid)
    case _ => false
  }

  /** The command ends the session or puts somebody into it. */
  predicate Revives(st: Media, command: Command, sid: SessionId) {
    match command
    case Signal(c, s, JoinSession(_)) => s == sid && Speaks(st, c)
    case End(s, _, _) => s == sid
    case _ => false
  }

  lemma AloneIsThere(st: Media, sid: SessionId, pid: ParticipantId)
    ensures Alone(st, sid, pid) ==> InSession(st, sid, pid)
  {
    assert Alone(st, sid, pid) ==> pid in st.sessions[sid].participants.Keys;
  }

  lemma RemoveDeserts(st: Media, sid: SessionId, pid: ParticipantId, s: SessionId)
    ensures Deserted(RemoveParticipant(st, sid, pid), s) <==>
      Deserted(st, s) || (s == sid && Alone(st, s, pid) && st.sessions[s].recordingActive)
  {
    if InSession(st, sid, pid) && s in st.sessions {
      assert pid in st.sessions[sid].participants.Keys;
      var st' := RemoveParticipant(st, sid, pid);
      if s in st'.sessions {
        assert st'.sessions[s].participants.Keys == st.sessions[s].participants.Keys - if s == sid then {pid} else {};
        if s == sid && Deserted(st', s) {
          forall q | q in st.sessions[s].participants.Keys
            ensures q == pid
          {
            assert q !in st'.sessions[s].participants.Keys;
          }
          assert st.sessions[s].participants.Keys == {pid};
        }
      }
    }
  }

  lemma JoinDeserts(st: Media, c: ConnId, sid: SessionId, routerOk: bool, s: SessionId)
    requires c in st.conns
    ensures Deserted(Join(st, c, sid, routerOk), s) <==> Deserted(st, s) && s != sid
  {
    var st' := Join(st, c, sid, routerOk);
    if sid in st.sessions || routerOk {
      assert st.conns[c].who in st'.sessions[sid].participants;
      assert forall a :: a in st'.sessions && a != sid ==> a in st.sessions && st'.sessions[a] == st.sessions[a];
    }
  }

  /** Sessions and their members are the same. */
  ghost predicate SameMembers(st: Media, st': Media) {
    && st'.sessions.Keys == st.sessions.Keys
    && forall sid :: sid in st'.sessions ==> st'.sessions[sid].participants.Keys == st.sessions[sid].participants.Keys
  }

  lemma CreateTransportKeepsMembers(st: Media, c: ConnId, sid: SessionId, send: bool, ok: bool)
    requires c in st.conns
    ensures SameMembers(st, CreateTransport(st, c, sid, send, ok))
  {
  }

  lemma ProduceKeepsMembers(st: Media, c: ConnId, sid: SessionId, ok: bool, tapOk: bool)
    requires c in st.conns
    ensures SameMembers(st, Produce(st, c, sid, ok, tapOk))
  {
  }

  lemma ConsumeKeepsMembers(st: Media, c: ConnId, sid: SessionId, producer: nat, ok: bool)
    requires c in st.conns
    ensures SameMembers(st, Consume(st, c, sid, producer, ok))
  {
  }

  lemma SetMuteKeepsMembers(st: Media, c: ConnId, sid: SessionId, audio: Option<bool>, video: Option<bool>)
    requires c in st.conns
    ensures SameMembers(st, SetMute(st, c, sid, audio, video))
  {
  }

  lemma SignalDeserts(st: Media, c: ConnId, sid: SessionId, request: Request, s: SessionId)
    requires PinOk(st) && Speaks(st, c)
    ensures Deserted(Answer(st, c, sid, request), s) <==>
      || (Deserted(st, s) && !Revives(st, Signal(c, sid, request), s))
      || (s in st.recordingOf && Empties(st, Signal(c, sid, request), s))
  {
    match request
    case JoinSession(routerOk) => JoinDeserts(st, c, sid, routerOk, s);
    case NewTransport(send, ok) => CreateTransportKeepsMembers(st, c, sid, send, ok);
    case NewProducerOn(ok, tapOk) => ProduceKeepsMembers(st, c, sid, ok, tapOk);
    case NewConsumer(producer, ok) => ConsumeKeepsMembers(st, c, sid, producer, ok);
    case LeaveSession => RemoveDeserts(WithActive(st, c, None), sid, st.conns[c].who, s);
    case MuteSelf(audio, video) => SetMuteKeepsMembers(st, c, sid, audio, video);
  }

  lemma CloseSocketDeserts(st: Media, c: ConnId, s: SessionId)
    requires PinOk(st) && Speaks(st, c)
    ensures Deserted(CloseSocket(st, c), s) <==> Deserted(st, s) || (s in st.recordingOf && Empties(st, SocketClosed(c), s))
  {
    if st.conns[c].active.Some? {
      var st1 := st.(conns := st.conns[c := st.conns[c].(phase := Closed)]);
      RemoveDeserts(st1, st.conns[c].active.value, st.conns[c].who, s);
      AloneIsThere(st, s, st.conns[c].who);
    }
  }

  lemma KickDeserts(st: Media, sid: SessionId, pid: ParticipantId, s: SessionId)
    requires PinOk(st)
    ensures Deserted(Kick(st, sid, pid), s) <==> Deserted(st, s) || (s in st.recordingOf && Empties(st, KickOut(sid, pid), s))
  {
    AloneIsThere(st, s, pid);
    if InSession(st, sid, pid) {
      var c := st.sessions[sid].participants[pid].socket;
      var st1 := Deliver(st, {c}, ModeratorKicked(pid));
      var st2 := if c in st1.conns && st1.conns[c].phase.Open?
                 then st1.(conns := st1.conns[c := st1.conns[c].(phase := Closing)]) else st1;
      RemoveDeserts(st2, sid, pid, s);
    }
  }

  lemma EndDeserts(st: Media, sid: SessionId, rejects: set<nat>, archiveOk: bool, s: SessionId)
    ensures Deserted(Step(st, End(sid, rejects, archiveOk)), s) <==> Deserted(st, s) && s != sid
  {
    var st1 := StopRecordingBySession(st, sid, rejects, archiveOk);
    assert Deserted(st1, s) <==> Deserted(st, s);
    var st' := EndSession(st1, sid);
    if s in st'.sessions {
      assert st'.sessions[s].participants.Keys == st1.sessions[s].participants.Keys;
    }
  }

  lemma MuteKeepsMembers(st: Media, sid: SessionId, pid: ParticipantId, audio: Option<bool>, video: Option<bool>)
    ensures SameMembers(st, ModerateMute(st, sid, pid, audio, video))
  {
  }

  lemma StartKeepsMembers(st: Media, sid: SessionId, rid: RecordingId, dirOk: bool, noTap: set<nat>)
    ensures SameMembers(st, StartRecording(st, sid, rid, dirOk, noTap))
  {
  }

  lemma StopKeepsMembers(st: Media, rid: RecordingId, rejects: set<nat>, archiveOk: bool)
    ensures SameMembers(st, StopRecording(st, rid, rejects, archiveOk))
  {
  }

  /** A step leaves a session deserted exactly if it was and nobody joins or ends it, or if
      it takes the last participant out of a recorded session. */
  lemma StepDeserts(st: Media, command: Command, sid: SessionId)
    requires PinOk(st)
    ensures Deserted(Step(st, command), sid) <==>
      || (Deserted(st, sid) && !Revives(st, command, sid))
      || (sid in st.recordingOf && Empties(st, command, sid))
  {
    hide PinOk, Answer, CloseSocket, EndSession, Kick, ModerateMute, StartRecording, StopRecording;
    match command
    case Connect(c, who, profile) =>
    case Signal(c, s, request) => if Speaks(st, c) { SignalDeserts(st, c, s, request, sid); }
    case SocketClosed(c) => if Speaks(st, c) { CloseSocketDeserts(st, c, sid); }
    case End(s, rejects, archiveOk) => EndDeserts(st, s, rejects, archiveOk, sid);
    case KickOut(s, pid) => KickDeserts(st, s, pid, sid);
    case Mute(s, pid, audio, video) => MuteKeepsMembers(st, s, pid, audio, video);
    case RecordingStart(s, rid, dirOk, noTap) => StartKeepsMembers(st, s, rid, dirOk, noTap);
    case RecordingStop(rid, rejects, archiveOk) => StopKeepsMembers(st, rid, rejects, archiveOk);
  }

  /** The i-th command took the last participant out of the session while it was recorded,
      and none since has joined or ended it. */
  predicate DesertedFrom(commands: seq<Command>, i: nat, sid: SessionId)
    requires i < |commands|
  {
    && sid in Run(commands[..i]).recordingOf && Empties(Run(commands[..i]), commands[i], sid)
    && forall j :: i < j < |commands| ==> !Revives(Run(commands[..j]), commands[j], sid)
  }

  /** Over every run, a session is there with nobody in it exactly if its last participant
      left while it was recorded and no join or end has come since; that its recording may
      have been stopped in the meantime makes no difference. */
  lemma {:induction false} RunsDesert(commands: seq<Command>, sid: SessionId)
    ensures Deserted(Run(commands), sid) <==> exists i :: 0 <= i < |commands| && DesertedFrom(commands, i, sid)
  {
    if commands != [] {
      var n := |commands| - 1;
      var before := commands[..n];
      RunsDesert(before, sid);
      RunsPin(before);
      StepDeserts(Run(before), commands[n], sid);
      DesertedSince(commands, sid);
    }
  }

  /** One more command. */
  lemma DesertedSince(commands: seq<Command>, sid: SessionId)
    requires commands != []
    ensures var n := |commands| - 1;
      (exists i :: 0 <= i <= n && DesertedFrom(commands, i, sid)) <==>
        || ((exists i :: 0 <= i < n && DesertedFrom(commands[..n], i, sid)) && !Revives(Run(commands[..n]), commands[n], sid))
        || (sid in Run(commands[..n]).recordingOf && Empties(Run(commands[..n]), commands[n], sid))
  {
    hide Run, Empties, Revives;
    var n := |commands| - 1;
    var before := commands[..n];
    forall i | 0 <= i < n
      ensures DesertedFrom(commands, i, sid) <==> DesertedFrom(before, i, sid) && !Revives(Run(before), commands[n], sid)
    {
      assert before[..i] == commands[..i] && before[i] == commands[i];
      assert forall j :: i < j < n ==> before[..j] == commands[..j] && before[j] == commands[j];
    }
    assert DesertedFrom(commands, n, sid) <==> sid in Run(before).recordingOf && Empties(Run(before), commands[n], sid);
  }

  /** The session was recorded at some time since it last came into the map: its router
      tells one life of a session from another. */
  ghost predicate RecordedInThisLife(commands: seq<Command>, sid: SessionId)
    requires sid in Run(commands).sessions
  {
    exists i :: 0 <= i <= |commands| && sid in Run(commands[..i]).recordingOf &&
      forall j :: i <= j <= |commands| ==>
        sid in Run(commands[..j]).sessions && Run(commands[..j]).sessions[sid].router == Run(commands).sessions[sid].router
  }

  /** Over every run, whatever is open belongs to a session that is there, and a session
      that was not recorded in its present life is there only while it has a participant. */
  lemma RunsTearDown(commands: seq<Command>)
    ensures NothingLeaks(Run(commands))
    ensures forall sid :: Deserted(Run(commands), sid) ==> RecordedInThisLife(commands, sid)
  {
    RunsPin(commands);
    forall sid | Deserted(Run(commands), sid)
      ensures RecordedInThisLife(commands, sid)
    {
      RunsDesert(commands, sid);
      var i :| 0 <= i < |commands| && DesertedFrom(commands, i, sid);
      RecordedSince(commands, i, sid);
    }
  }

  lemma RecordedSince(commands: seq<Command>, i: nat, sid: SessionId)
    requires i < |commands| && DesertedFrom(commands, i, sid) && sid in Run(commands).sessions
    ensures RecordedInThisLife(commands, sid)
  {
    SameLife(commands, i, sid, |commands|);
    assert commands[..|commands|] == commands;
  }

  // The router of a session that stays is the same.

  ghost predicate KeepsRouters(st: Media, st': Media) {
    forall sid :: sid in st.sessions && sid in st'.sessions ==> st'.sessions[sid].router == st.sessions[sid].router
  }

  lemma RemoveKeepsRouters(st: Media, sid: SessionId, pid: ParticipantId)
    ensures KeepsRouters(st, RemoveParticipant(st, sid, pid))
  {
  }

  lemma SignalKeepsRouters(st: Media, c: ConnId, sid: SessionId, request: Request)
    requires c in st.conns
    ensures KeepsRouters(st, Answer(st, c, sid, request))
  {
    match request
    case JoinSession(routerOk) => JoinKeepsRouters(st, c, sid, routerOk);
    case NewTransport(send, ok) =>
    case NewProducerOn(ok, tapOk) => ProduceKeepsRouters(st, c, sid, ok, tapOk);
    case NewConsumer(producer, ok) => ConsumeKeepsRouters(st, c, sid, producer, ok);
    case LeaveSession => RemoveKeepsRouters(WithActive(st, c, None), sid, st.conns[c].who);
    case MuteSelf(audio, video) =>
  }

  lemma JoinKeepsRouters(st: Media, c: ConnId, sid: SessionId, routerOk: bool)
    requires c in st.conns
    ensures KeepsRouters(st, Join(st, c, sid, routerOk))
  {
  }

  lemma ProduceKeepsRouters(st: Media, c: ConnId, sid: SessionId, ok: bool, tapOk: bool)
    requires c in st.conns
    ensures KeepsRouters(st, Produce(st, c, sid, ok, tapOk))
  {
  }

  lemma ConsumeKeepsRouters(st: Media, c: ConnId, sid: SessionId, producer: nat, ok: bool)
    requires c in st.conns
    ensures KeepsRouters(st, Consume(st, c, sid, producer, ok))
  {
  }

  lemma CloseSocketKeepsRouters(st: Media, c: ConnId)
    requires c in st.conns
    ensures KeepsRouters(st, CloseSocket(st, c))
  {
    if st.conns[c].active.Some? {
      RemoveKeepsRouters(st.(conns := st.conns[c := st.conns[c].(phase := Closed)]), st.conns[c].active.value, st.conns[c].who);
    }
  }

  lemma KickKeepsRouters(st: Media, sid: SessionId, pid: ParticipantId)
    ensures KeepsRouters(st, Kick(st, sid, pid))
  {
    if InSession(st, sid, pid) {
      var c := st.sessions[sid].participants[pid].socket;
      var st1 := Deliver(st, {c}, ModeratorKicked(pid));
      var st2 := if c in st1.conns && st1.conns[c].phase.Open?
                 then st1.(conns := st1.conns[c := st1.conns[c].(phase := Closing)]) else st1;
      RemoveKeepsRouters(st2, sid, pid);
    }
  }

  lemma EndKeepsRouters(st: Media, sid: SessionId, rejects: set<nat>, archiveOk: bool)
    ensures KeepsRouters(st, EndSession(StopRecordingBySession(st, sid, rejects, archiveOk), sid))
  {
  }

  lemma MuteKeepsRouters(st: Media, sid: SessionId, pid: ParticipantId, audio: Option<bool>, video: Option<bool>)
    ensures KeepsRouters(st, ModerateMute(st, sid, pid, audio, video))
  {
  }

  lemma RecordingKeepsRouters(st: Media, sid: SessionId, rid: RecordingId, dirOk: bool, noTap: set<nat>, rejects: set<nat>, archiveOk: bool)
    ensures KeepsRouters(st, StartRecording(st, sid, rid, dirOk, noTap))
    ensures KeepsRouters(st, StopRecording(st, rid, rejects, archiveOk))
  {
  }

  lemma StepKeepsRouters(st: Media, command: Command)
    ensures KeepsRouters(st, Step(st, command))
  {
    hide Answer, CloseSocket, EndSession, Kick, ModerateMute, StartRecording, StopRecording;
    match command
    case Connect(c, who, profile) =>
    case Signal(c, sid, request) => if Speaks(st, c) { SignalKeepsRouters(st, c, sid, request); }
    case SocketClosed(c) => if Speaks(st, c) { CloseSocketKeepsRouters(st, c); }
    case End(sid, rejects, archiveOk) => EndKeepsRouters(st, sid, rejects, archiveOk);
    case KickOut(sid, pid) => KickKeepsRouters(st, sid, pid);
    case Mute(sid, pid, audio, video) => MuteKeepsRouters(st, sid, pid, audio, video);
    case RecordingStart(sid, rid, dirOk, noTap) => RecordingKeepsRouters(st, sid, rid, dirOk, noTap, {}, true);
    case RecordingStop(rid, rejects, archiveOk) => RecordingKeepsRouters(st, 0, rid, true, {}, rejects, archiveOk);
  }

  /** A session deserted since the i-th command has been there ever since, on one router. */
  lemma {:induction false} SameLife(commands: seq<Command>, i: nat, sid: SessionId, n: nat)
    requires i < n <= |commands| && DesertedFrom(commands, i, sid)
    ensures forall j :: i <= j <= n ==> sid in Run(commands[..j]).sessions
    ensures forall j :: i <= j <= n ==> Run(commands[..j]).sessions[sid].router == Run(commands[..n]).sessions[sid].router
    decreases n
  {
    hide Run, DesertedFrom;
    DesertedThen(commands, i, sid, n);
    if i < n - 1 {
      SameLife(commands, i, sid, n - 1);
    } else {
      RecordedAt(commands, i, sid);
    }
  }

  lemma RecordedAt(commands: seq<Command>, i: nat, sid: SessionId)
    requires i < |commands| && DesertedFrom(commands, i, sid)
    ensures sid in Run(commands[..i]).sessions
  {
    RunsPin(commands[..i]);
  }

  lemma DesertedThen(commands: seq<Command>, i: nat, sid: SessionId, n: nat)
    requires i < n <= |commands| && DesertedFrom(commands, i, sid)
    ensures Deserted(Run(commands[..n]), sid)
    ensures sid in Run(commands[..n - 1]).sessions ==>
      Run(commands[..n]).sessions[sid].router == Run(commands[..n - 1]).sessions[sid].router
  {
    hide Step;
    DesertedPrefix(commands, i, sid, n);
    RunsDesert(commands[..n], sid);
    assert commands[..n][..n - 1] == commands[..n - 1] && commands[..n][n - 1] == commands[n - 1];
    StepKeepsRouters(Run(commands[..n - 1]), commands[n - 1]);
  }

  lemma DesertedPrefix(commands: seq<Command>, i: nat, sid: SessionId, n: nat)
    requires i < n <= |commands| && DesertedFrom(commands, i, sid)
    ensures DesertedFrom(commands[..n], i, sid)
  {
    var some := commands[..n];
    assert some[..i] == commands[..i] && some[i] == commands[i];
    assert forall j :: i < j < n ==> some[..j] == commands[..j] && some[j] == commands[j];
  }
}
