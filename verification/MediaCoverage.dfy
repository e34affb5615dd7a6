/** An active recording has a running track for each producer of its session, no more. */
module MediaCoverage {
  import opened Prelude
  import opened MediaModel
  import opened MediaSteps
  import opened MediaEngine
  import opened MediaRecordings

  function RunningTracks(r: Recording): set<nat> {
    set x | x in r.tracks && !r.tracks[x]
  }

  ghost predicate CoversSession(r: Recording, s: Session) {
    RunningTracks(r) == Producers(s) - r.missed
  }

  /** The running tracks of these recordings are exactly the live producers of their session's
      participants, but for those whose track could not be started. */
  ghost predicate Covered(st: Media, only: set<RecordingId>) {
    forall rid :: rid in only && rid in st.recordings && st.recordings[rid].sessionId in st.sessions ==>
      CoversSession(st.recordings[rid], st.sessions[st.recordings[rid].sessionId])
  }

  /** No producer that is yet to come was ever on a recording. */
  ghost predicate TracksAreOld(st: Media) {
    forall rid, x :: rid in st.recordings && (x in st.recordings[rid].tracks || x in st.recordings[rid].missed) ==> x < st.nextId
  }

  ghost predicate CoverOk(st: Media, only: set<RecordingId>) {
    Covered(st, only) && TracksAreOld(st)
  }

  // ------------------------------------------------------------------- closing

  lemma PruneSessionProducers(s: Session, open: map<nat, Resource>)
    ensures Producers(PruneSession(s, open)) == Producers(s) * open.Keys
  {
    forall x | x in Producers(s) * open.Keys
      ensures x in Producers(PruneSession(s, open))
    {
      var q :| q in s.participants && x in s.participants[q].producers;
      assert x in PruneSession(s, open).participants[q].producers;
    }
  }

  lemma PruneRecordingTracks(r: Recording, open: map<nat, Resource>)
    ensures RunningTracks(PruneRecording(r, open)) == RunningTracks(r) * open.Keys
  {
  }

  lemma CloseAllCovers(st: Media, ids: set<nat>, only: set<RecordingId>)
    requires CoverOk(st, only)
    ensures CoverOk(CloseAll(st, ids), only)
  {
    var st' := CloseAll(st, ids);
    forall rid | rid in only && rid in st'.recordings && st'.recordings[rid].sessionId in st'.sessions
      ensures CoversSession(st'.recordings[rid], st'.sessions[st'.recordings[rid].sessionId])
    {
      var r := st.recordings[rid];
      assert CoversSession(r, st.sessions[r.sessionId]);
      PruneSessionProducers(st.sessions[r.sessionId], st'.open);
      PruneRecordingTracks(r, st'.open);
    }
  }

  /** A participant whose producers are all dead can go. */
  lemma RemovedWithoutProducers(s: Session, pid: ParticipantId)
    requires pid in s.participants ==> s.participants[pid].producers == {}
    ensures Producers(s.(participants := s.participants - {pid})) == Producers(s)
  {
    var s' := s.(participants := s.participants - {pid});
    forall x | x in Producers(s)
      ensures x in Producers(s')
    {
      var q :| q in s.participants && x in s.participants[q].producers;
      assert s'.participants[q] == s.participants[q];
    }
  }

  /** Recordings are as they were, and no recorded session gains or loses a producer. */
  ghost predicate SameCover(st: Media, st': Media) {
    && st'.recordings == st.recordings && st'.nextId >= st.nextId
    && (forall rid :: rid in st.recordings && st.recordings[rid].sessionId in st'.sessions ==>
          st.recordings[rid].sessionId in st.sessions
          && Producers(st'.sessions[st.recordings[rid].sessionId]) == Producers(st.sessions[st.recordings[rid].sessionId]))
  }

  lemma SameCoverKeeps(st: Media, st': Media, only: set<RecordingId>)
    requires CoverOk(st, only) && SameCover(st, st')
    ensures CoverOk(st', only)
  {
    forall rid | rid in only && rid in st'.recordings && st'.recordings[rid].sessionId in st'.sessions
      ensures CoversSession(st'.recordings[rid], st'.sessions[st'.recordings[rid].sessionId])
    {
      assert CoversSession(st.recordings[rid], st.sessions[st.recordings[rid].sessionId]);
    }
  }

  lemma DropCovers(st: Media, sid: SessionId, pid: ParticipantId, only: set<RecordingId>)
    requires CoverOk(st, only) && InSession(st, sid, pid)
    ensures CoverOk(DropParticipant(st, sid, pid), only)
  {
    var ids := Owned(st.sessions[sid].participants[pid]);
    var st1 := CloseAll(st, ids);
    CloseAllCovers(st, ids, only);
    assert st1.sessions[sid].participants[pid].producers == {};
    RemovedWithoutProducers(st1.sessions[sid], pid);
    SameCoverKeeps(st1, DropParticipant(st, sid, pid), only);
  }

  lemma EndSessionCovers(st: Media, sid: SessionId, only: set<RecordingId>)
    requires CoverOk(st, only)
    ensures CoverOk(EndSession(st, sid), only)
  {
    if sid in st.sessions {
      var ids := {st.sessions[sid].router};
      CloseAllCovers(st, ids, only);
      SameCoverKeeps(CloseAll(st, ids), EndSession(st, sid), only);
    }
  }

  lemma RemoveCovers(st: Media, sid: SessionId, pid: ParticipantId, only: set<RecordingId>)
    requires CoverOk(st, only)
    ensures CoverOk(RemoveParticipant(st, sid, pid), only)
  {
    if InSession(st, sid, pid) {
      DropCovers(st, sid, pid, only);
      EndSessionCovers(st, sid, only);
    }
  }

  // ---------------------------------------------------------- signaling messages

  /** A participant changed in anything but producers. */
  lemma WithSameProducers(st: Media, sid: SessionId, pid: ParticipantId, p: Participant)
    requires InSession(st, sid, pid) && p.producers == st.sessions[sid].participants[pid].producers
    ensures Producers(WithParticipant(st, sid, pid, p).sessions[sid]) == Producers(st.sessions[sid])
  {
    var s, s' := st.sessions[sid], WithParticipant(st, sid, pid, p).sessions[sid];
    forall x | x in Producers(s)
      ensures x in Producers(s')
    {
      var q :| q in s.participants && x in s.participants[q].producers;
      assert x in s'.participants[q].producers;
    }
    forall x | x in Producers(s')
      ensures x in Producers(s)
    {
      var q :| q in s'.participants && x in s'.participants[q].producers;
      assert x in s.participants[q].producers;
    }
  }

  /** A newcomer in place of an entry takes that entry's producers out of the session. */
  lemma ReplacedProducers(s: Session, s': Session, pid: ParticipantId, p: Participant)
    requires s' == s.(participants := s.participants[pid := p]) && p.producers == {}
    requires forall q :: q in s.participants && q != pid && pid in s.participants ==>
      s.participants[q].producers !! s.participants[pid].producers
    ensures Producers(s') == if pid in s.participants then Producers(s) - s.participants[pid].producers else Producers(s)
  {
    forall x | x in Producers(s) && (pid in s.participants ==> x !in s.participants[pid].producers)
      ensures x in Producers(s')
    {
      var q :| q in s.participants && x in s.participants[q].producers;
      assert s'.participants[q] == s.participants[q];
    }
    forall x | x in Producers(s')
      ensures x in Producers(s) && (pid in s.participants ==> x !in s.participants[pid].producers)
    {
      var q :| q in s'.participants && x in s'.participants[q].producers;
      assert s'.participants[q] == s.participants[q];
    }
  }

  lemma DistinctProducers(st: Media, sid: SessionId, a: ParticipantId, b: ParticipantId)
    requires ParticipantsOk(st) && InSession(st, sid, a) && InSession(st, sid, b) && a != b
    ensures st.sessions[sid].participants[a].producers !! st.sessions[sid].participants[b].producers
  {
    var s := st.sessions[sid];
    assert ParticipantOk(st, s.router, a, s.participants[a]) && ParticipantOk(st, s.router, b, s.participants[b]);
  }

  /** Joining again while present throws the old entry away, and with it producers that
      a recording still has running tracks for. */
  predicate Forgets(st: Media, c: ConnId, sid: SessionId)
    requires c in st.conns
  {
    && InSession(st, sid, st.conns[c].who)
    && sid in st.recordingOf && st.recordingOf[sid] in st.recordings
    && !(st.sessions[sid].participants[st.conns[c].who].producers <= st.recordings[st.recordingOf[sid]].missed)
  }

  lemma JoinProducers(st: Media, c: ConnId, sid: SessionId, routerOk: bool)
    requires EngineOk(st) && c in st.conns && sid in st.sessions
    ensures var s, me := st.sessions[sid], st.conns[c].who;
      sid in Join(st, c, sid, routerOk).sessions
      && Producers(Join(st, c, sid, routerOk).sessions[sid])
         == if me in s.participants then Producers(s) - s.participants[me].producers else Producers(s)
  {
    var s, me := st.sessions[sid], st.conns[c].who;
    forall q | q in s.participants && q != me && me in s.participants
      ensures s.participants[q].producers !! s.participants[me].producers
    {
      DistinctProducers(st, sid, q, me);
    }
    ReplacedProducers(s, Join(st, c, sid, routerOk).sessions[sid], me, Newcomer(st.conns[c], c));
  }

  /** A join keeps a recording's cover exactly when it forgets no recorded producer. */
  lemma JoinCovers(st: Media, c: ConnId, sid: SessionId, routerOk: bool, only: set<RecordingId>)
    requires EngineOk(st) && PinOk(st) && CoverOk(st, only) && c in st.conns
    ensures CoverOk(Join(st, c, sid, routerOk), only) <==> !(Forgets(st, c, sid) && st.recordingOf[sid] in only)
  {
    var st' := Join(st, c, sid, routerOk);
    var me := st.conns[c].who;
    if sid !in st.sessions {
      SameCoverKeeps(st, st', only);
    } else {
      JoinProducers(st, c, sid, routerOk);
      if sid !in st.recordingOf || me !in st.sessions[sid].participants {
        SameCoverKeeps(st, st', only);
      } else {
        JoinAgainCovers(st, st', sid, me, only);
      }
    }
  }

  lemma JoinAgainCovers(st: Media, st': Media, sid: SessionId, me: ParticipantId, only: set<RecordingId>)
    requires PinOk(st) && CoverOk(st, only) && InSession(st, sid, me) && sid in st.recordingOf
    requires st'.recordings == st.recordings && st'.nextId == st.nextId && st'.sessions.Keys == st.sessions.Keys
    requires forall s :: s in st.sessions && s != sid ==> st'.sessions[s] == st.sessions[s]
    requires Producers(st'.sessions[sid]) == Producers(st.sessions[sid]) - st.sessions[sid].participants[me].producers
    ensures CoverOk(st', only) <==>
      (st.recordingOf[sid] in only ==> st.sessions[sid].participants[me].producers <= st.recordings[st.recordingOf[sid]].missed)
  {
    var rid := st.recordingOf[sid];
    var r, gone := st.recordings[rid], st.sessions[sid].participants[me].producers;
    assert rid in st.recordings && r.sessionId == sid;
    assert rid in only ==> CoversSession(r, st.sessions[sid]);
    assert gone <= Producers(st.sessions[sid]);
    if rid !in only || gone <= r.missed {
      forall rid | rid in only && rid in st'.recordings && st'.recordings[rid].sessionId in st'.sessions
        ensures CoversSession(st'.recordings[rid], st'.sessions[st'.recordings[rid].sessionId])
      {
        assert CoversSession(st.recordings[rid], st.sessions[st.recordings[rid].sessionId]);
      }
    } else {
      var x :| x in gone && x !in r.missed;
      assert x in RunningTracks(r) && x !in Producers(st'.sessions[sid]);
      assert !CoversSession(st'.recordings[rid], st'.sessions[st'.recordings[rid].sessionId]);
    }
  }

  lemma CreateTransportCovers(st: Media, c: ConnId, sid: SessionId, send: bool, ok: bool, only: set<RecordingId>)
    requires CoverOk(st, only) && c in st.conns
    ensures CoverOk(CreateTransport(st, c, sid, send, ok), only)
  {
    var me, st' := st.conns[c].who, CreateTransport(st, c, sid, send, ok);
    if InSession(st, sid, me) && ok {
      var p := st.sessions[sid].participants[me];
      WithSameProducers(Make(st, sid, Transport, me, {st.sessions[sid].router}), sid, me,
                        if send then p.(send := Some(st.nextId)) else p.(recv := Some(st.nextId)));
    }
    SameCoverKeeps(st, st', only);
  }

  lemma ConsumeCovers(st: Media, c: ConnId, sid: SessionId, producer: nat, ok: bool, only: set<RecordingId>)
    requires CoverOk(st, only) && c in st.conns
    ensures CoverOk(Consume(st, c, sid, producer, ok), only)
  {
    var me, st' := st.conns[c].who, Consume(st, c, sid, producer, ok);
    if CanConsume(st, sid, me, producer) && ok {
      var p := st.sessions[sid].participants[me];
      var deps := {p.recv.value, producer} + st.open[p.recv.value].deps + st.open[producer].deps;
      WithSameProducers(Make(st, sid, Consumer, me, deps), sid, me, p.(consumers := p.consumers + {st.nextId}));
    }
    SameCoverKeeps(st, st', only);
  }

  lemma MuteCovers(st: Media, sid: SessionId, pid: ParticipantId, audio: Option<bool>, video: Option<bool>, st': Media, only: set<RecordingId>)
    requires CoverOk(st, only) && InSession(st, sid, pid)
    requires st'.sessions == WithParticipant(st, sid, pid, Muted(st.sessions[sid].participants[pid], audio, video)).sessions
    requires st'.recordings == st.recordings && st'.nextId == st.nextId
    ensures CoverOk(st', only)
  {
    WithSameProducers(st, sid, pid, Muted(st.sessions[sid].participants[pid], audio, video));
    SameCoverKeeps(st, st', only);
  }

  lemma ModerateMuteCovers(st: Media, sid: SessionId, pid: ParticipantId, audio: Option<bool>, video: Option<bool>, only: set<RecordingId>)
    requires CoverOk(st, only)
    ensures CoverOk(ModerateMute(st, sid, pid, audio, video), only)
  {
    hide CoverOk;
    if InSession(st, sid, pid) {
      MuteCovers(st, sid, pid, audio, video, ModerateMute(st, sid, pid, audio, video), only);
    }
  }

  lemma GainedProducer(s: Session, s': Session, me: ParticipantId, id: nat)
    requires me in s.participants
    requires s' == s.(participants := s.participants[me := s.participants[me].(producers := s.participants[me].producers + {id})])
    ensures Producers(s') == Producers(s) + {id}
  {
    forall x | x in Producers(s) + {id}
      ensures x in Producers(s')
    {
      if x == id {
        assert x in s'.participants[me].producers;
      } else {
        var q :| q in s.participants && x in s.participants[q].producers;
        assert x in s'.participants[q].producers;
      }
    }
    forall x | x in Producers(s')
      ensures x in Producers(s) + {id}
    {
      var q :| q in s'.participants && x in s'.participants[q].producers;
      assert q in s.participants && (x == id || x in s.participants[q].producers);
    }
  }

  /** A new producer of a recorded session gets its track, or is noted as missed. */
  lemma ProduceCovers(st: Media, c: ConnId, sid: SessionId, ok: bool, tapOk: bool, only: set<RecordingId>)
    requires PinOk(st) && CoverOk(st, only) && c in st.conns
    ensures CoverOk(Produce(st, c, sid, ok, tapOk), only)
  {
    var me, st', id := st.conns[c].who, Produce(st, c, sid, ok, tapOk), st.nextId;
    if !CanProduce(st, sid, me) || !ok {
      SameCoverKeeps(st, st', only);
    } else {
      GainedProducer(st.sessions[sid], st'.sessions[sid], me, id);
      forall rid | rid in only && rid in st'.recordings && st'.recordings[rid].sessionId in st'.sessions
        ensures CoversSession(st'.recordings[rid], st'.sessions[st'.recordings[rid].sessionId])
      {
        var r := st.recordings[rid];
        assert CoversSession(r, st.sessions[r.sessionId]);
        if r.sessionId == sid {
          assert id !in r.tracks && id !in r.missed;
          assert RunningTracks(st'.recordings[rid]) == RunningTracks(r) + if tapOk then {id} else {};
        }
      }
    }
  }

  lemma ProducersAreOld(st: Media, sid: SessionId)
    requires EngineOk(st) && sid in st.sessions
    ensures forall x :: x in Producers(st.sessions[sid]) ==> x < st.nextId
  {
    forall x | x in Producers(st.sessions[sid])
      ensures x < st.nextId
    {
      var q :| q in st.sessions[sid].participants && x in st.sessions[sid].participants[q].producers;
      assert ParticipantOk(st, st.sessions[sid].router, q, st.sessions[sid].participants[q]);
    }
  }

  lemma StartCovers(st: Media, sid: SessionId, rid: RecordingId, dirOk: bool, noTap: set<nat>, only: set<RecordingId>)
    requires EngineOk(st) && PinOk(st) && CoverOk(st, only)
    ensures CoverOk(StartRecording(st, sid, rid, dirOk, noTap), only)
  {
    hide EngineOk;
    var st' := StartRecording(st, sid, rid, dirOk, noTap);
    if sid !in st.sessions || rid in st.recordings || sid in st.recordingOf {
      SameCoverKeeps(st, st', only);
    } else {
      var live := Producers(st.sessions[sid]);
      assert Producers(st'.sessions[sid]) == live;
      ProducersAreOld(st, sid);
      forall other | other in only && other in st'.recordings && st'.recordings[other].sessionId in st'.sessions
        ensures CoversSession(st'.recordings[other], st'.sessions[st'.recordings[other].sessionId])
      {
        if other == rid {
          assert RunningTracks(st'.recordings[rid]) == live - noTap;
        } else {
          assert CoversSession(st.recordings[other], st.sessions[st.recordings[other].sessionId]);
        }
      }
    }
  }

  lemma StopCovers(st: Media, rid: RecordingId, rejects: set<nat>, archiveOk: bool, only: set<RecordingId>)
    requires CoverOk(st, only)
    ensures CoverOk(StopRecording(st, rid, rejects, archiveOk), only)
  {
    if rid in st.recordings {
      var st' := StopRecording(st, rid, rejects, archiveOk);
      forall other | other in only && other in st'.recordings && st'.recordings[other].sessionId in st'.sessions
        ensures CoversSession(st'.recordings[other], st'.sessions[st'.recordings[other].sessionId])
      {
        var sid := st.recordings[other].sessionId;
        assert CoversSession(st.recordings[other], st.sessions[sid]);
        assert Producers(st'.sessions[sid]) == Producers(st.sessions[sid]);
      }
    }
  }

  // ------------------------------------------------------------------------ runs

  /** The one kind of command that leaves a track without its participant. */
  predicate ForgetfulCommand(st: Media, command: Command) {
    && command.Signal? && command.request.JoinSession?
    && Speaks(st, command.conn) && Forgets(st, command.conn, command.sid)
  }

  lemma SignalCovers(st: Media, c: ConnId, sid: SessionId, request: Request, only: set<RecordingId>)
    requires EngineOk(st) && PinOk(st) && CoverOk(st, only) && c in st.conns && !request.JoinSession?
    ensures CoverOk(Answer(st, c, sid, request), only)
  {
    hide EngineOk, CoverOk;
    var me := st.conns[c].who;
    match request
    case NewTransport(send, ok) => CreateTransportCovers(st, c, sid, send, ok, only);
    case NewProducerOn(ok, tapOk) => ProduceCovers(st, c, sid, ok, tapOk, only);
    case NewConsumer(producer, ok) => ConsumeCovers(st, c, sid, producer, ok, only);
    case LeaveSession =>
      SameCoverKeeps(st, WithActive(st, c, None), only);
      RemoveCovers(WithActive(st, c, None), sid, me, only);
      SameCoverKeeps(RemoveParticipant(WithActive(st, c, None), sid, me), Leave(st, c, sid), only);
    case MuteSelf(audio, video) =>
      if InSession(st, sid, me) {
        MuteCovers(st, sid, me, audio, video, SetMute(st, c, sid, audio, video), only);
      } else {
        SameCoverKeeps(st, SetMute(st, c, sid, audio, video), only);
      }
  }

  lemma CloseSocketCovers(st: Media, c: ConnId, only: set<RecordingId>)
    requires CoverOk(st, only) && c in st.conns
    ensures CoverOk(CloseSocket(st, c), only)
  {
    var st1 := st.(conns := st.conns[c := st.conns[c].(phase := Closed)]);
    SameCoverKeeps(st, st1, only);
    if st.conns[c].active.Some? {
      var st2 := RemoveParticipant(st1, st.conns[c].active.value, st.conns[c].who);
      RemoveCovers(st1, st.conns[c].active.value, st.conns[c].who, only);
      if InSession(st1, st.conns[c].active.value, st.conns[c].who) {
        SameCoverKeeps(st2, CloseSocket(st, c), only);
      }
    }
  }

  lemma KickCovers(st: Media, sid: SessionId, pid: ParticipantId, only: set<RecordingId>)
    requires CoverOk(st, only)
    ensures CoverOk(Kick(st, sid, pid), only)
  {
    hide CoverOk, RemoveParticipant, Send;
    if InSession(st, sid, pid) {
      var c := st.sessions[sid].participants[pid].socket;
      var st1 := Deliver(st, {c}, ModeratorKicked(pid));
      var st2 := if c in st1.conns && st1.conns[c].phase.Open?
                 then st1.(conns := st1.conns[c := st1.conns[c].(phase := Closing)]) else st1;
      SameCoverKeeps(st, st2, only);
      RemoveCovers(st2, sid, pid, only);
      SameCoverKeeps(RemoveParticipant(st2, sid, pid), Kick(st, sid, pid), only);
    }
  }

  /** A step keeps the cover exactly when it is not a forgetful join. */
  lemma StepCovers(st: Media, command: Command, only: set<RecordingId>)
    requires EngineOk(st) && PinOk(st) && CoverOk(st, only)
    ensures CoverOk(Step(st, command), only) <==> !(ForgetfulCommand(st, command) && st.recordingOf[command.sid] in only)
  {
    hide EngineOk, PinOk, CoverOk, Forgets, Join, CloseSocket, EndSession, Kick, ModerateMute, StartRecording, StopRecording;
    match command
    case Connect(c, who, profile) => SameCoverKeeps(st, Step(st, command), only);
    case Signal(c, sid, request) =>
      if Speaks(st, c) {
        if request.JoinSession? {
          JoinCovers(st, c, sid, request.routerOk, only);
        } else {
          hide Answer;
          SignalCovers(st, c, sid, request, only);
        }
      }
    case SocketClosed(c) => if Speaks(st, c) { CloseSocketCovers(st, c, only); }
    case End(sid, rejects, archiveOk) =>
      if sid in st.recordingOf {
        StopCovers(st, st.recordingOf[sid], rejects, archiveOk, only);
      }
      EndSessionCovers(StopRecordingBySession(st, sid, rejects, archiveOk), sid, only);
    case KickOut(sid, pid) => KickCovers(st, sid, pid, only);
    case Mute(sid, pid, audio, video) => ModerateMuteCovers(st, sid, pid, audio, video, only);
    case RecordingStart(sid, rid, dirOk, noTap) => StartCovers(st, sid, rid, dirOk, noTap, only);
    case RecordingStop(rid, rejects, archiveOk) => StopCovers(st, rid, rejects, archiveOk, only);
  }

  ghost predicate NeverForgets(commands: seq<Command>) {
    commands == [] ||
    (var before := commands[..|commands| - 1];
     NeverForgets(before) && !ForgetfulCommand(Run(before), commands[|commands| - 1]))
  }

  /** Coverage over every run without a forgetful join. */
  lemma {:induction false} RunsCover(commands: seq<Command>, only: set<RecordingId>)
    requires NeverForgets(commands)
    ensures CoverOk(Run(commands), only)
  {
    if commands != [] {
      var before := commands[..|commands| - 1];
      RunsCover(before, only);
      RunsPin(before);
      StepCovers(Run(before), commands[|commands| - 1], only);
    }
  }

  // -------------------------------------------------------------- running tracks

  /** No track outlives its producer. */
  ghost predicate TracksLive(st: Media) {
    forall rid, x :: rid in st.recordings && x in RunningTracks(st.recordings[rid]) ==> x in st.open
  }

  lemma RemoveKeepsTracksLive(st: Media, sid: SessionId, pid: ParticipantId)
    requires TracksLive(st)
    ensures TracksLive(RemoveParticipant(st, sid, pid))
  {
  }

  /** Recordings stay as they are and nothing closes. */
  lemma NothingClosed(st: Media, st': Media)
    requires TracksLive(st) && st'.recordings == st.recordings && st.open.Keys <= st'.open.Keys
    ensures TracksLive(st')
  {
  }

  lemma ProduceKeepsTracksLive(st: Media, c: ConnId, sid: SessionId, ok: bool, tapOk: bool)
    requires TracksLive(st) && c in st.conns
    ensures TracksLive(Produce(st, c, sid, ok, tapOk))
  {
    var st' := Produce(st, c, sid, ok, tapOk);
    forall rid, x | rid in st'.recordings && x in RunningTracks(st'.recordings[rid])
      ensures x in st'.open
    {
      assert x in RunningTracks(st.recordings[rid]) || x == st.nextId;
    }
  }

  lemma SignalKeepsTracksLive(st: Media, c: ConnId, sid: SessionId, request: Request)
    requires TracksLive(st) && c in st.conns
    ensures TracksLive(Answer(st, c, sid, request))
  {
    match request
    case NewProducerOn(ok, tapOk) => ProduceKeepsTracksLive(st, c, sid, ok, tapOk);
    case LeaveSession => RemoveKeepsTracksLive(WithActive(st, c, None), sid, st.conns[c].who);
    case JoinSession(routerOk) => NothingClosed(st, Join(st, c, sid, routerOk));
    case NewTransport(send, ok) => NothingClosed(st, CreateTransport(st, c, sid, send, ok));
    case NewConsumer(producer, ok) => NothingClosed(st, Consume(st, c, sid, producer, ok));
    case MuteSelf(audio, video) => NothingClosed(st, SetMute(st, c, sid, audio, video));
  }

  lemma StartKeepsTracksLive(st: Media, sid: SessionId, rid: RecordingId, dirOk: bool, noTap: set<nat>)
    requires EngineOk(st) && TracksLive(st)
    ensures TracksLive(StartRecording(st, sid, rid, dirOk, noTap))
  {
    var st' := StartRecording(st, sid, rid, dirOk, noTap);
    forall other, x | other in st'.recordings && x in RunningTracks(st'.recordings[other])
      ensures x in st'.open
    {
      if other in st.recordings {
        assert x in RunningTracks(st.recordings[other]);
      } else {
        var q :| q in st.sessions[sid].participants && x in st.sessions[sid].participants[q].producers;
        assert ParticipantOk(st, st.sessions[sid].router, q, st.sessions[sid].participants[q]);
      }
    }
  }

  lemma KickKeepsTracksLive(st: Media, sid: SessionId, pid: ParticipantId)
    requires TracksLive(st)
    ensures TracksLive(Kick(st, sid, pid))
  {
    if InSession(st, sid, pid) {
      var c := st.sessions[sid].participants[pid].socket;
      var st1 := Deliver(st, {c}, ModeratorKicked(pid));
      var st2 := if c in st1.conns && st1.conns[c].phase.Open?
                 then st1.(conns := st1.conns[c := st1.conns[c].(phase := Closing)]) else st1;
      RemoveKeepsTracksLive(st2, sid, pid);
    }
  }

  lemma StepKeepsTracksLive(st: Media, command: Command)
    requires EngineOk(st) && TracksLive(st)
    ensures TracksLive(Step(st, command))
  {
    match command
    case Connect(c, who, profile) =>
    case Signal(c, sid, request) => if Speaks(st, c) { SignalKeepsTracksLive(st, c, sid, request); }
    case SocketClosed(c) =>
      if Speaks(st, c) && st.conns[c].active.Some? {
        RemoveKeepsTracksLive(st.(conns := st.conns[c := st.conns[c].(phase := Closed)]), st.conns[c].active.value, st.conns[c].who);
      }
    case End(sid, rejects, archiveOk) =>
    case KickOut(sid, pid) => KickKeepsTracksLive(st, sid, pid);
    case Mute(sid, pid, audio, video) =>
    case RecordingStart(sid, rid, dirOk, noTap) => StartKeepsTracksLive(st, sid, rid, dirOk, noTap);
    case RecordingStop(rid, rejects, archiveOk) =>
  }

  /** Over every run, forgetful joins included, a running track has an open producer. */
  lemma {:induction false} RunsKeepTracksLive(commands: seq<Command>)
    ensures TracksLive(Run(commands))
  {
    if commands != [] {
      var before := commands[..|commands| - 1];
      RunsKeepTracksLive(before);
      RunsPin(before);
      StepKeepsTracksLive(Run(before), commands[|commands| - 1]);
    }
  }

  // ------------------------------------------------------- when every tap succeeds

  /** The outcomes of the command leave no producer without a track. */
  predicate TapsStart(command: Command) {
    match command
    case Signal(_, _, NewProducerOn(_, tapOk)) => tapOk
    case RecordingStart(_, _, _, noTap) => noTap == {}
    case _ => true
  }

  ghost predicate NothingMissed(st: Media) {
    forall rid :: rid in st.recordings ==> st.recordings[rid].missed == {}
  }

  lemma SignalMissesNothing(st: Media, c: ConnId, sid: SessionId, request: Request)
    requires NothingMissed(st) && c in st.conns && TapsStart(Signal(c, sid, request))
    ensures NothingMissed(Answer(st, c, sid, request))
  {
    hide RemoveParticipant, Send, Sockets;
    match request
    case JoinSession(routerOk) =>
    case NewTransport(send, ok) =>
    case NewProducerOn(ok, tapOk) =>
    case NewConsumer(producer, ok) =>
    case LeaveSession => RemoveMissesNothing(WithActive(st, c, None), sid, st.conns[c].who);
    case MuteSelf(audio, video) =>
  }

  lemma CloseSocketMissesNothing(st: Media, c: ConnId)
    requires NothingMissed(st) && c in st.conns
    ensures NothingMissed(CloseSocket(st, c))
  {
  }

  lemma RemoveMissesNothing(st: Media, sid: SessionId, pid: ParticipantId)
    requires NothingMissed(st)
    ensures NothingMissed(RemoveParticipant(st, sid, pid))
  {
  }

  lemma KickMissesNothing(st: Media, sid: SessionId, pid: ParticipantId)
    requires NothingMissed(st)
    ensures NothingMissed(Kick(st, sid, pid))
  {
    if InSession(st, sid, pid) {
      var c := st.sessions[sid].participants[pid].socket;
      var st1 := Deliver(st, {c}, ModeratorKicked(pid));
      var st2 := if c in st1.conns && st1.conns[c].phase.Open?
                 then st1.(conns := st1.conns[c := st1.conns[c].(phase := Closing)]) else st1;
      RemoveMissesNothing(st2, sid, pid);
    }
  }

  lemma StepMissesNothing(st: Media, command: Command)
    requires NothingMissed(st) && TapsStart(command)
    ensures NothingMissed(Step(st, command))
  {
    match command
    case Connect(c, who, profile) =>
    case Signal(c, sid, request) => if Speaks(st, c) { SignalMissesNothing(st, c, sid, request); }
    case SocketClosed(c) => if Speaks(st, c) { CloseSocketMissesNothing(st, c); }
    case End(sid, rejects, archiveOk) =>
    case KickOut(sid, pid) => KickMissesNothing(st, sid, pid);
    case Mute(sid, pid, audio, video) =>
    case RecordingStart(sid, rid, dirOk, noTap) =>
    case RecordingStop(rid, rejects, archiveOk) =>
  }

  lemma {:induction false} RunsMissNothing(commands: seq<Command>)
    requires forall i :: 0 <= i < |commands| ==> TapsStart(commands[i])
    ensures NothingMissed(Run(commands))
  {
    if commands != [] {
      var before := commands[..|commands| - 1];
      RunsMissNothing(before);
      StepMissesNothing(Run(before), commands[|commands| - 1]);
    }
  }

  /** When every tap starts and nobody re-joins over recorded producers, the running tracks
      of an active recording are exactly the live producers of the session's participants,
      whether a producer came before or after the start. */
  lemma {:induction false} RecordingsCoverTheirSession(commands: seq<Command>, rid: RecordingId, st: Media)
    requires NeverForgets(commands) && st == Run(commands) && rid in st.recordings
    requires forall i :: 0 <= i < |commands| ==> TapsStart(commands[i])
    ensures st.recordings[rid].sessionId in st.sessions
    ensures RunningTracks(st.recordings[rid]) == Producers(st.sessions[st.recordings[rid].sessionId])
  {
    RunsPin(commands);
    RunsCover(commands, {rid});
    RunsMissNothing(commands);
    assert CoversSession(st.recordings[rid], st.sessions[st.recordings[rid].sessionId]);
  }
}
