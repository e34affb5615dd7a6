/**
 What a forgetful join does to a recording for the rest of its life: the track of a producer
 that no entry holds any more runs on, until the recording is stopped. So a recording covers
 its session exactly if none came since its start.
 */
module MediaForgotten {
  import opened Prelude
  import opened MediaModel
  import opened MediaSteps
  import opened MediaEngine
  import opened MediaRecordings
  import opened MediaCoverage
  import opened MediaIsolation

  /** No participant holds the object or anything it stands on. */
  ghost predicate Unheld(st: Media, x: nat)
    requires x in st.open
  {
    forall s, q :: InSession(st, s, q) ==> ({x} + st.open[x].deps) !! Owned(st.sessions[s].participants[q])
  }

  /** A producer that the recording has a running track for and nobody holds. */
  ghost predicate Stray(st: Media, rid: RecordingId, x: nat) {
    && rid in st.recordings && st.recordings[rid].sessionId in st.sessions
    && x in RunningTracks(st.recordings[rid])
    && x in st.open && st.open[x].router == st.sessions[st.recordings[rid].sessionId].router
    && !st.open[x].kind.Router? && Unheld(st, x)
  }

  lemma StraySpoilsCover(st: Media, rid: RecordingId, x: nat)
    requires Stray(st, rid, x)
    ensures !CoversSession(st.recordings[rid], st.sessions[st.recordings[rid].sessionId])
  {
    var s := st.sessions[st.recordings[rid].sessionId];
    forall q | q in s.participants
      ensures x !in s.participants[q].producers
    {
      assert InSession(st, st.recordings[rid].sessionId, q);
      assert x !in Owned(s.participants[q]);
    }
    assert x !in Producers(s);
  }

  // ----------------------------------------------------------- steps that only add

  ghost predicate KeepsOpen(st: Media, st': Media) {
    forall y :: y in st.open ==> y in st'.open && st'.open[y] == st.open[y]
  }

  /** Recordings that stay keep their tracks. */
  ghost predicate KeepsTracks(st: Media, st': Media) {
    forall rid :: rid in st.recordings && rid in st'.recordings ==>
      && st'.recordings[rid].sessionId == st.recordings[rid].sessionId
      && forall y :: y in st.recordings[rid].tracks ==>
           y in st'.recordings[rid].tracks && st'.recordings[rid].tracks[y] == st.recordings[rid].tracks[y]
  }

  /** Nobody comes to hold anything but what is new. */
  ghost predicate HoldsNothingOld(st: Media, st': Media) {
    forall s, q, y :: InSession(st', s, q) && y in Owned(st'.sessions[s].participants[q]) && y in st.open ==>
      InSession(st, s, q) && y in Owned(st.sessions[s].participants[q])
  }

  ghost predicate Adds(st: Media, st': Media) {
    KeepsOpen(st, st') && KeepsTracks(st, st') && HoldsNothingOld(st, st')
  }

  /** One participant's entry is new, and holds at most one object more. */
  lemma EntryAdds(st: Media, st': Media, sid: SessionId, pid: ParticipantId, p: Participant)
    requires st.nextId !in st.open && sid in st.sessions && st'.sessions == WithParticipant(st, sid, pid, p).sessions
    requires Owned(p) <= {st.nextId} + if InSession(st, sid, pid) then Owned(st.sessions[sid].participants[pid]) else {}
    ensures HoldsNothingOld(st, st')
  {
    forall s, q, y | InSession(st', s, q) && y in Owned(st'.sessions[s].participants[q]) && y in st.open
      ensures InSession(st, s, q) && y in Owned(st.sessions[s].participants[q])
    {
      if s == sid && q == pid {
        assert st'.sessions[s].participants[q] == p;
      } else {
        assert InSession(st, s, q) && st'.sessions[s].participants[q] == st.sessions[s].participants[q];
      }
    }
  }

  lemma AddsKeepsStray(st: Media, st': Media, rid: RecordingId, x: nat)
    requires EngineOk(st) && Stray(st, rid, x) && Adds(st, st') && KeepsRouters(st, st')
    requires rid in st'.recordings && st.recordings[rid].sessionId in st'.sessions
    ensures Stray(st', rid, x)
  {
    assert ResourceOk(st.open, x);
    forall s, q | InSession(st', s, q)
      ensures ({x} + st'.open[x].deps) !! Owned(st'.sessions[s].participants[q])
    {
      forall y | y in {x} + st.open[x].deps
        ensures y !in Owned(st'.sessions[s].participants[q])
      {
        assert y in st.open;
      }
    }
  }

  lemma NextIsNew(st: Media)
    requires EngineOk(st)
    ensures st.nextId !in st.open
  {
  }

  lemma SameEntriesAdd(st: Media, st': Media)
    requires st'.sessions == st.sessions
    ensures HoldsNothingOld(st, st')
  {
  }

  lemma JoinKeepsRest(st: Media, c: ConnId, sid: SessionId, routerOk: bool)
    requires st.nextId !in st.open && c in st.conns
    ensures KeepsOpen(st, Join(st, c, sid, routerOk)) && KeepsTracks(st, Join(st, c, sid, routerOk))
  {
  }

  lemma JoinAdds(st: Media, c: ConnId, sid: SessionId, routerOk: bool)
    requires EngineOk(st) && c in st.conns
    ensures Adds(st, Join(st, c, sid, routerOk))
  {
    var me, st' := st.conns[c].who, Join(st, c, sid, routerOk);
    NextIsNew(st);
    JoinKeepsRest(st, c, sid, routerOk);
    hide EngineOk, KeepsOpen, KeepsTracks, HoldsNothingOld, Others, ProducersOfOthers, Send, Sockets, Owned;
    if sid !in st.sessions && !routerOk {
      SameEntriesAdd(st, st');
    } else {
      var st1 := CreateSession(st, sid);
      assert st'.sessions == WithParticipant(st1, sid, me, Newcomer(st.conns[c], c)).sessions;
      JoinedAdds(st, st', c, sid, st1);
    }
  }

  lemma JoinedAdds(st: Media, st': Media, c: ConnId, sid: SessionId, st1: Media)
    requires st.nextId !in st.open && c in st.conns && st1 == CreateSession(st, sid)
    requires st'.sessions == WithParticipant(st1, sid, st.conns[c].who, Newcomer(st.conns[c], c)).sessions
    ensures HoldsNothingOld(st, st')
  {
    assert Owned(Newcomer(st.conns[c], c)) == {};
    forall s, q | InSession(st', s, q)
      ensures st'.sessions[s].participants[q] == Newcomer(st.conns[c], c)
           || (InSession(st, s, q) && st'.sessions[s].participants[q] == st.sessions[s].participants[q])
    {
    }
  }

  lemma CreateTransportKeepsRest(st: Media, c: ConnId, sid: SessionId, send: bool, ok: bool)
    requires st.nextId !in st.open && c in st.conns
    ensures KeepsOpen(st, CreateTransport(st, c, sid, send, ok)) && KeepsTracks(st, CreateTransport(st, c, sid, send, ok))
  {
    hide Send;
  }

  lemma CreateTransportAdds(st: Media, c: ConnId, sid: SessionId, send: bool, ok: bool)
    requires EngineOk(st) && c in st.conns
    ensures Adds(st, CreateTransport(st, c, sid, send, ok))
  {
    var me, st' := st.conns[c].who, CreateTransport(st, c, sid, send, ok);
    NextIsNew(st);
    CreateTransportKeepsRest(st, c, sid, send, ok);
    hide EngineOk, KeepsOpen, KeepsTracks, HoldsNothingOld, Send;
    if InSession(st, sid, me) && ok {
      var p := st.sessions[sid].participants[me];
      EntryAdds(st, st', sid, me, if send then p.(send := Some(st.nextId)) else p.(recv := Some(st.nextId)));
    } else {
      SameEntriesAdd(st, st');
    }
  }

  lemma ProduceKeepsRest(st: Media, c: ConnId, sid: SessionId, ok: bool, tapOk: bool)
    requires st.nextId !in st.open && c in st.conns
    ensures KeepsOpen(st, Produce(st, c, sid, ok, tapOk)) && KeepsTracks(st, Produce(st, c, sid, ok, tapOk))
  {
    hide Send, Sockets;
  }

  lemma ProduceAdds(st: Media, c: ConnId, sid: SessionId, ok: bool, tapOk: bool)
    requires EngineOk(st) && c in st.conns
    ensures Adds(st, Produce(st, c, sid, ok, tapOk))
  {
    var me, st' := st.conns[c].who, Produce(st, c, sid, ok, tapOk);
    NextIsNew(st);
    ProduceKeepsRest(st, c, sid, ok, tapOk);
    hide EngineOk, KeepsOpen, KeepsTracks, HoldsNothingOld, Send, Sockets;
    if CanProduce(st, sid, me) && ok {
      var p := st.sessions[sid].participants[me];
      EntryAdds(st, st', sid, me, p.(producers := p.producers + {st.nextId}));
    } else {
      SameEntriesAdd(st, st');
    }
  }

  lemma ConsumeKeepsRest(st: Media, c: ConnId, sid: SessionId, producer: nat, ok: bool)
    requires st.nextId !in st.open && c in st.conns
    ensures KeepsOpen(st, Consume(st, c, sid, producer, ok)) && KeepsTracks(st, Consume(st, c, sid, producer, ok))
  {
    hide Send;
  }

  lemma ConsumeAdds(st: Media, c: ConnId, sid: SessionId, producer: nat, ok: bool)
    requires EngineOk(st) && c in st.conns
    ensures Adds(st, Consume(st, c, sid, producer, ok))
  {
    var me, st' := st.conns[c].who, Consume(st, c, sid, producer, ok);
    NextIsNew(st);
    ConsumeKeepsRest(st, c, sid, producer, ok);
    hide EngineOk, KeepsOpen, KeepsTracks, HoldsNothingOld, Send;
    if CanConsume(st, sid, me, producer) && ok {
      var p := st.sessions[sid].participants[me];
      EntryAdds(st, st', sid, me, p.(consumers := p.consumers + {st.nextId}));
    } else {
      SameEntriesAdd(st, st');
    }
  }

  lemma SetMuteAdds(st: Media, c: ConnId, sid: SessionId, audio: Option<bool>, video: Option<bool>)
    requires EngineOk(st) && c in st.conns
    ensures Adds(st, SetMute(st, c, sid, audio, video))
  {
    var me, st' := st.conns[c].who, SetMute(st, c, sid, audio, video);
    NextIsNew(st);
    hide EngineOk, HoldsNothingOld, Send, Sockets;
    if InSession(st, sid, me) {
      EntryAdds(st, st', sid, me, Muted(st.sessions[sid].participants[me], audio, video));
    } else {
      SameEntriesAdd(st, st');
    }
  }

  lemma ModerateMuteAdds(st: Media, sid: SessionId, pid: ParticipantId, audio: Option<bool>, video: Option<bool>)
    ensures Adds(st, ModerateMute(st, sid, pid, audio, video))
  {
  }

  lemma StartAdds(st: Media, sid: SessionId, rid: RecordingId, dirOk: bool, noTap: set<nat>)
    ensures Adds(st, StartRecording(st, sid, rid, dirOk, noTap))
  {
  }

  lemma StopAdds(st: Media, rid: RecordingId, rejects: set<nat>, archiveOk: bool)
    ensures Adds(st, StopRecording(st, rid, rejects, archiveOk))
  {
  }

  // -------------------------------------------------------------- steps that close

  lemma CloseKeepsStray(st: Media, ids: set<nat>, rid: RecordingId, x: nat)
    requires Stray(st, rid, x) && ({x} + st.open[x].deps) !! ids
    ensures Stray(CloseAll(st, ids), rid, x)
  {
    var st' := CloseAll(st, ids);
    assert x in st'.open && st'.open[x] == st.open[x];
    forall s, q | InSession(st', s, q)
      ensures ({x} + st'.open[x].deps) !! Owned(st'.sessions[s].participants[q])
    {
      assert InSession(st, s, q);
      assert Owned(st'.sessions[s].participants[q]) <= Owned(st.sessions[s].participants[q]);
    }
  }

  lemma EndKeepsStray(st: Media, other: SessionId, rid: RecordingId, x: nat)
    requires EngineOk(st) && Stray(st, rid, x) && other != st.recordings[rid].sessionId
    ensures Stray(EndSession(st, other), rid, x)
  {
    if other in st.sessions {
      var router := st.sessions[other].router;
      OtherRouter(st, other, rid, x);
      CloseKeepsStray(st, {router}, rid, x);
      var st1 := CloseAll(st, {router});
      assert forall s, q :: InSession(EndSession(st, other), s, q) ==> InSession(st1, s, q);
    }
  }

  lemma OtherRouter(st: Media, other: SessionId, rid: RecordingId, x: nat)
    requires EngineOk(st) && Stray(st, rid, x) && other in st.sessions && other != st.recordings[rid].sessionId
    ensures ({x} + st.open[x].deps) !! {st.sessions[other].router}
  {
    assert ResourceOk(st.open, x) && ResourceOk(st.open, st.sessions[other].router);
  }

  lemma RemoveKeepsStray(st: Media, sid: SessionId, pid: ParticipantId, rid: RecordingId, x: nat)
    requires EngineOk(st) && PinOk(st) && Stray(st, rid, x)
    ensures Stray(RemoveParticipant(st, sid, pid), rid, x)
  {
    if InSession(st, sid, pid) {
      if EndsWith(st, sid, pid) {
        EndKeepsStray(st, sid, rid, x);
      } else {
        var owned := Owned(st.sessions[sid].participants[pid]);
        CloseKeepsStray(st, owned, rid, x);
        DropEntryKeepsStray(CloseAll(st, owned), sid, pid, rid, x);
      }
    }
  }

  lemma DropEntryKeepsStray(st: Media, sid: SessionId, pid: ParticipantId, rid: RecordingId, x: nat)
    requires Stray(st, rid, x) && InSession(st, sid, pid)
    ensures Stray(st.(sessions := st.sessions[sid := st.sessions[sid].(participants := st.sessions[sid].participants - {pid})]), rid, x)
  {
    var st' := st.(sessions := st.sessions[sid := st.sessions[sid].(participants := st.sessions[sid].participants - {pid})]);
    forall s, q | InSession(st', s, q)
      ensures ({x} + st'.open[x].deps) !! Owned(st'.sessions[s].participants[q])
    {
      assert InSession(st, s, q);
    }
  }

  /** Sockets and what was sent on them are of no concern. */
  lemma TalkKeepsStray(st: Media, st': Media, rid: RecordingId, x: nat)
    requires Stray(st, rid, x)
    requires st'.sessions == st.sessions && st'.open == st.open && st'.recordings == st.recordings
    ensures Stray(st', rid, x)
  {
    assert forall s, q :: InSession(st', s, q) ==> InSession(st, s, q);
  }

  lemma SignalKeepsStray(st: Media, c: ConnId, sid: SessionId, request: Request, rid: RecordingId, x: nat)
    requires EngineOk(st) && PinOk(st) && Stray(st, rid, x) && c in st.conns
    requires PinOk(Answer(st, c, sid, request)) && rid in Answer(st, c, sid, request).recordings
    ensures Stray(Answer(st, c, sid, request), rid, x)
  {
    var st' := Answer(st, c, sid, request);
    if request.LeaveSession? {
      LeaveKeepsStray(st, c, sid, rid, x);
    } else {
      SignalKeepsRouters(st, c, sid, request);
      SignalAdds(st, c, sid, request);
      SignalKeepsPins(st, c, sid, request);
      hide Answer, Adds, Stray, EngineOk;
      assert st.recordings[rid].sessionId in st'.sessions by { RecordedIsThere(st, st', rid); }
      AddsKeepsStray(st, st', rid, x);
    }
  }

  lemma RecordedIsThere(st: Media, st': Media, rid: RecordingId)
    requires PinOk(st') && rid in st.recordings && rid in st'.recordings
    requires st'.recordings[rid].sessionId == st.recordings[rid].sessionId
    ensures st.recordings[rid].sessionId in st'.sessions
  {
  }

  lemma SignalAdds(st: Media, c: ConnId, sid: SessionId, request: Request)
    requires EngineOk(st) && c in st.conns && !request.LeaveSession?
    ensures Adds(st, Answer(st, c, sid, request))
  {
    hide Adds, EngineOk;
    match request
    case JoinSession(routerOk) => JoinAdds(st, c, sid, routerOk);
    case NewTransport(send, ok) => CreateTransportAdds(st, c, sid, send, ok);
    case NewProducerOn(ok, tapOk) => ProduceAdds(st, c, sid, ok, tapOk);
    case NewConsumer(producer, ok) => ConsumeAdds(st, c, sid, producer, ok);
    case MuteSelf(audio, video) => SetMuteAdds(st, c, sid, audio, video);
  }

  lemma LeaveKeepsStray(st: Media, c: ConnId, sid: SessionId, rid: RecordingId, x: nat)
    requires EngineOk(st) && PinOk(st) && Stray(st, rid, x) && c in st.conns
    ensures Stray(Leave(st, c, sid), rid, x)
  {
    hide EngineOk, Stray, RemoveParticipant;
    var me, st1 := st.conns[c].who, WithActive(st, c, None);
    TalkKeepsStray(st, st1, rid, x);
    SameEngine(st, st1);
    RemoveKeepsStray(st1, sid, me, rid, x);
    TalkKeepsStray(RemoveParticipant(st1, sid, me), Leave(st, c, sid), rid, x);
  }

  lemma CloseSocketKeepsStray(st: Media, c: ConnId, rid: RecordingId, x: nat)
    requires EngineOk(st) && PinOk(st) && Stray(st, rid, x) && c in st.conns
    ensures Stray(CloseSocket(st, c), rid, x)
  {
    hide EngineOk, Stray, RemoveParticipant;
    var conn := st.conns[c];
    var st1 := st.(conns := st.conns[c := conn.(phase := Closed)]);
    TalkKeepsStray(st, st1, rid, x);
    SameEngine(st, st1);
    if conn.active.Some? {
      RemoveKeepsStray(st1, conn.active.value, conn.who, rid, x);
      if InSession(st1, conn.active.value, conn.who) {
        TalkKeepsStray(RemoveParticipant(st1, conn.active.value, conn.who), CloseSocket(st, c), rid, x);
      }
    }
  }

  lemma KickKeepsStray(st: Media, sid: SessionId, pid: ParticipantId, rid: RecordingId, x: nat)
    requires EngineOk(st) && PinOk(st) && Stray(st, rid, x)
    ensures Stray(Kick(st, sid, pid), rid, x)
  {
    hide EngineOk, Stray, RemoveParticipant;
    if InSession(st, sid, pid) {
      var c := st.sessions[sid].participants[pid].socket;
      var st1 := Deliver(st, {c}, ModeratorKicked(pid));
      var st2 := if c in st1.conns && st1.conns[c].phase.Open?
                 then st1.(conns := st1.conns[c := st1.conns[c].(phase := Closing)]) else st1;
      TalkKeepsStray(st, st2, rid, x);
      SameEngine(st, st2);
      RemoveKeepsStray(st2, sid, pid, rid, x);
      TalkKeepsStray(RemoveParticipant(st2, sid, pid), Kick(st, sid, pid), rid, x);
    }
  }

  lemma StopKeepsStray(st: Media, other: RecordingId, rejects: set<nat>, archiveOk: bool, rid: RecordingId, x: nat)
    requires EngineOk(st) && PinOk(st) && Stray(st, rid, x) && rid in StopRecording(st, other, rejects, archiveOk).recordings
    ensures Stray(StopRecording(st, other, rejects, archiveOk), rid, x)
  {
    StopAdds(st, other, rejects, archiveOk);
    RecordingKeepsRouters(st, 0, other, true, {}, rejects, archiveOk);
    AddsKeepsStray(st, StopRecording(st, other, rejects, archiveOk), rid, x);
  }

  lemma EndCommandKeepsStray(st: Media, sid: SessionId, rejects: set<nat>, archiveOk: bool, rid: RecordingId, x: nat)
    requires EngineOk(st) && PinOk(st) && Stray(st, rid, x)
    requires rid in EndSession(StopRecordingBySession(st, sid, rejects, archiveOk), sid).recordings
    ensures Stray(EndSession(StopRecordingBySession(st, sid, rejects, archiveOk), sid), rid, x)
  {
    var st1 := StopRecordingBySession(st, sid, rejects, archiveOk);
    assert rid in st1.recordings;
    if sid in st.recordingOf {
      StopKeepsStray(st, st.recordingOf[sid], rejects, archiveOk, rid, x);
      StopKeepsEngine(st, st.recordingOf[sid], rejects, archiveOk);
      StopKeepsPinOk(st, st.recordingOf[sid], rejects, archiveOk);
    }
    EndKeepsStray(st1, sid, rid, x);
  }

  /** A stray producer stays one for as long as its recording goes on. */
  lemma StepKeepsStray(st: Media, command: Command, rid: RecordingId, x: nat)
    requires EngineOk(st) && PinOk(st) && Stray(st, rid, x)
    requires PinOk(Step(st, command)) && rid in Step(st, command).recordings
    ensures Stray(Step(st, command), rid, x)
  {
    hide EngineOk, Stray, Answer, CloseSocket, EndSession, Kick, ModerateMute, StartRecording, StopRecording;
    match command
    case Connect(c, who, profile) => TalkKeepsStray(st, Step(st, command), rid, x);
    case Signal(c, sid, request) => if Speaks(st, c) { SignalKeepsStray(st, c, sid, request, rid, x); }
    case SocketClosed(c) => if Speaks(st, c) { CloseSocketKeepsStray(st, c, rid, x); }
    case End(sid, rejects, archiveOk) => EndCommandKeepsStray(st, sid, rejects, archiveOk, rid, x);
    case KickOut(sid, pid) => KickKeepsStray(st, sid, pid, rid, x);
    case Mute(sid, pid, audio, video) => MuteKeepsStray(st, sid, pid, audio, video, rid, x);
    case RecordingStart(sid, other, dirOk, noTap) => StartKeepsStray(st, sid, other, dirOk, noTap, rid, x);
    case RecordingStop(other, rejects, archiveOk) => StopKeepsStray(st, other, rejects, archiveOk, rid, x);
  }

  lemma MuteKeepsStray(st: Media, sid: SessionId, pid: ParticipantId, audio: Option<bool>, video: Option<bool>, rid: RecordingId, x: nat)
    requires EngineOk(st) && PinOk(st) && Stray(st, rid, x)
    ensures Stray(ModerateMute(st, sid, pid, audio, video), rid, x)
  {
    ModerateMuteAdds(st, sid, pid, audio, video);
    MuteKeepsRouters(st, sid, pid, audio, video);
    AddsKeepsStray(st, ModerateMute(st, sid, pid, audio, video), rid, x);
  }

  lemma StartKeepsStray(st: Media, sid: SessionId, other: RecordingId, dirOk: bool, noTap: set<nat>, rid: RecordingId, x: nat)
    requires EngineOk(st) && PinOk(st) && Stray(st, rid, x)
    ensures Stray(StartRecording(st, sid, other, dirOk, noTap), rid, x)
  {
    StartAdds(st, sid, other, dirOk, noTap);
    RecordingKeepsRouters(st, sid, other, dirOk, noTap, {}, true);
    AddsKeepsStray(st, StartRecording(st, sid, other, dirOk, noTap), rid, x);
  }

  // ------------------------------------------------------------ how strays come up

  /** Of what a participant holds, nobody else holds anything it stands on. */
  lemma HeldByOne(st: Media, sid: SessionId, me: ParticipantId, x: nat, s: SessionId, q: ParticipantId)
    requires EngineOk(st) && OwnersApart(st.open) && InSession(st, sid, me) && InSession(st, s, q) && (s != sid || q != me)
    requires x in st.sessions[sid].participants[me].producers
    ensures x in st.open && ({x} + st.open[x].deps) !! Owned(st.sessions[s].participants[q])
  {
    assert ParticipantOk(st, st.sessions[sid].router, me, st.sessions[sid].participants[me]);
    assert ResourceOk(st.open, x) && StandsOnOwn(st.open, me, st.open[x].deps);
    OwnedAreNotRouters(st, s, q);
    forall y | y in {x} + st.open[x].deps
      ensures y !in Owned(st.sessions[s].participants[q])
    {
      assert y in st.open && st.open[y].router == st.sessions[sid].router;
    }
  }

  /** A forgetful join leaves a stray producer behind. */
  lemma ForgettingStrays(st: Media, c: ConnId, sid: SessionId, routerOk: bool, rid: RecordingId) returns (x: nat)
    requires EngineOk(st) && PinOk(st) && OwnersApart(st.open) && CoverOk(st, {rid}) && c in st.conns
    requires Forgets(st, c, sid) && st.recordingOf[sid] == rid
    ensures Stray(Join(st, c, sid, routerOk), rid, x)
  {
    var me, st' := st.conns[c].who, Join(st, c, sid, routerOk);
    var r, gone := st.recordings[rid], st.sessions[sid].participants[me].producers;
    assert r.sessionId == sid && CoversSession(r, st.sessions[sid]);
    x :| x in gone && x !in r.missed;
    assert x in Producers(st.sessions[sid]);
    assert ParticipantOk(st, st.sessions[sid].router, me, st.sessions[sid].participants[me]);
    forall s, q | InSession(st', s, q)
      ensures ({x} + st.open[x].deps) !! Owned(st'.sessions[s].participants[q])
    {
      if s != sid || q != me {
        HeldByOne(st, sid, me, x, s, q);
      }
    }
  }

  // ------------------------------------------------------------------------- runs

  /** A forgetful join has hit the recording since it started. */
  predicate Forgotten(commands: seq<Command>, rid: RecordingId) {
    commands != [] && rid in Run(commands).recordings &&
    (var before, last := commands[..|commands| - 1], commands[|commands| - 1];
     || (rid in Run(before).recordings && Forgotten(before, rid))
     || (ForgetfulCommand(Run(before), last) && Run(before).recordingOf[last.sid] == rid))
  }

  lemma {:induction false} RunsCoverOrStray(commands: seq<Command>, rid: RecordingId)
    ensures TracksAreOld(Run(commands))
    ensures !Forgotten(commands, rid) ==> CoverOk(Run(commands), {rid})
    ensures Forgotten(commands, rid) ==> exists x :: Stray(Run(commands), rid, x)
  {
    if commands != [] {
      var before, last := commands[..|commands| - 1], commands[|commands| - 1];
      RunsCoverOrStray(before, rid);
      RunsPin(before);
      RunsPin(commands);
      RunsKeepApart(before);
      StepCoversOrStrays(commands, rid);
    }
  }

  lemma StepCoversOrStrays(commands: seq<Command>, rid: RecordingId)
    requires commands != []
    requires var st := Run(commands[..|commands| - 1]);
      EngineOk(st) && PinOk(st) && OwnersApart(st.open) && TracksAreOld(st)
    requires PinOk(Run(commands))
    requires var before := commands[..|commands| - 1];
      && (!Forgotten(before, rid) ==> CoverOk(Run(before), {rid}))
      && (Forgotten(before, rid) ==> exists x :: Stray(Run(before), rid, x))
    ensures TracksAreOld(Run(commands))
    ensures !Forgotten(commands, rid) ==> CoverOk(Run(commands), {rid})
    ensures Forgotten(commands, rid) ==> exists x :: Stray(Run(commands), rid, x)
  {
    hide Step, EngineOk, OwnersApart, Stray;
    var before, last := commands[..|commands| - 1], commands[|commands| - 1];
    var st := Run(before);
    StepCovers(st, last, {});
    if rid !in Run(commands).recordings {
    } else if Forgotten(before, rid) {
      var x :| Stray(st, rid, x);
      StepKeepsStray(st, last, rid, x);
    } else if ForgetfulCommand(st, last) && st.recordingOf[last.sid] == rid {
      var x := ForgettingStrays(st, last.conn, last.sid, last.request.routerOk, rid);
      JoinIsSignal(st, last);
    } else {
      StepCovers(st, last, {rid});
    }
  }

  lemma JoinIsSignal(st: Media, command: Command)
    requires command.Signal? && command.request.JoinSession? && Speaks(st, command.conn)
    ensures Step(st, command) == Join(st, command.conn, command.sid, command.request.routerOk)
  {
  }

  /** Over every run, an active recording covers its session, up to the producers whose tap
      failed, exactly if no forgetful join has hit it since its start. */
  lemma RunsCoverExactly(commands: seq<Command>, rid: RecordingId, st: Media)
    requires st == Run(commands) && rid in st.recordings
    ensures st.recordings[rid].sessionId in st.sessions
    ensures CoversSession(st.recordings[rid], st.sessions[st.recordings[rid].sessionId]) <==> !Forgotten(commands, rid)
  {
    RunsPin(commands);
    RunsCoverOrStray(commands, rid);
    if Forgotten(commands, rid) {
      var x :| Stray(st, rid, x);
      StraySpoilsCover(st, rid, x);
    }
  }
}
