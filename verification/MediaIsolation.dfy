/** One participant's departure is no concern of anybody else's transports and producers. */
module MediaIsolation {
  import opened Prelude
  import opened MediaModel
  import opened MediaSteps
  import opened MediaEngine
  import opened MediaRecordings

  /** Everything open among `deps` is a router or a transport of the given owner. */
  ghost predicate StandsOnOwn(open: map<nat, Resource>, owner: ParticipantId, deps: set<nat>) {
    forall d :: d in deps && d in open ==> open[d].kind.Router? || (open[d].kind.Transport? && open[d].owner == owner)
  }

  /** Only consumers depend on what somebody else holds, and a transport on its router only. */
  ghost predicate OwnersApart(open: map<nat, Resource>) {
    && (forall r :: r in open && !open[r].kind.Consumer? ==> StandsOnOwn(open, open[r].owner, open[r].deps))
    && (forall r :: r in open && open[r].kind.Transport? ==> open[r].deps == {open[r].router})
  }

  lemma ClosingKeepsApart(open: map<nat, Resource>, ids: set<nat>)
    requires OwnersApart(open)
    ensures OwnersApart(OpenAfter(open, ids))
  {
    forall r | r in OpenAfter(open, ids) && !open[r].kind.Consumer?
      ensures StandsOnOwn(OpenAfter(open, ids), open[r].owner, open[r].deps)
    {
      assert StandsOnOwn(open, open[r].owner, open[r].deps);
    }
  }

  lemma MakingKeepsApart(open: map<nat, Resource>, nextId: nat, x: Resource)
    requires ResourcesOk(open, nextId) && OwnersApart(open)
    requires nextId !in x.deps && (!x.kind.Consumer? ==> StandsOnOwn(open, x.owner, x.deps))
    requires x.kind.Transport? ==> x.deps == {x.router}
    ensures OwnersApart(open[nextId := x])
  {
    var open' := open[nextId := x];
    forall r | r in open' && !open'[r].kind.Consumer?
      ensures StandsOnOwn(open', open'[r].owner, open'[r].deps)
    {
      if r in open && r != nextId {
        assert ResourceOk(open, r) && StandsOnOwn(open, open[r].owner, open[r].deps);
      }
    }
  }

  lemma RemoveKeepsApart(st: Media, sid: SessionId, pid: ParticipantId)
    requires OwnersApart(st.open)
    ensures OwnersApart(RemoveParticipant(st, sid, pid).open)
  {
    if InSession(st, sid, pid) {
      ClosingKeepsApart(st.open, Owned(st.sessions[sid].participants[pid]));
      ClosingKeepsApart(st.open, {st.sessions[sid].router});
    }
  }

  lemma JoinKeepsApart(st: Media, c: ConnId, sid: SessionId, routerOk: bool)
    requires EngineOk(st) && c in st.conns && OwnersApart(st.open)
    ensures OwnersApart(Join(st, c, sid, routerOk).open)
  {
    if sid !in st.sessions {
      MakingKeepsApart(st.open, st.nextId, Resource(Router, st.nextId, 0, {}));
    }
  }

  lemma CreateTransportKeepsApart(st: Media, c: ConnId, sid: SessionId, send: bool, ok: bool)
    requires EngineOk(st) && c in st.conns && OwnersApart(st.open)
    ensures OwnersApart(CreateTransport(st, c, sid, send, ok).open)
  {
    if sid in st.sessions {
      MakingKeepsApart(st.open, st.nextId, Resource(Transport, st.sessions[sid].router, st.conns[c].who, {st.sessions[sid].router}));
    }
  }

  lemma ProduceKeepsApart(st: Media, c: ConnId, sid: SessionId, ok: bool, tapOk: bool)
    requires EngineOk(st) && c in st.conns && OwnersApart(st.open)
    ensures OwnersApart(Produce(st, c, sid, ok, tapOk).open)
  {
    var me := st.conns[c].who;
    if CanProduce(st, sid, me) {
      var p := st.sessions[sid].participants[me];
      var t := p.send.value;
      assert ParticipantOk(st, st.sessions[sid].router, me, p);
      assert ResourceOk(st.open, t) && StandsOnOwn(st.open, st.open[t].owner, st.open[t].deps);
      MakingKeepsApart(st.open, st.nextId, Resource(Producer, st.sessions[sid].router, me, {t} + st.open[t].deps));
    }
  }

  lemma ConsumeKeepsApart(st: Media, c: ConnId, sid: SessionId, producer: nat, ok: bool)
    requires EngineOk(st) && c in st.conns && OwnersApart(st.open)
    ensures OwnersApart(Consume(st, c, sid, producer, ok).open)
  {
    var me := st.conns[c].who;
    if CanConsume(st, sid, me, producer) {
      var t := st.sessions[sid].participants[me].recv.value;
      assert ResourceOk(st.open, t) && ResourceOk(st.open, producer);
      var deps := {t, producer} + st.open[t].deps + st.open[producer].deps;
      MakingKeepsApart(st.open, st.nextId, Resource(Consumer, st.sessions[sid].router, me, deps));
    }
  }

  lemma SignalKeepsApart(st: Media, c: ConnId, sid: SessionId, request: Request)
    requires EngineOk(st) && c in st.conns && OwnersApart(st.open)
    ensures OwnersApart(Answer(st, c, sid, request).open)
  {
    match request
    case JoinSession(routerOk) => JoinKeepsApart(st, c, sid, routerOk);
    case NewTransport(send, ok) => CreateTransportKeepsApart(st, c, sid, send, ok);
    case NewProducerOn(ok, tapOk) => ProduceKeepsApart(st, c, sid, ok, tapOk);
    case NewConsumer(producer, ok) => ConsumeKeepsApart(st, c, sid, producer, ok);
    case LeaveSession => RemoveKeepsApart(WithActive(st, c, None), sid, st.conns[c].who);
    case MuteSelf(audio, video) =>
  }

  lemma EndKeepsApart(st: Media, sid: SessionId, rejects: set<nat>, archiveOk: bool)
    requires OwnersApart(st.open)
    ensures OwnersApart(EndSession(StopRecordingBySession(st, sid, rejects, archiveOk), sid).open)
  {
    if sid in st.sessions {
      ClosingKeepsApart(st.open, {st.sessions[sid].router});
    }
  }

  lemma KickKeepsApart(st: Media, sid: SessionId, pid: ParticipantId)
    requires OwnersApart(st.open)
    ensures OwnersApart(Kick(st, sid, pid).open)
  {
    if InSession(st, sid, pid) {
      var c := st.sessions[sid].participants[pid].socket;
      var st1 := Deliver(st, {c}, ModeratorKicked(pid));
      var st2 := if c in st1.conns && st1.conns[c].phase.Open?
                 then st1.(conns := st1.conns[c := st1.conns[c].(phase := Closing)]) else st1;
      RemoveKeepsApart(st2, sid, pid);
    }
  }

  lemma CloseSocketKeepsApart(st: Media, c: ConnId)
    requires OwnersApart(st.open) && c in st.conns
    ensures OwnersApart(CloseSocket(st, c).open)
  {
    if st.conns[c].active.Some? {
      RemoveKeepsApart(st.(conns := st.conns[c := st.conns[c].(phase := Closed)]), st.conns[c].active.value, st.conns[c].who);
    }
  }

  lemma StepKeepsApart(st: Media, command: Command)
    requires EngineOk(st) && OwnersApart(st.open)
    ensures OwnersApart(Step(st, command).open)
  {
    match command
    case Connect(c, who, profile) =>
    case Signal(c, sid, request) => if Speaks(st, c) { SignalKeepsApart(st, c, sid, request); }
    case SocketClosed(c) => if Speaks(st, c) { CloseSocketKeepsApart(st, c); }
    case End(sid, rejects, archiveOk) => EndKeepsApart(st, sid, rejects, archiveOk);
    case KickOut(sid, pid) => KickKeepsApart(st, sid, pid);
    case Mute(sid, pid, audio, video) =>
    case RecordingStart(sid, rid, dirOk, noTap) =>
    case RecordingStop(rid, rejects, archiveOk) =>
  }

  lemma {:induction false} RunsKeepApart(commands: seq<Command>)
    ensures OwnersApart(Run(commands).open)
  {
    if commands != [] {
      var before := commands[..|commands| - 1];
      RunsKeepApart(before);
      RunsPin(before);
      StepKeepsApart(Run(before), commands[|commands| - 1]);
    }
  }

  /** An open transport or producer that a participant holds. */
  predicate HoldsOpen(st: Media, sid: SessionId, pid: ParticipantId, x: nat) {
    && InSession(st, sid, pid) && x in st.open
    && (x in st.sessions[sid].participants[pid].producers
        || st.sessions[sid].participants[pid].send == Some(x)
        || st.sessions[sid].participants[pid].recv == Some(x))
  }

  lemma HeldElsewhere(st: Media, sid: SessionId, pid: ParticipantId, s: SessionId, q: ParticipantId, x: nat)
    requires EngineOk(st) && OwnersApart(st.open)
    requires InSession(st, sid, pid) && HoldsOpen(st, s, q, x) && (s != sid || q != pid)
    ensures x in OpenAfter(st.open, Owned(st.sessions[sid].participants[pid]))
    ensures s != sid ==> x in OpenAfter(st.open, {st.sessions[sid].router})
  {
    OwnedAreNotRouters(st, sid, pid);
    assert ParticipantOk(st, st.sessions[s].router, q, st.sessions[s].participants[q]);
    assert ResourceOk(st.open, x) && StandsOnOwn(st.open, q, st.open[x].deps);
    assert ResourceOk(st.open, st.sessions[sid].router);
  }

  lemma CloseAllSpares(st: Media, ids: set<nat>, s: SessionId, q: ParticipantId, x: nat)
    requires HoldsOpen(st, s, q, x) && x in OpenAfter(st.open, ids)
    ensures HoldsOpen(CloseAll(st, ids), s, q, x)
  {
  }

  /** A leave closes no transport and no producer of anybody else, in the same session or
      in another. */
  lemma LeaveSparesOthers(st: Media, sid: SessionId, pid: ParticipantId, s: SessionId, q: ParticipantId, x: nat)
    requires EngineOk(st) && OwnersApart(st.open)
    requires HoldsOpen(st, s, q, x) && (s != sid || q != pid)
    ensures HoldsOpen(RemoveParticipant(st, sid, pid), s, q, x)
  {
    hide EngineOk, OwnersApart;
    if InSession(st, sid, pid) {
      HeldElsewhere(st, sid, pid, s, q, x);
      if s != sid && st.sessions[sid].participants.Keys == {pid} && !st.sessions[sid].recordingActive {
        CloseAllSpares(st, {st.sessions[sid].router}, s, q, x);
      } else {
        assert s == sid ==> q in st.sessions[sid].participants.Keys;
        CloseAllSpares(st, Owned(st.sessions[sid].participants[pid]), s, q, x);
        DropSpares(st, sid, pid, s, q, x);
      }
    }
  }

  lemma DropSpares(st: Media, sid: SessionId, pid: ParticipantId, s: SessionId, q: ParticipantId, x: nat)
    requires InSession(st, sid, pid) && (s != sid || q != pid)
    requires HoldsOpen(CloseAll(st, Owned(st.sessions[sid].participants[pid])), s, q, x)
    ensures HoldsOpen(DropParticipant(st, sid, pid), s, q, x)
  {
  }

  /** The participant is the last one of a session that no recording pins. */
  predicate EndsWith(st: Media, sid: SessionId, pid: ParticipantId)
    requires sid in st.sessions
  {
    st.sessions[sid].participants.Keys == {pid} && !st.sessions[sid].recordingActive
  }

  /** Exactly what a departure closes: everything on the router if the session ends with it,
      else what the participant's entry holds, and what stands on that. Anything else the
      participant ever made, and no longer holds, stays open. */
  lemma LeaveClosesExactly(st: Media, sid: SessionId, pid: ParticipantId, x: nat)
    requires EngineOk(st) && InSession(st, sid, pid) && x in st.open
    ensures var owned := Owned(st.sessions[sid].participants[pid]);
      x !in RemoveParticipant(st, sid, pid).open <==>
        if EndsWith(st, sid, pid) then st.open[x].router == st.sessions[sid].router
        else x in owned || exists d :: d in st.open[x].deps && d in owned
  {
    if EndsWith(st, sid, pid) {
      EndSessionOpen(st, sid);
    } else {
      var owned := Owned(st.sessions[sid].participants[pid]);
      assert RemoveParticipant(st, sid, pid).open == OpenAfter(st.open, owned);
      assert st.open[x].deps !! owned <==> !exists d :: d in st.open[x].deps && d in owned;
    }
  }

  /** What a participant held is closed once it is gone. */
  lemma LeaveClosesOwn(st: Media, sid: SessionId, pid: ParticipantId, x: nat)
    requires EngineOk(st) && InSession(st, sid, pid) && x in Owned(st.sessions[sid].participants[pid])
    ensures x !in RemoveParticipant(st, sid, pid).open && !InSession(RemoveParticipant(st, sid, pid), sid, pid)
  {
    OwnedAreNotRouters(st, sid, pid);
    if x in st.open {
      assert ResourceOk(st.open, x);
    }
  }

  /** A transport of the session outlives a departure exactly if the session goes on and the
      entry of whoever departs does not hold it any more. */
  lemma TransportsOutliveLeave(st: Media, sid: SessionId, pid: ParticipantId, x: nat)
    requires EngineOk(st) && OwnersApart(st.open) && InSession(st, sid, pid)
    requires x in st.open && st.open[x].kind.Transport? && st.open[x].router == st.sessions[sid].router
    ensures var p := st.sessions[sid].participants[pid];
      x in RemoveParticipant(st, sid, pid).open <==> !EndsWith(st, sid, pid) && p.send != Some(x) && p.recv != Some(x)
  {
    var p := st.sessions[sid].participants[pid];
    LeaveClosesExactly(st, sid, pid, x);
    assert ParticipantOk(st, st.sessions[sid].router, pid, p) && ResourceOk(st.open, x);
    OwnedAreNotRouters(st, sid, pid);
    assert x in Owned(p) <==> p.send == Some(x) || p.recv == Some(x);
    if !EndsWith(st, sid, pid) {
      assert st.sessions[sid].router in st.open;
      assert st.open[st.sessions[sid].router].kind.Router?;
      assert forall d :: d in st.open[x].deps ==> d !in Owned(p);
    }
  }

  /** So a send transport that a second one has replaced stays open when its owner leaves a
      session that goes on. */
  lemma ReplacedTransportStaysOpen(st: Media, c: ConnId, sid: SessionId, t: nat)
    requires EngineOk(st) && OwnersApart(st.open) && c in st.conns && InSession(st, sid, st.conns[c].who)
    requires t in st.open && st.sessions[sid].participants[st.conns[c].who].send == Some(t)
    requires st.sessions[sid].participants[st.conns[c].who].recv != Some(t) && !EndsWith(st, sid, st.conns[c].who)
    ensures var st' := RemoveParticipant(CreateTransport(st, c, sid, true, true), sid, st.conns[c].who);
      t in st'.open && st'.open[t].owner == st.conns[c].who
  {
    var me, st1 := st.conns[c].who, CreateTransport(st, c, sid, true, true);
    assert ParticipantOk(st, st.sessions[sid].router, me, st.sessions[sid].participants[me]);
    CreateTransportKeepsEngine(st, c, sid, true, true);
    CreateTransportKeepsApart(st, c, sid, true, true);
    assert t < st.nextId;
    assert st1.open[t] == st.open[t];
    assert st1.sessions[sid].participants.Keys == st.sessions[sid].participants.Keys;
    TransportsOutliveLeave(st1, sid, me, t);
  }
}
