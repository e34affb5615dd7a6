/** What every step keeps about sessions and the mediasoup objects they hold. */
module MediaEngine {
  import opened Prelude
  import opened MediaModel
  import opened MediaSteps

  // ---------------------------------------------------------------- invariants

  ghost predicate ResourceOk(open: map<nat, Resource>, r: nat)
    requires r in open
  {
    && open[r].deps <= open.Keys
    && (forall d :: d in open[r].deps ==> open[d].deps <= open[r].deps && open[d].router == open[r].router)
    && (open[r].kind.Router? ==> open[r].router == r && open[r].deps == {})
    && (!open[r].kind.Router? ==> open[r].router in open[r].deps)
  }

  ghost predicate ResourcesOk(open: map<nat, Resource>, nextId: nat) {
    forall r :: r in open ==> r < nextId && ResourceOk(open, r)
  }

  /** An open `x` is of the given kind, made on `router` and by `owner`. */
  ghost predicate Holds(open: map<nat, Resource>, x: nat, kind: Kind, router: nat, owner: ParticipantId) {
    x in open ==> open[x].kind == kind && open[x].router == router && open[x].owner == owner
  }

  ghost predicate ParticipantOk(st: Media, router: nat, pid: ParticipantId, p: Participant) {
    && p.socket in st.conns && st.conns[p.socket].who == pid
    && p.producers <= st.open.Keys && p.consumers <= st.open.Keys
    && (forall x :: x in p.producers ==> Holds(st.open, x, Producer, router, pid))
    && (forall x :: x in p.consumers ==> Holds(st.open, x, Consumer, router, pid))
    && (p.send.Some? ==> p.send.value < st.nextId && Holds(st.open, p.send.value, Transport, router, pid))
    && (p.recv.Some? ==> p.recv.value < st.nextId && Holds(st.open, p.recv.value, Transport, router, pid))
  }

  ghost predicate ParticipantsOk(st: Media) {
    forall sid, pid :: sid in st.sessions && pid in st.sessions[sid].participants ==>
      ParticipantOk(st, st.sessions[sid].router, pid, st.sessions[sid].participants[pid])
  }

  /** Every session has an open router of its own. */
  ghost predicate RoutersOpen(st: Media) {
    && (forall sid :: sid in st.sessions ==>
          st.sessions[sid].router in st.open && st.open[st.sessions[sid].router].kind.Router?)
    && (forall a, b :: a in st.sessions && b in st.sessions && st.sessions[a].router == st.sessions[b].router ==> a == b)
  }

  ghost predicate LiveRouter(sessions: map<SessionId, Session>, router: nat) {
    exists sid :: sid in sessions && sessions[sid].router == router
  }

  /** Everything open belongs to a session that is still there. */
  ghost predicate NothingLeaks(st: Media) {
    forall r :: r in st.open ==> LiveRouter(st.sessions, st.open[r].router)
  }

  ghost predicate EngineOk(st: Media) {
    ResourcesOk(st.open, st.nextId) && ParticipantsOk(st) && RoutersOpen(st) && NothingLeaks(st)
  }

  // ------------------------------------------------------------------- closing

  lemma PruneSessionTwice(s: Session, open1: map<nat, Resource>, open2: map<nat, Resource>)
    requires open2.Keys <= open1.Keys
    ensures PruneSession(PruneSession(s, open1), open2) == PruneSession(s, open2)
  {
    forall q | q in s.participants
      ensures PruneParticipant(PruneParticipant(s.participants[q], open1), open2) == PruneParticipant(s.participants[q], open2)
    {
      var p := PruneParticipant(PruneParticipant(s.participants[q], open1), open2);
      assert p.producers == PruneParticipant(s.participants[q], open2).producers;
      assert p.consumers == PruneParticipant(s.participants[q], open2).consumers;
    }
    assert PruneSession(PruneSession(s, open1), open2).participants == PruneSession(s, open2).participants;
  }

  lemma PruneRecordingTwice(r: Recording, open1: map<nat, Resource>, open2: map<nat, Resource>)
    requires open2.Keys <= open1.Keys
    ensures PruneRecording(PruneRecording(r, open1), open2) == PruneRecording(r, open2)
  {
    assert PruneRecording(PruneRecording(r, open1), open2).tracks == PruneRecording(r, open2).tracks;
  }

  /** Pruning to `open2` hides an earlier pruning to `open1`. */
  lemma PruneAllTwice(st: Media, st1: Media, open2: map<nat, Resource>)
    requires open2.Keys <= st1.open.Keys
    requires st1.sessions == map s | s in st.sessions :: PruneSession(st.sessions[s], st1.open)
    requires st1.recordings == map r | r in st.recordings :: PruneRecording(st.recordings[r], st1.open)
    ensures (map s | s in st1.sessions :: PruneSession(st1.sessions[s], open2)) == map s | s in st.sessions :: PruneSession(st.sessions[s], open2)
    ensures (map r | r in st1.recordings :: PruneRecording(st1.recordings[r], open2)) == map r | r in st.recordings :: PruneRecording(st.recordings[r], open2)
  {
    forall s | s in st.sessions
      ensures PruneSession(st1.sessions[s], open2) == PruneSession(st.sessions[s], open2)
    {
      PruneSessionTwice(st.sessions[s], st1.open, open2);
    }
    forall r | r in st.recordings
      ensures PruneRecording(st1.recordings[r], open2) == PruneRecording(st.recordings[r], open2)
    {
      PruneRecordingTwice(st.recordings[r], st1.open, open2);
    }
  }

  /** Closing one thing after another is closing them together. */
  lemma CloseAllTwice(st: Media, a: set<nat>, b: set<nat>)
    ensures CloseAll(CloseAll(st, a), b) == CloseAll(st, a + b)
  {
    var st1 := CloseAll(st, a);
    assert OpenAfter(OpenAfter(st.open, a), b) == OpenAfter(st.open, a + b);
    PruneAllTwice(st, st1, OpenAfter(st.open, a + b));
  }

  lemma OpenAfterOk(open: map<nat, Resource>, ids: set<nat>, nextId: nat)
    requires ResourcesOk(open, nextId)
    ensures ResourcesOk(OpenAfter(open, ids), nextId)
  {
    var open' := OpenAfter(open, ids);
    forall r | r in open'
      ensures r < nextId && ResourceOk(open', r)
    {
      assert ResourceOk(open, r);
      forall d | d in open'[r].deps
        ensures d in open'
      {
        assert open[d].deps <= open[r].deps;
      }
    }
  }

  lemma CloseAllParticipantsOk(st: Media, ids: set<nat>)
    requires ParticipantsOk(st)
    ensures ParticipantsOk(CloseAll(st, ids))
  {
    var st' := CloseAll(st, ids);
    forall sid, pid | sid in st'.sessions && pid in st'.sessions[sid].participants
      ensures ParticipantOk(st', st'.sessions[sid].router, pid, st'.sessions[sid].participants[pid])
    {
      PrunedParticipantOk(st, ids, st.sessions[sid].router, pid, st.sessions[sid].participants[pid]);
    }
  }

  lemma PrunedParticipantOk(st: Media, ids: set<nat>, router: nat, pid: ParticipantId, p: Participant)
    requires ParticipantOk(st, router, pid, p)
    ensures ParticipantOk(CloseAll(st, ids), router, pid, PruneParticipant(p, OpenAfter(st.open, ids)))
  {
  }

  /** Routers survive unless they are among the things closed. */
  lemma CloseAllRouters(st: Media, ids: set<nat>)
    requires EngineOk(st)
    requires forall x :: x in ids && x in st.open ==> !st.open[x].kind.Router?
    ensures EngineOk(CloseAll(st, ids))
  {
    OpenAfterOk(st.open, ids, st.nextId);
    CloseAllParticipantsOk(st, ids);
    var st' := CloseAll(st, ids);
    forall sid | sid in st'.sessions
      ensures st'.sessions[sid].router in st'.open && st'.open[st'.sessions[sid].router].kind.Router?
    {
      assert ResourceOk(st.open, st.sessions[sid].router);
    }
    forall r | r in st'.open
      ensures LiveRouter(st'.sessions, st'.open[r].router)
    {
      var sid :| sid in st.sessions && st.sessions[sid].router == st.open[r].router;
      assert st'.sessions[sid].router == st'.open[r].router;
    }
  }

  lemma OwnedAreNotRouters(st: Media, sid: SessionId, pid: ParticipantId)
    requires ParticipantsOk(st) && InSession(st, sid, pid)
    ensures forall x :: x in Owned(st.sessions[sid].participants[pid]) && x in st.open ==>
      !st.open[x].kind.Router? && st.open[x].router == st.sessions[sid].router && st.open[x].owner == pid
  {
    assert ParticipantOk(st, st.sessions[sid].router, pid, st.sessions[sid].participants[pid]);
  }

  lemma DropKeepsEngine(st: Media, sid: SessionId, pid: ParticipantId)
    requires EngineOk(st) && InSession(st, sid, pid)
    ensures EngineOk(DropParticipant(st, sid, pid))
  {
    hide RoutersOpen, NothingLeaks, ResourcesOk;
    OwnedAreNotRouters(st, sid, pid);
    CloseAllRouters(st, Owned(st.sessions[sid].participants[pid]));
    var st1, st' := CloseAll(st, Owned(st.sessions[sid].participants[pid])), DropParticipant(st, sid, pid);
    forall s, q | s in st'.sessions && q in st'.sessions[s].participants
      ensures ParticipantOk(st', st'.sessions[s].router, q, st'.sessions[s].participants[q])
    {
      assert ParticipantOk(st1, st1.sessions[s].router, q, st1.sessions[s].participants[q]);
    }
    SameRouters(st1, st');
  }

  /** Sessions may change in anything but their routers. */
  lemma SameRouters(st: Media, st': Media)
    requires st.open == st'.open && st.sessions.Keys == st'.sessions.Keys
    requires forall s :: s in st.sessions ==> st.sessions[s].router == st'.sessions[s].router
    requires RoutersOpen(st) && NothingLeaks(st)
    ensures RoutersOpen(st') && NothingLeaks(st')
  {
    SameRoutersLeakNothing(st, st');
  }

  lemma SameRoutersLeakNothing(st: Media, st': Media)
    requires st.open == st'.open && st.sessions.Keys == st'.sessions.Keys
    requires forall s :: s in st.sessions ==> st.sessions[s].router == st'.sessions[s].router
    requires NothingLeaks(st)
    ensures NothingLeaks(st')
  {
    forall r | r in st'.open
      ensures LiveRouter(st'.sessions, st'.open[r].router)
    {
      var s :| s in st.sessions && st.sessions[s].router == st.open[r].router;
      assert st'.sessions[s].router == st'.open[r].router;
    }
  }

  /** What ending a session leaves open is exactly what other sessions made. */
  lemma EndSessionOpen(st: Media, sid: SessionId)
    requires EngineOk(st) && sid in st.sessions
    ensures forall r :: r in EndSession(st, sid).open <==> r in st.open && st.open[r].router != st.sessions[sid].router
  {
    var router := st.sessions[sid].router;
    assert ResourceOk(st.open, router);
    forall r | r in st.open
      ensures r in EndSession(st, sid).open <==> st.open[r].router != router
    {
      assert ResourceOk(st.open, r);
    }
  }

  lemma EndSessionKeepsEngine(st: Media, sid: SessionId)
    requires EngineOk(st)
    ensures EngineOk(EndSession(st, sid))
  {
    if sid in st.sessions {
      EndSessionOpen(st, sid);
      var ids := {st.sessions[sid].router};
      OpenAfterOk(st.open, ids, st.nextId);
      CloseAllParticipantsOk(st, ids);
      var st1, st' := CloseAll(st, ids), EndSession(st, sid);
      forall s, q | s in st'.sessions && q in st'.sessions[s].participants
        ensures ParticipantOk(st', st'.sessions[s].router, q, st'.sessions[s].participants[q])
      {
        assert ParticipantOk(st1, st1.sessions[s].router, q, st1.sessions[s].participants[q]);
      }
      forall s | s in st'.sessions
        ensures st'.sessions[s].router in st'.open && st'.open[st'.sessions[s].router].kind.Router?
      {
        assert ResourceOk(st.open, st.sessions[s].router);
      }
      forall r | r in st'.open
        ensures LiveRouter(st'.sessions, st'.open[r].router)
      {
        var s :| s in st.sessions && st.sessions[s].router == st.open[r].router;
        assert st'.sessions[s].router == st'.open[r].router;
      }
    }
  }

  lemma RemoveKeepsEngine(st: Media, sid: SessionId, pid: ParticipantId)
    requires EngineOk(st)
    ensures EngineOk(RemoveParticipant(st, sid, pid))
  {
    if InSession(st, sid, pid) {
      EndSessionKeepsEngine(st, sid);
      DropKeepsEngine(st, sid, pid);
    }
  }

  /** Whatever a participant holds dies with the router anyway. */
  lemma OwnedDieWithRouter(st: Media, sid: SessionId, pid: ParticipantId)
    requires EngineOk(st) && InSession(st, sid, pid)
    ensures OpenAfter(st.open, Owned(st.sessions[sid].participants[pid]) + {st.sessions[sid].router})
         == OpenAfter(st.open, {st.sessions[sid].router})
  {
    var router, ids := st.sessions[sid].router, Owned(st.sessions[sid].participants[pid]);
    OwnedAreNotRouters(st, sid, pid);
    forall r, x | r in st.open && x in ids && (x == r || x in st.open[r].deps)
      ensures router in st.open[r].deps
    {
      assert ResourceOk(st.open, r) && ResourceOk(st.open, x);
    }
  }

  /** A participant's leave does not change what ending the session achieves. */
  lemma DropThenEnd(st: Media, sid: SessionId, pid: ParticipantId)
    requires EngineOk(st) && InSession(st, sid, pid)
    ensures EndSession(DropParticipant(st, sid, pid), sid) == EndSession(st, sid)
  {
    var ids, router := Owned(st.sessions[sid].participants[pid]), {st.sessions[sid].router};
    var st1 := CloseAll(st, ids);
    var a, b := EndSession(DropParticipant(st, sid, pid), sid), EndSession(st, sid);
    OwnedDieWithRouter(st, sid, pid);
    CloseAllTwice(st, ids, router);
    assert CloseAll(st1, router) == CloseAll(st, router);
    assert a.open == CloseAll(st1, router).open;
    assert a.recordings == CloseAll(st1, router).recordings;
    assert a.sessions == CloseAll(st1, router).sessions - {sid};
    assert b.sessions == CloseAll(st, router).sessions - {sid};
  }

  // ------------------------------------------------------------- the other steps

  /** Sockets come and change, but none forgets whose it is. */
  ghost predicate SameOwners(conns: map<ConnId, Conn>, conns': map<ConnId, Conn>) {
    forall c :: c in conns ==> c in conns' && conns'[c].who == conns[c].who
  }

  /** Everything but sockets, recordings and events is as it was. */
  lemma SameEngine(st: Media, st': Media)
    requires EngineOk(st)
    requires st'.sessions == st.sessions && st'.open == st.open && st'.nextId == st.nextId
    requires SameOwners(st.conns, st'.conns)
    ensures EngineOk(st')
  {
    forall sid, pid | sid in st'.sessions && pid in st'.sessions[sid].participants
      ensures ParticipantOk(st', st'.sessions[sid].router, pid, st'.sessions[sid].participants[pid])
    {
      assert ParticipantOk(st, st.sessions[sid].router, pid, st.sessions[sid].participants[pid]);
    }
    assert NothingLeaks(st');
  }

  lemma DeliverKeepsEngine(st: Media, to: set<ConnId>, m: Message)
    requires EngineOk(st)
    ensures EngineOk(Deliver(st, to, m))
  {
    SameEngine(st, Deliver(st, to, m));
  }

  lemma NotifyKeepsEngine(st: Media, sid: SessionId, except: Option<ParticipantId>, m: Message)
    requires EngineOk(st)
    ensures EngineOk(Notify(st, sid, except, m))
  {
    SameEngine(st, Notify(st, sid, except, m));
  }

  lemma WithParticipantKeepsEngine(st: Media, sid: SessionId, pid: ParticipantId, p: Participant)
    requires EngineOk(st) && sid in st.sessions
    requires ParticipantOk(st, st.sessions[sid].router, pid, p)
    ensures EngineOk(WithParticipant(st, sid, pid, p))
  {
    var st' := WithParticipant(st, sid, pid, p);
    forall s, q | s in st'.sessions && q in st'.sessions[s].participants
      ensures ParticipantOk(st', st'.sessions[s].router, q, st'.sessions[s].participants[q])
    {
      if s != sid || q != pid {
        assert ParticipantOk(st, st.sessions[s].router, q, st.sessions[s].participants[q]);
      }
    }
    SameRouters(st, st');
  }

  /** A fresh object made on the router of a session. */
  lemma MakeKeepsEngine(st: Media, sid: SessionId, kind: Kind, owner: ParticipantId, deps: set<nat>)
    requires EngineOk(st) && sid in st.sessions && !kind.Router?
    requires deps <= st.open.Keys && st.sessions[sid].router in deps
    requires forall d :: d in deps ==> st.open[d].router == st.sessions[sid].router && st.open[d].deps <= deps
    ensures EngineOk(Make(st, sid, kind, owner, deps))
  {
    var st' := Make(st, sid, kind, owner, deps);
    forall r | r in st'.open
      ensures r < st'.nextId && ResourceOk(st'.open, r)
    {
      if r in st.open {
        assert ResourceOk(st.open, r);
      }
    }
    forall s, q | s in st'.sessions && q in st'.sessions[s].participants
      ensures ParticipantOk(st', st'.sessions[s].router, q, st'.sessions[s].participants[q])
    {
      assert ParticipantOk(st, st.sessions[s].router, q, st.sessions[s].participants[q]);
    }
    forall r | r in st'.open
      ensures LiveRouter(st'.sessions, st'.open[r].router)
    {
      if r in st.open {
        assert LiveRouter(st.sessions, st.open[r].router);
      }
    }
  }

  /** A participant comes to hold one more object of some kind. */
  ghost predicate Gains(p: Participant, p': Participant, kind: Kind, id: nat) {
    || (kind.Transport? && p' == p.(send := Some(id)))
    || (kind.Transport? && p' == p.(recv := Some(id)))
    || (kind.Producer? && p' == p.(producers := p.producers + {id}))
    || (kind.Consumer? && p' == p.(consumers := p.consumers + {id}))
  }

  lemma GainKeepsParticipant(st: Media, st': Media, router: nat, pid: ParticipantId, p: Participant, p': Participant, kind: Kind)
    requires ParticipantOk(st, router, pid, p) && Gains(p, p', kind, st.nextId)
    requires st.nextId !in st.open && st'.conns == st.conns && st'.nextId == st.nextId + 1
    requires exists deps :: st'.open == st.open[st.nextId := Resource(kind, router, pid, deps)]
    ensures ParticipantOk(st', router, pid, p')
  {
  }

  /** Making an object and handing it to a participant, whatever sockets, recordings
      and events do meanwhile. */
  lemma HandOutKeepsEngine(st: Media, sid: SessionId, kind: Kind, pid: ParticipantId, deps: set<nat>, p': Participant, st': Media)
    requires EngineOk(st) && InSession(st, sid, pid) && !kind.Router?
    requires deps <= st.open.Keys && st.sessions[sid].router in deps
    requires forall d :: d in deps ==> st.open[d].router == st.sessions[sid].router && st.open[d].deps <= deps
    requires Gains(st.sessions[sid].participants[pid], p', kind, st.nextId)
    requires st'.sessions == WithParticipant(st, sid, pid, p').sessions
    requires st'.open == Make(st, sid, kind, pid, deps).open && st'.nextId == st.nextId + 1
    requires SameOwners(st.conns, st'.conns)
    ensures EngineOk(st')
  {
    MakeKeepsEngine(st, sid, kind, pid, deps);
    var st1 := Make(st, sid, kind, pid, deps);
    GainKeepsParticipant(st, st1, st.sessions[sid].router, pid, st.sessions[sid].participants[pid], p', kind);
    WithParticipantKeepsEngine(st1, sid, pid, p');
    SameEngine(WithParticipant(st1, sid, pid, p'), st');
  }

  /** An object that is no router stands below its router, and above what it stands on. */
  lemma DepsOfHeld(st: Media, x: nat)
    requires ResourcesOk(st.open, st.nextId) && x in st.open && !st.open[x].kind.Router?
    ensures st.open[x].router in st.open[x].deps && st.open[x].deps <= st.open.Keys
    ensures forall d :: d in st.open[x].deps ==> st.open[d].router == st.open[x].router && st.open[d].deps <= st.open[x].deps
  {
    assert ResourceOk(st.open, x);
  }

  lemma CreateSessionKeepsEngine(st: Media, sid: SessionId)
    requires EngineOk(st)
    ensures EngineOk(CreateSession(st, sid))
  {
    hide ParticipantsOk, NothingLeaks;
    var st' := CreateSession(st, sid);
    if sid !in st.sessions {
      forall r | r in st'.open
        ensures r < st'.nextId && ResourceOk(st'.open, r)
      {
        if r in st.open {
          assert ResourceOk(st.open, r);
        }
      }
      NewSessionKeepsParticipants(st, sid);
      NewSessionLeaksNothing(st, sid);
    }
  }

  lemma NewSessionKeepsParticipants(st: Media, sid: SessionId)
    requires ParticipantsOk(st) && ResourcesOk(st.open, st.nextId) && sid !in st.sessions
    ensures ParticipantsOk(CreateSession(st, sid))
  {
    var st' := CreateSession(st, sid);
    forall s, q | s in st'.sessions && q in st'.sessions[s].participants
      ensures ParticipantOk(st', st'.sessions[s].router, q, st'.sessions[s].participants[q])
    {
      assert ParticipantOk(st, st.sessions[s].router, q, st.sessions[s].participants[q]);
    }
  }

  lemma NewSessionLeaksNothing(st: Media, sid: SessionId)
    requires NothingLeaks(st) && sid !in st.sessions
    ensures NothingLeaks(CreateSession(st, sid))
  {
    var st' := CreateSession(st, sid);
    forall r | r in st'.open
      ensures LiveRouter(st'.sessions, st'.open[r].router)
    {
      if r in st.open && r != st.nextId {
        var s :| s in st.sessions && st.sessions[s].router == st.open[r].router;
        assert st'.sessions[s].router == st'.open[r].router;
      } else {
        assert st'.sessions[sid].router == st'.open[r].router;
      }
    }
  }

  lemma JoinKeepsEngine(st: Media, c: ConnId, sid: SessionId, routerOk: bool)
    requires EngineOk(st) && c in st.conns
    ensures EngineOk(Join(st, c, sid, routerOk))
  {
    hide EngineOk, Sockets, Others, ProducersOfOthers;
    if sid !in st.sessions && !routerOk {
      DeliverKeepsEngine(st, {c}, Reply(false));
    } else {
      var me := st.conns[c].who;
      CreateSessionKeepsEngine(st, sid);
      var st1 := WithActive(CreateSession(st, sid), c, Some(sid));
      SameEngine(CreateSession(st, sid), st1);
      var st2 := WithParticipant(st1, sid, me, Newcomer(st.conns[c], c));
      WithParticipantKeepsEngine(st1, sid, me, Newcomer(st.conns[c], c));
      SameEngine(st2, Join(st, c, sid, routerOk));
    }
  }

  lemma CreateTransportKeepsEngine(st: Media, c: ConnId, sid: SessionId, send: bool, ok: bool)
    requires EngineOk(st) && c in st.conns
    ensures EngineOk(CreateTransport(st, c, sid, send, ok))
  {
    var st' := CreateTransport(st, c, sid, send, ok);
    if sid !in st.sessions || !ok {
      SameEngine(st, st');
    } else {
      var me, s, id := st.conns[c].who, st.sessions[sid], st.nextId;
      assert ResourceOk(st.open, s.router);
      if me !in s.participants {
        MakeKeepsEngine(st, sid, Transport, me, {s.router});
        SameEngine(Make(st, sid, Transport, me, {s.router}), st');
      } else {
        var p := s.participants[me];
        HandOutKeepsEngine(st, sid, Transport, me, {s.router}, if send then p.(send := Some(id)) else p.(recv := Some(id)), st');
      }
    }
  }

  /** What producing does to all but recordings and events. */
  lemma Produced(st: Media, c: ConnId, sid: SessionId, tapOk: bool, st': Media)
    requires c in st.conns && CanProduce(st, sid, st.conns[c].who) && st' == Produce(st, c, sid, true, tapOk)
    ensures var me, p := st.conns[c].who, st.sessions[sid].participants[st.conns[c].who];
      && st'.sessions == WithParticipant(st, sid, me, p.(producers := p.producers + {st.nextId})).sessions
      && st'.open == Make(st, sid, Producer, me, {p.send.value} + st.open[p.send.value].deps).open
    ensures st'.nextId == st.nextId + 1 && SameOwners(st.conns, st'.conns)
  {
  }

  lemma ProduceKeepsEngine(st: Media, c: ConnId, sid: SessionId, ok: bool, tapOk: bool)
    requires EngineOk(st) && c in st.conns
    ensures EngineOk(Produce(st, c, sid, ok, tapOk))
  {
    var me := st.conns[c].who;
    var st' := Produce(st, c, sid, ok, tapOk);
    if !CanProduce(st, sid, me) || !ok {
      SameEngine(st, st');
    } else {
      hide RoutersOpen, NothingLeaks, Produce, SameOwners;
      var p := st.sessions[sid].participants[me];
      var t := p.send.value;
      assert ParticipantOk(st, st.sessions[sid].router, me, p);
      DepsOfHeld(st, t);
      Produced(st, c, sid, tapOk, st');
      HandOutKeepsEngine(st, sid, Producer, me, {t} + st.open[t].deps, p.(producers := p.producers + {st.nextId}), st');
    }
  }

  lemma ConsumeKeepsEngine(st: Media, c: ConnId, sid: SessionId, producer: nat, ok: bool)
    requires EngineOk(st) && c in st.conns
    ensures EngineOk(Consume(st, c, sid, producer, ok))
  {
    hide RoutersOpen, NothingLeaks;
    var me := st.conns[c].who;
    var st' := Consume(st, c, sid, producer, ok);
    if !CanConsume(st, sid, me, producer) || !ok {
      SameEngine(st, st');
    } else {
      var p := st.sessions[sid].participants[me];
      var t := p.recv.value;
      assert ParticipantOk(st, st.sessions[sid].router, me, p);
      DepsOfHeld(st, t);
      DepsOfHeld(st, producer);
      var deps := {t, producer} + st.open[t].deps + st.open[producer].deps;
      HandOutKeepsEngine(st, sid, Consumer, me, deps, p.(consumers := p.consumers + {st.nextId}), st');
    }
  }

  lemma LeaveKeepsEngine(st: Media, c: ConnId, sid: SessionId)
    requires EngineOk(st) && c in st.conns
    ensures EngineOk(Leave(st, c, sid))
  {
    hide EngineOk;
    var me := st.conns[c].who;
    SameEngine(st, WithActive(st, c, None));
    RemoveKeepsEngine(WithActive(st, c, None), sid, me);
    SameEngine(RemoveParticipant(WithActive(st, c, None), sid, me), Leave(st, c, sid));
  }

  lemma MuteKeepsEngine(st: Media, sid: SessionId, pid: ParticipantId, audio: Option<bool>, video: Option<bool>)
    requires EngineOk(st) && InSession(st, sid, pid)
    ensures EngineOk(WithParticipant(st, sid, pid, Muted(st.sessions[sid].participants[pid], audio, video)))
  {
    assert ParticipantOk(st, st.sessions[sid].router, pid, st.sessions[sid].participants[pid]);
    WithParticipantKeepsEngine(st, sid, pid, Muted(st.sessions[sid].participants[pid], audio, video));
  }

  lemma SetMuteKeepsEngine(st: Media, c: ConnId, sid: SessionId, audio: Option<bool>, video: Option<bool>)
    requires EngineOk(st) && c in st.conns
    ensures EngineOk(SetMute(st, c, sid, audio, video))
  {
    hide EngineOk;
    var me := st.conns[c].who;
    if !InSession(st, sid, me) {
      SameEngine(st, SetMute(st, c, sid, audio, video));
    } else {
      var p := Muted(st.sessions[sid].participants[me], audio, video);
      MuteKeepsEngine(st, sid, me, audio, video);
      SameEngine(WithParticipant(st, sid, me, p), SetMute(st, c, sid, audio, video));
    }
  }

  lemma CloseSocketKeepsEngine(st: Media, c: ConnId)
    requires EngineOk(st) && c in st.conns
    ensures EngineOk(CloseSocket(st, c))
  {
    hide EngineOk;
    var conn := st.conns[c];
    var st1 := st.(conns := st.conns[c := conn.(phase := Closed)]);
    SameEngine(st, st1);
    if conn.active.Some? {
      RemoveKeepsEngine(st1, conn.active.value, conn.who);
      NotifyKeepsEngine(RemoveParticipant(st1, conn.active.value, conn.who), conn.active.value, Some(conn.who), ParticipantLeft(conn.who));
    }
  }

  lemma KickKeepsEngine(st: Media, sid: SessionId, pid: ParticipantId)
    requires EngineOk(st)
    ensures EngineOk(Kick(st, sid, pid))
  {
    hide EngineOk;
    if InSession(st, sid, pid) {
      var c := st.sessions[sid].participants[pid].socket;
      var st1 := Deliver(st, {c}, ModeratorKicked(pid));
      var st2 := if c in st1.conns && st1.conns[c].phase.Open?
                 then st1.(conns := st1.conns[c := st1.conns[c].(phase := Closing)]) else st1;
      SameEngine(st, st2);
      RemoveKeepsEngine(st2, sid, pid);
      NotifyKeepsEngine(RemoveParticipant(st2, sid, pid), sid, None, ParticipantLeft(pid));
    }
  }

  lemma ModerateMuteKeepsEngine(st: Media, sid: SessionId, pid: ParticipantId, audio: Option<bool>, video: Option<bool>)
    requires EngineOk(st)
    ensures EngineOk(ModerateMute(st, sid, pid, audio, video))
  {
    hide EngineOk;
    if InSession(st, sid, pid) {
      var p := Muted(st.sessions[sid].participants[pid], audio, video);
      MuteKeepsEngine(st, sid, pid, audio, video);
      SameEngine(WithParticipant(st, sid, pid, p), ModerateMute(st, sid, pid, audio, video));
    }
  }

  /** Recordings touch a session's flag and nothing else the engine knows. */
  lemma FlagKeepsEngine(st: Media, sid: SessionId, active: bool)
    requires EngineOk(st)
    ensures EngineOk(WithRecordingActive(st, sid, active))
  {
    var st' := WithRecordingActive(st, sid, active);
    forall s, q | s in st'.sessions && q in st'.sessions[s].participants
      ensures ParticipantOk(st', st'.sessions[s].router, q, st'.sessions[s].participants[q])
    {
      assert ParticipantOk(st, st.sessions[s].router, q, st.sessions[s].participants[q]);
    }
    SameRouters(st, st');
  }

  lemma StartKeepsEngine(st: Media, sid: SessionId, rid: RecordingId, dirOk: bool, noTap: set<nat>)
    requires EngineOk(st)
    ensures EngineOk(StartRecording(st, sid, rid, dirOk, noTap))
  {
    FlagKeepsEngine(st, sid, true);
    var st' := StartRecording(st, sid, rid, dirOk, noTap);
    if st'.sessions == st.sessions {
      SameEngine(st, st');
    } else {
      SameEngine(WithRecordingActive(st, sid, true), st');
    }
  }

  lemma StopKeepsEngine(st: Media, rid: RecordingId, rejects: set<nat>, archiveOk: bool)
    requires EngineOk(st)
    ensures EngineOk(StopRecording(st, rid, rejects, archiveOk))
  {
    if rid in st.recordings {
      FlagKeepsEngine(st, st.recordings[rid].sessionId, false);
      SameEngine(WithRecordingActive(st, st.recordings[rid].sessionId, false), StopRecording(st, rid, rejects, archiveOk));
    }
  }

  lemma StepKeepsEngine(st: Media, command: Command)
    requires EngineOk(st)
    ensures EngineOk(Step(st, command))
  {
    match command
    case Connect(c, who, profile) => SameEngine(st, Step(st, command));
    case Signal(c, sid, request) =>
      if Speaks(st, c) {
        match request
        case JoinSession(routerOk) => JoinKeepsEngine(st, c, sid, routerOk);
        case NewTransport(send, ok) => CreateTransportKeepsEngine(st, c, sid, send, ok);
        case NewProducerOn(ok, tapOk) => ProduceKeepsEngine(st, c, sid, ok, tapOk);
        case NewConsumer(producer, ok) => ConsumeKeepsEngine(st, c, sid, producer, ok);
        case LeaveSession => LeaveKeepsEngine(st, c, sid);
        case MuteSelf(audio, video) => SetMuteKeepsEngine(st, c, sid, audio, video);
      }
    case SocketClosed(c) => if Speaks(st, c) { CloseSocketKeepsEngine(st, c); }
    case End(sid, rejects, archiveOk) =>
      if sid in st.recordingOf {
        StopKeepsEngine(st, st.recordingOf[sid], rejects, archiveOk);
      }
      EndSessionKeepsEngine(StopRecordingBySession(st, sid, rejects, archiveOk), sid);
    case KickOut(sid, pid) => KickKeepsEngine(st, sid, pid);
    case Mute(sid, pid, audio, video) => ModerateMuteKeepsEngine(st, sid, pid, audio, video);
    case RecordingStart(sid, rid, dirOk, noTap) => StartKeepsEngine(st, sid, rid, dirOk, noTap);
    case RecordingStop(rid, rejects, archiveOk) => StopKeepsEngine(st, rid, rejects, archiveOk);
  }
}
