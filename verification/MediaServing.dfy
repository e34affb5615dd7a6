/**
 The media call server at work: the session manager, the signaling handler, the recording
 manager and the command handler, on the maps they share. Each method does its work one
 object and one loop at a time, and is proved to achieve the step of MediaSteps that bears
 its name.
 */
module MediaServing {
  import opened Prelude
  import opened MediaModel
  import opened MediaEngine
  import opened MediaCoverage
  import Steps = MediaSteps

  lemma NothingToClose(st: Media)
    requires ParticipantsOk(st) && TracksLive(st)
    ensures CloseAll(st, {}) == st
  {
    var st' := CloseAll(st, {});
    assert st'.open == st.open;
    forall sid | sid in st.sessions
      ensures st'.sessions[sid] == st.sessions[sid]
    {
      forall q | q in st.sessions[sid].participants
        ensures PruneParticipant(st.sessions[sid].participants[q], st.open) == st.sessions[sid].participants[q]
      {
        assert ParticipantOk(st, st.sessions[sid].router, q, st.sessions[sid].participants[q]);
        var p := PruneParticipant(st.sessions[sid].participants[q], st.open);
        assert p.producers == st.sessions[sid].participants[q].producers;
        assert p.consumers == st.sessions[sid].participants[q].consumers;
      }
      assert st'.sessions[sid].participants == st.sessions[sid].participants;
    }
    assert st'.sessions == st.sessions;
    forall rid | rid in st.recordings
      ensures st'.recordings[rid] == st.recordings[rid]
    {
      forall x | x in st.recordings[rid].tracks
        ensures st'.recordings[rid].tracks[x] == st.recordings[rid].tracks[x]
      {
        assert x in RunningTracks(st.recordings[rid]) ==> x in st.open;
      }
      assert st'.recordings[rid].tracks == st.recordings[rid].tracks;
    }
    assert st'.recordings == st.recordings;
  }

  /** A session's sockets are one per participant. */
  lemma OwnSockets(st: Media, sid: SessionId, a: ParticipantId, b: ParticipantId)
    requires ParticipantsOk(st) && Steps.InSession(st, sid, a) && Steps.InSession(st, sid, b)
    requires st.sessions[sid].participants[a].socket == st.sessions[sid].participants[b].socket
    ensures a == b
  {
    var s := st.sessions[sid];
    assert ParticipantOk(st, s.router, a, s.participants[a]) && ParticipantOk(st, s.router, b, s.participants[b]);
  }

  class MediaServer {
    var conns: map<ConnId, Conn>
    var sessions: map<SessionId, Session>
    var open: map<nat, Resource>
    var recordings: map<RecordingId, Recording>
    var recordingOf: map<SessionId, RecordingId>
    var published: seq<Event>
    var nextId: nat

    ghost function St(): Media
      reads this
    {
      Media(conns, sessions, open, recordings, recordingOf, published, nextId)
    }

    ghost predicate Valid()
      reads this
    {
      EngineOk(St()) && TracksLive(St())
    }

    constructor ()
      ensures St() == EMPTY && Valid()
    {
      conns, sessions, open, recordings := map[], map[], map[], map[];
      recordingOf, published, nextId := map[], [], 0;
    }

    // ----------------------------------------------------------------- mediasoup

    /** Closes one mediasoup object; its close cascades and every listener runs. */
    method Close(id: nat)
      modifies this`open, this`sessions, this`recordings
      ensures St() == CloseAll(old(St()), {id})
    {
      open := map r | r in open && r != id && id !in open[r].deps :: open[r];
      assert open == OpenAfter(old(open), {id});
      sessions := map s | s in sessions :: PruneSession(sessions[s], open);
      recordings := map r | r in recordings :: PruneRecording(recordings[r], open);
    }

    method CloseEach(ids: set<nat>)
      requires Valid()
      modifies this`open, this`sessions, this`recordings
      ensures St() == CloseAll(old(St()), ids)
    {
      ghost var st := St();
      NothingToClose(st);
      var pending := ids;
      assert ids - pending == {};
      while pending != {}
        invariant pending <= ids
        invariant St() == CloseAll(st, ids - pending)
      {
        var id :| id in pending;
        CloseAllTwice(st, ids - pending, {id});
        assert ids - pending + {id} == ids - (pending - {id});
        pending := pending - {id};
        Close(id);
      }
      assert ids - pending == ids;
    }

    // ------------------------------------------------------------ session manager

    method CreateSession(sid: SessionId, routerOk: bool) returns (ok: bool)
      modifies this`open, this`sessions, this`nextId
      ensures ok == (sid in old(sessions) || routerOk)
      ensures St() == if ok then Steps.CreateSession(old(St()), sid) else old(St())
    {
      if sid in sessions {
        return true;
      }
      if !routerOk {
        return false;
      }
      open := open[nextId := Resource(Router, nextId, 0, {})];
      sessions := sessions[sid := Session(nextId, false, map[])];
      nextId := nextId + 1;
      return true;
    }

    method AddParticipant(sid: SessionId, pid: ParticipantId, p: Participant) returns (ok: bool)
      modifies this`sessions
      ensures ok == (sid in old(sessions))
      ensures St() == if ok then Steps.WithParticipant(old(St()), sid, pid, p) else old(St())
    {
      if sid !in sessions {
        return false;
      }
      var s := sessions[sid];
      sessions := sessions[sid := s.(participants := s.participants[pid := p])];
      return true;
    }

    static function Seats(st: Media, sid: SessionId): set<ParticipantId> {
      if sid in st.sessions then st.sessions[sid].participants.Keys else {}
    }

    /** Takes a participant's entry out, once its objects are closed. */
    method DropEntry(sid: SessionId, pid: ParticipantId)
      requires Valid() && Steps.InSession(St(), sid, pid)
      modifies this`open, this`sessions, this`recordings
      ensures Valid() && St() == Steps.DropParticipant(old(St()), sid, pid)
      ensures sid in sessions && sessions[sid].participants.Keys == old(sessions[sid].participants.Keys) - {pid}
      ensures sessions[sid].recordingActive == old(sessions[sid].recordingActive)
    {
      DropKeepsEngine(St(), sid, pid);
      CloseEach(Owned(sessions[sid].participants[pid]));
      var s := sessions[sid];
      sessions := sessions[sid := s.(participants := s.participants - {pid})];
    }

    /** Closes the participant's objects one by one; the last one out ends the session
        unless it is recorded. */
    method RemoveParticipant(sid: SessionId, pid: ParticipantId)
      requires Valid()
      modifies this`open, this`sessions, this`recordings
      ensures Valid() && St() == Steps.RemoveParticipant(old(St()), sid, pid)
      decreases |Seats(St(), sid)|, 0
    {
      ghost var st := St();
      if sid !in sessions || pid !in sessions[sid].participants {
        return;
      }
      DropEntry(sid, pid);
      if sessions[sid].participants.Keys == {} && !sessions[sid].recordingActive {
        DropThenEnd(st, sid, pid);
        assert Seats(st, sid) == {pid};
        EndSession(sid);
      }
    }

    /** Removing somebody first does not change what ending the session achieves. */
    static lemma RemoveThenEnd(st: Media, sid: SessionId, pid: ParticipantId)
      requires EngineOk(st)
      ensures Steps.EndSession(Steps.RemoveParticipant(st, sid, pid), sid) == Steps.EndSession(st, sid)
      ensures sid in Steps.RemoveParticipant(st, sid, pid).sessions ==>
        Seats(Steps.RemoveParticipant(st, sid, pid), sid) == Seats(st, sid) - {pid}
      ensures |Seats(Steps.RemoveParticipant(st, sid, pid), sid)| <= |Seats(st, sid)|
    {
      hide EngineOk, CloseAll;
      if Steps.InSession(st, sid, pid) {
        DropThenEnd(st, sid, pid);
        DropVacates(st, sid, pid);
      }
    }

    static lemma DropVacates(st: Media, sid: SessionId, pid: ParticipantId)
      requires Steps.InSession(st, sid, pid)
      ensures Seats(Steps.DropParticipant(st, sid, pid), sid) == Seats(st, sid) - {pid}
    {
    }

    /** Removes the participants one by one, which may end the session before the loop is
        over, and ends what is left. */
    method EndSession(sid: SessionId)
      requires Valid()
      modifies this`open, this`sessions, this`recordings
      ensures Valid() && St() == Steps.EndSession(old(St()), sid)
      decreases |Seats(St(), sid)|, 1
    {
      ghost var st := St();
      if sid !in sessions {
        return;
      }
      hide Steps.EndSession, EngineOk, TracksLive;
      var pending: set<ParticipantId> := sessions[sid].participants.Keys;
      while pending != {}
        invariant Valid()
        invariant Steps.EndSession(St(), sid) == Steps.EndSession(st, sid)
        invariant sid in sessions ==> sessions[sid].participants.Keys == pending
        invariant |Seats(St(), sid)| <= |Seats(st, sid)|
      {
        var pid := PickOne(pending);
        pending := pending - {pid};
        RemoveThenEnd(St(), sid, pid);
        RemoveParticipant(sid, pid);
      }
      EndSessionKeepsEngine(St(), sid);
      EndKeepsTracksLive(St(), sid);
      CloseRouter(sid);
    }

    /** Closes the router, unless the loop has ended the session already. */
    method CloseRouter(sid: SessionId)
      modifies this`open, this`sessions, this`recordings
      ensures St() == Steps.EndSession(old(St()), sid)
    {
      if sid in sessions {
        Close(sessions[sid].router);
        sessions := sessions - {sid};
      }
    }

    static lemma EndKeepsTracksLive(st: Media, sid: SessionId)
      requires TracksLive(st)
      ensures TracksLive(Steps.EndSession(st, sid))
    {
    }

    method SetParticipantMute(sid: SessionId, pid: ParticipantId, audio: Option<bool>, video: Option<bool>) returns (found: bool)
      modifies this`sessions
      ensures found == Steps.InSession(old(St()), sid, pid)
      ensures found ==> St() == Steps.WithParticipant(old(St()), sid, pid, Steps.Muted(old(sessions)[sid].participants[pid], audio, video))
      ensures !found ==> St() == old(St())
    {
      if sid !in sessions || pid !in sessions[sid].participants {
        return false;
      }
      var p := sessions[sid].participants[pid];
      if audio.Some? {
        p := p.(audioMuted := audio.value);
      }
      if video.Some? {
        p := p.(videoMuted := video.value);
      }
      sessions := sessions[sid := sessions[sid].(participants := sessions[sid].participants[pid := p])];
      return true;
    }

    // ---------------------------------------------------------- signaling handler

    /** Sends one message down one socket, if that is open. */
    method SendTo(c: ConnId, m: Message)
      modifies this`conns
      ensures St() == Deliver(old(St()), {c}, m)
    {
      if c in conns && conns[c].phase.Open? {
        conns := conns[c := conns[c].(inbox := conns[c].inbox + [m])];
      }
      assert conns == Send(old(conns), {c}, m);
    }

    static lemma SendMore(conns: map<ConnId, Conn>, to: set<ConnId>, c: ConnId, m: Message)
      requires c !in to
      ensures Send(Send(conns, to, m), {c}, m) == Send(conns, to + {c}, m)
    {
    }

    /** The sockets of the participants in `who`. */
    static function SocketsOf(s: Session, who: set<ParticipantId>): set<ConnId>
      requires who <= s.participants.Keys
    {
      set q | q in who :: s.participants[q].socket
    }

    static lemma OneMoreSocket(st: Media, sid: SessionId, who: set<ParticipantId>, q: ParticipantId)
      requires ParticipantsOk(st) && sid in st.sessions && who <= st.sessions[sid].participants.Keys
      requires q in st.sessions[sid].participants && q !in who
      ensures st.sessions[sid].participants[q].socket !in SocketsOf(st.sessions[sid], who)
      ensures SocketsOf(st.sessions[sid], who + {q}) == SocketsOf(st.sessions[sid], who) + {st.sessions[sid].participants[q].socket}
    {
      var s := st.sessions[sid];
      forall p | p in who && s.participants[p].socket == s.participants[q].socket
        ensures false
      {
        OwnSockets(st, sid, p, q);
      }
    }

    /** Tells every participant of the session but one. */
    method NotifyOthers(sid: SessionId, except: Option<ParticipantId>, m: Message)
      requires ParticipantsOk(St()) && sid in sessions
      modifies this`conns
      ensures St() == Notify(old(St()), sid, except, m)
    {
      hide ParticipantsOk, Send, SocketsOf, Sockets;
      ghost var st := St();
      var s := sessions[sid];
      var pending := s.participants.Keys - (if except.Some? then {except.value} else {});
      ghost var to := pending;
      assert to - pending == {};
      Told(st.conns, s, except, m);
      while pending != {}
        invariant pending <= to
        invariant St() == st.(conns := Send(st.conns, SocketsOf(s, to - pending), m))
      {
        var q := PickOne(pending);
        OneMoreTold(st, sid, to - pending, q, m);
        assert to - pending + {q} == to - (pending - {q});
        pending := pending - {q};
        SendTo(s.participants[q].socket, m);
      }
      assert to - pending == to;
    }

    static lemma OneMoreTold(st: Media, sid: SessionId, who: set<ParticipantId>, q: ParticipantId, m: Message)
      requires ParticipantsOk(st) && sid in st.sessions && who <= st.sessions[sid].participants.Keys
      requires q in st.sessions[sid].participants && q !in who
      ensures var s := st.sessions[sid];
        Send(Send(st.conns, SocketsOf(s, who), m), {s.participants[q].socket}, m) == Send(st.conns, SocketsOf(s, who + {q}), m)
    {
      OneMoreSocket(st, sid, who, q);
      SendMore(st.conns, SocketsOf(st.sessions[sid], who), st.sessions[sid].participants[q].socket, m);
    }

    /** Before the loop nobody was told, after it everybody but one. */
    static lemma Told(conns: map<ConnId, Conn>, s: Session, except: Option<ParticipantId>, m: Message)
      ensures Send(conns, SocketsOf(s, {}), m) == conns
      ensures SocketsOf(s, s.participants.Keys - if except.Some? then {except.value} else {}) == Sockets(s, except)
    {
    }

    method Join(c: ConnId, sid: SessionId, routerOk: bool)
      requires Valid() && c in conns
      modifies this`open, this`sessions, this`nextId, this`conns
      ensures St() == Steps.Join(old(St()), c, sid, routerOk)
    {
      ghost var st := St();
      var ok := CreateSession(sid, routerOk);
      if !ok {
        SendTo(c, Reply(false));
        return;
      }
      var conn := conns[c];
      conns := conns[c := conn.(active := Some(sid))];
      ghost var st1 := St();
      CreateSessionKeepsEngine(st, sid);
      SameEngine(Steps.CreateSession(st, sid), st1);
      var p := Participant(conn.profile, c, false, false, None, None, {}, {});
      WithParticipantKeepsEngine(st1, sid, conn.who, p);
      var added := AddParticipant(sid, conn.who, p);
      NotifyOthers(sid, Some(conn.who), ParticipantJoined(conn.who, conn.profile));
      SendTo(c, JoinOk(Others(sessions[sid], conn.who), ProducersOfOthers(sessions[sid], conn.who)));
    }

    method CreateTransport(c: ConnId, sid: SessionId, send: bool, ok: bool)
      requires Valid() && c in conns
      modifies this`open, this`sessions, this`nextId, this`conns
      ensures St() == Steps.CreateTransport(old(St()), c, sid, send, ok)
    {
      if sid !in sessions || !ok {
        SendTo(c, Reply(false));
        return;
      }
      var me, s, id := conns[c].who, sessions[sid], nextId;
      open := open[id := Resource(Transport, s.router, me, {s.router})];
      nextId := nextId + 1;
      if me !in s.participants {
        SendTo(c, Reply(false));
        return;
      }
      var p := s.participants[me];
      if send {
        p := p.(send := Some(id));
      } else {
        p := p.(recv := Some(id));
      }
      sessions := sessions[sid := s.(participants := s.participants[me := p])];
      SendTo(c, Made(id));
    }

    /** Makes a producer on the participant's send transport. */
    method MakeProducer(sid: SessionId, me: ParticipantId) returns (id: nat)
      requires Valid() && Steps.CanProduce(St(), sid, me)
      modifies this`open, this`sessions, this`nextId
      ensures EngineOk(St()) && id == old(nextId)
      ensures var st, p := old(St()), old(sessions)[sid].participants[me];
        St() == Steps.WithParticipant(Steps.Make(st, sid, Producer, me, {p.send.value} + st.open[p.send.value].deps),
                                      sid, me, p.(producers := p.producers + {st.nextId}))
    {
      hide RoutersOpen, NothingLeaks, TracksLive;
      ghost var st := St();
      var s := sessions[sid];
      id := nextId;
      var p := s.participants[me];
      var t := p.send.value;
      assert ParticipantOk(st, s.router, me, p);
      DepsOfHeld(st, t);
      open := open[id := Resource(Producer, s.router, me, {t} + open[t].deps)];
      nextId := nextId + 1;
      sessions := sessions[sid := s.(participants := s.participants[me := p.(producers := p.producers + {id})])];
      HandOutKeepsEngine(st, sid, Producer, me, {t} + st.open[t].deps, p.(producers := p.producers + {id}), St());
    }

    method Produce(c: ConnId, sid: SessionId, ok: bool, tapOk: bool)
      requires Valid() && c in conns
      modifies this`open, this`sessions, this`nextId, this`conns, this`recordings
      ensures St() == Steps.Produce(old(St()), c, sid, ok, tapOk)
    {
      hide ResourcesOk, RoutersOpen, NothingLeaks, TracksLive, Notify, Steps.RecordProducer;
      var me := conns[c].who;
      if sid !in sessions || me !in sessions[sid].participants || sessions[sid].participants[me].send.None?
         || sessions[sid].participants[me].send.value !in open || !ok {
        SendTo(c, Reply(false));
        return;
      }
      var id := MakeProducer(sid, me);
      NotifyOthers(sid, Some(me), NewProducer(me, id));
      HandleProducerAdded(sid, me, id, tapOk);
      SendTo(c, Made(id));
    }

    method Consume(c: ConnId, sid: SessionId, producer: nat, ok: bool)
      requires Valid() && c in conns
      modifies this`open, this`sessions, this`nextId, this`conns
      ensures St() == Steps.Consume(old(St()), c, sid, producer, ok)
    {
      hide RoutersOpen, NothingLeaks, TracksLive;
      var me := conns[c].who;
      if sid !in sessions || producer !in open || !open[producer].kind.Producer? || open[producer].router != sessions[sid].router {
        SendTo(c, Reply(false));
        return;
      }
      if me !in sessions[sid].participants || sessions[sid].participants[me].recv.None?
         || sessions[sid].participants[me].recv.value !in open || !ok {
        SendTo(c, Reply(false));
        return;
      }
      var s, id := sessions[sid], nextId;
      var p := s.participants[me];
      var t := p.recv.value;
      open := open[id := Resource(Consumer, s.router, me, {t, producer} + open[t].deps + open[producer].deps)];
      nextId := nextId + 1;
      sessions := sessions[sid := s.(participants := s.participants[me := p.(consumers := p.consumers + {id})])];
      SendTo(c, Made(id));
    }

    method Leave(c: ConnId, sid: SessionId)
      requires Valid() && c in conns
      modifies this`open, this`sessions, this`recordings, this`conns
      ensures St() == Steps.Leave(old(St()), c, sid)
    {
      var me := conns[c].who;
      ghost var st := St();
      conns := conns[c := conns[c].(active := None)];
      SameEngine(st, St());
      RemoveParticipant(sid, me);
      if sid in sessions {
        NotifyOthers(sid, Some(me), ParticipantLeft(me));
      }
      SendTo(c, Reply(true));
    }

    method SetMute(c: ConnId, sid: SessionId, audio: Option<bool>, video: Option<bool>)
      requires Valid() && c in conns
      modifies this`sessions, this`conns
      ensures St() == Steps.SetMute(old(St()), c, sid, audio, video)
    {
      var me := conns[c].who;
      if sid !in sessions || me !in sessions[sid].participants {
        SendTo(c, Reply(false));
        return;
      }
      MuteKeepsEngine(St(), sid, me, audio, video);
      var found := SetParticipantMute(sid, me, audio, video);
      var p := sessions[sid].participants[me];
      NotifyOthers(sid, Some(me), MuteChanged(me, p.audioMuted, p.videoMuted));
      SendTo(c, Reply(true));
    }

    /** The close event of a socket. */
    method HandleClose(c: ConnId)
      requires Valid() && c in conns
      modifies this`open, this`sessions, this`recordings, this`conns
      ensures St() == Steps.CloseSocket(old(St()), c)
    {
      ghost var st := St();
      var conn := conns[c];
      conns := conns[c := conn.(phase := Closed)];
      SameEngine(st, St());
      if conn.active.Some? {
        HandleDisconnect(conn.active.value, conn.who);
      }
    }

    method HandleDisconnect(sid: SessionId, pid: ParticipantId)
      requires Valid()
      modifies this`open, this`sessions, this`recordings, this`conns
      ensures St() == if Steps.InSession(old(St()), sid, pid)
                      then Notify(Steps.RemoveParticipant(old(St()), sid, pid), sid, Some(pid), ParticipantLeft(pid))
                      else old(St())
    {
      if sid !in sessions || pid !in sessions[sid].participants {
        return;
      }
      RemoveParticipant(sid, pid);
      if sid in sessions {
        NotifyOthers(sid, Some(pid), ParticipantLeft(pid));
      }
    }

    // ---------------------------------------------------------- recording manager

    method PublishEvent(e: Event)
      modifies this`published
      ensures St() == Steps.Publish(old(St()), e)
    {
      published := published + [e];
    }

    /** A producer gets its track once; a failing start is only noted. */
    method EnsureTrackRecording(rid: RecordingId, producer: nat, tapOk: bool)
      requires rid in recordings
      modifies this`recordings
      ensures producer in old(recordings)[rid].tracks ==> recordings == old(recordings)
      ensures producer !in old(recordings)[rid].tracks ==> recordings == old(recordings)[rid :=
        if tapOk then old(recordings)[rid].(tracks := old(recordings)[rid].tracks[producer := false])
        else old(recordings)[rid].(missed := old(recordings)[rid].missed + {producer})]
    {
      var r := recordings[rid];
      if producer in r.tracks {
        return;
      }
      if tapOk {
        recordings := recordings[rid := r.(tracks := r.tracks[producer := false])];
      } else {
        recordings := recordings[rid := r.(missed := r.missed + {producer})];
      }
    }

    method HandleProducerAdded(sid: SessionId, pid: ParticipantId, producer: nat, tapOk: bool)
      modifies this`recordings
      ensures St() == if Steps.InSession(old(St()), sid, pid) then Steps.RecordProducer(old(St()), sid, producer, tapOk) else old(St())
    {
      if sid !in recordingOf {
        return;
      }
      var rid := recordingOf[sid];
      if rid !in recordings || sid !in sessions || pid !in sessions[sid].participants {
        return;
      }
      EnsureTrackRecording(rid, producer, tapOk);
    }

    /** The producers of the participants in `who`. */
    static function ProducersOf(s: Session, who: set<ParticipantId>): set<nat>
      requires who <= s.participants.Keys
    {
      set q, x | q in who && x in s.participants[q].producers :: x
    }

    /** What a recording of `done` looks like. */
    static function RecordingOf(sid: SessionId, done: set<nat>, noTap: set<nat>): Recording {
      Recording(sid, map x | x in done && x !in noTap :: false, done * noTap)
    }

    static lemma RecordedOneMore(sid: SessionId, done: set<nat>, noTap: set<nat>, x: nat, r: Recording)
      requires r == RecordingOf(sid, done, noTap)
      ensures RecordingOf(sid, done + {x}, noTap) ==
        if x in r.tracks then r
        else if x !in noTap then r.(tracks := r.tracks[x := false])
        else r.(missed := r.missed + {x})
    {
      var r' := RecordingOf(sid, done + {x}, noTap);
      assert x in noTap ==> r'.tracks == r.tracks;
      assert x !in noTap ==> r'.tracks == r.tracks[x := false] && r'.missed == r.missed;
      assert x in r.tracks ==> r'.tracks == r.tracks;
    }

    /** Starts the tracks of one participant's producers. */
    method EnsureTracks(rid: RecordingId, producers: set<nat>, noTap: set<nat>, ghost sid: SessionId, ghost done: set<nat>)
      requires rid in recordings && recordings[rid] == RecordingOf(sid, done, noTap)
      modifies this`recordings
      ensures recordings == old(recordings)[rid := RecordingOf(sid, done + producers, noTap)]
    {
      ghost var before := recordings;
      var pending := producers;
      assert done + (producers - pending) == done;
      while pending != {}
        invariant pending <= producers
        invariant recordings == before[rid := RecordingOf(sid, done + (producers - pending), noTap)]
      {
        var x := PickOne(pending);
        RecordedOneMore(sid, done + (producers - pending), noTap, x, recordings[rid]);
        assert done + (producers - pending) + {x} == done + (producers - (pending - {x}));
        pending := pending - {x};
        EnsureTrackRecording(rid, x, x !in noTap);
      }
      assert done + (producers - pending) == done + producers;
    }

    /** Starts the tracks of everybody's producers. */
    method EnsureAllTracks(rid: RecordingId, s: Session, noTap: set<nat>, ghost sid: SessionId)
      requires rid in recordings && recordings[rid] == RecordingOf(sid, {}, noTap)
      modifies this`recordings
      ensures recordings == old(recordings)[rid := Steps.NewRecording(s, sid, noTap)]
    {
      ghost var before := recordings;
      var everybody := s.participants.Keys;
      var pending := everybody;
      assert ProducersOf(s, everybody - pending) == {};
      while pending != {}
        invariant pending <= everybody
        invariant recordings == before[rid := RecordingOf(sid, ProducersOf(s, everybody - pending), noTap)]
      {
        var q := PickOne(pending);
        EnsureTracks(rid, s.participants[q].producers, noTap, sid, ProducersOf(s, everybody - pending));
        assert ProducersOf(s, everybody - (pending - {q})) == ProducersOf(s, everybody - pending) + s.participants[q].producers;
        pending := pending - {q};
      }
      assert ProducersOf(s, everybody - pending) == Producers(s);
    }

    method StartEmpty(sid: SessionId, rid: RecordingId, ghost noTap: set<nat>)
      requires sid in sessions
      modifies this`sessions, this`recordings, this`recordingOf
      ensures recordings == old(recordings)[rid := RecordingOf(sid, {}, noTap)]
      ensures recordingOf == old(recordingOf)[sid := rid]
      ensures sessions == old(sessions)[sid := old(sessions)[sid].(recordingActive := true)]
    {
      recordings := recordings[rid := Recording(sid, map[], {})];
      recordingOf := recordingOf[sid := rid];
      sessions := sessions[sid := sessions[sid].(recordingActive := true)];
      assert RecordingOf(sid, {}, noTap) == Recording(sid, map[], {});
    }

    method StartRecording(sid: SessionId, rid: RecordingId, dirOk: bool, noTap: set<nat>)
      modifies this`sessions, this`recordings, this`recordingOf, this`published
      ensures St() == Steps.StartRecording(old(St()), sid, rid, dirOk, noTap)
    {
      hide RecordingOf, Steps.NewRecording;
      if sid !in sessions || rid in recordings || sid in recordingOf {
        PublishEvent(Failed(rid, sid));
        return;
      }
      if !dirOk {
        return;
      }
      var s := sessions[sid];
      StartEmpty(sid, rid, noTap);
      EnsureAllTracks(rid, s, noTap, sid);
      PublishEvent(Started(rid, sid, |recordings[rid].tracks|));
    }

    /** A track that has stopped already stops at once. */
    method StopTrackRecording(rid: RecordingId, x: nat, rejects: set<nat>) returns (ok: bool)
      requires rid in recordings && x in recordings[rid].tracks
      modifies this`recordings
      ensures ok == (old(recordings)[rid].tracks[x] || x !in rejects)
      ensures recordings == old(recordings)[rid := old(recordings)[rid].(tracks := old(recordings)[rid].tracks[x := true])]
    {
      var r := recordings[rid];
      if r.tracks[x] {
        assert r.tracks[x := true] == r.tracks;
        return true;
      }
      recordings := recordings[rid := r.(tracks := r.tracks[x := true])];
      return x !in rejects;
    }

    /** A recording with the tracks of `done` stopped. */
    static function Stopped(r: Recording, done: set<nat>): Recording {
      r.(tracks := map x | x in r.tracks :: r.tracks[x] || x in done)
    }

    /** Stopping each of these tracks fails. */
    static predicate AllFail(r: Recording, rejects: set<nat>, done: set<nat>) {
      forall x :: x in done ==> x in r.tracks && !r.tracks[x] && x in rejects
    }

    static lemma StopOneMore(r: Recording, rejects: set<nat>, done: set<nat>, x: nat)
      requires x in r.tracks && x !in done
      ensures Stopped(r, done).tracks.Keys == r.tracks.Keys && Stopped(r, done).tracks[x] == r.tracks[x]
      ensures Stopped(r, done).(tracks := Stopped(r, done).tracks[x := true]) == Stopped(r, done + {x})
      ensures AllFail(r, rejects, done + {x}) <==> AllFail(r, rejects, done) && !r.tracks[x] && x in rejects
    {
    }

    static lemma StopAllOrNone(r: Recording, rejects: set<nat>)
      ensures Stopped(r, {}) == r && AllFail(r, rejects, {})
      ensures |r.tracks.Keys| > 0 && AllFail(r, rejects, r.tracks.Keys) <==> Steps.EveryStopFails(r, rejects)
    {
      assert r.tracks != map[] <==> r.tracks.Keys != {};
    }

    /** Stops every track of a recording and counts the failures. */
    method StopTracks(rid: RecordingId, rejects: set<nat>) returns (settled: nat, failures: nat)
      requires rid in recordings
      modifies this`recordings
      ensures recordings == old(recordings)[rid := Stopped(old(recordings)[rid], old(recordings)[rid].tracks.Keys)]
      ensures settled == |old(recordings)[rid].tracks|
      ensures settled > 0 && failures == settled <==> Steps.EveryStopFails(old(recordings)[rid], rejects)
    {
      hide Steps.EveryStopFails, Stopped, AllFail;
      ghost var before, r := recordings, recordings[rid];
      var all := recordings[rid].tracks.Keys;
      var pending := all;
      settled, failures := 0, 0;
      StopAllOrNone(r, rejects);
      assert all - pending == {};
      while pending != {}
        invariant pending <= all && recordings == before[rid := Stopped(r, all - pending)]
        invariant settled == |all - pending| && failures <= settled
        invariant failures == settled <==> AllFail(r, rejects, all - pending)
      {
        var x := PickOne(pending);
        assert all - (pending - {x}) == (all - pending) + {x};
        StopOneMore(r, rejects, all - pending, x);
        pending := pending - {x};
        var ok := StopTrackRecording(rid, x, rejects);
        settled := settled + 1;
        failures := failures + if ok then 0 else 1;
      }
      assert all - pending == all;
    }

    method FailRecording(rid: RecordingId, sid: SessionId)
      modifies this`sessions, this`recordings, this`recordingOf, this`published
      ensures sessions == if sid in old(sessions) then old(sessions)[sid := old(sessions)[sid].(recordingActive := false)] else old(sessions)
      ensures recordings == old(recordings) - {rid} && recordingOf == old(recordingOf) - {sid}
      ensures published == old(published) + [Failed(rid, sid)]
    {
      if sid in sessions {
        sessions := sessions[sid := sessions[sid].(recordingActive := false)];
      }
      recordings := recordings - {rid};
      recordingOf := recordingOf - {sid};
      PublishEvent(Failed(rid, sid));
    }

    method StopRecording(rid: RecordingId, rejects: set<nat>, archiveOk: bool)
      modifies this`sessions, this`recordings, this`recordingOf, this`published
      ensures St() == Steps.StopRecording(old(St()), rid, rejects, archiveOk)
    {
      if rid !in recordings {
        return;
      }
      var sid := recordings[rid].sessionId;
      if sid in sessions {
        sessions := sessions[sid := sessions[sid].(recordingActive := false)];
      }
      var settled, failures := StopTracks(rid, rejects);
      Conclude(rid, sid, settled, settled > 0 && failures == settled, archiveOk);
      hide Stopped, Steps.EveryStopFails;
      assert recordings == old(recordings) - {rid};
    }

    /** The outcome is published and the recording leaves both indices, whatever it is. */
    method Conclude(rid: RecordingId, sid: SessionId, settled: nat, allFailed: bool, archiveOk: bool)
      requires sid in sessions ==> !sessions[sid].recordingActive
      modifies this`sessions, this`recordings, this`recordingOf, this`published
      ensures sessions == old(sessions) && recordings == old(recordings) - {rid} && recordingOf == old(recordingOf) - {sid}
      ensures published == old(published) + [if allFailed || !archiveOk then Failed(rid, sid) else Ready(rid, sid, settled)]
    {
      if allFailed {
        FailRecording(rid, sid);
        return;
      }
      if archiveOk {
        PublishEvent(Ready(rid, sid, settled));
      } else {
        FailRecording(rid, sid);
      }
      recordings := recordings - {rid};
      recordingOf := recordingOf - {sid};
    }

    method StopRecordingBySession(sid: SessionId, rejects: set<nat>, archiveOk: bool)
      modifies this`sessions, this`recordings, this`recordingOf, this`published
      ensures St() == Steps.StopRecordingBySession(old(St()), sid, rejects, archiveOk)
    {
      if sid in recordingOf {
        StopRecording(recordingOf[sid], rejects, archiveOk);
      }
    }

    // --------------------------------------------------------------- media server

    method KickParticipant(sid: SessionId, pid: ParticipantId)
      requires Valid()
      modifies this`open, this`sessions, this`recordings, this`conns
      ensures St() == Steps.Kick(old(St()), sid, pid)
    {
      if sid !in sessions || pid !in sessions[sid].participants {
        return;
      }
      ghost var st := St();
      var c := sessions[sid].participants[pid].socket;
      if c in conns && conns[c].phase.Open? {
        SendTo(c, ModeratorKicked(pid));
        conns := conns[c := conns[c].(phase := Closing)];
      }
      assert c !in st.conns || !st.conns[c].phase.Open? ==> Send(st.conns, {c}, ModeratorKicked(pid)) == st.conns;
      SameEngine(st, St());
      RemoveParticipant(sid, pid);
      if sid in sessions {
        NotifyOthers(sid, None, ParticipantLeft(pid));
      }
    }

    method MuteParticipant(sid: SessionId, pid: ParticipantId, audio: Option<bool>, video: Option<bool>)
      requires Valid()
      modifies this`sessions, this`conns
      ensures St() == Steps.ModerateMute(old(St()), sid, pid, audio, video)
    {
      ghost var st := St();
      if sid in sessions && pid in sessions[sid].participants {
        MuteKeepsEngine(st, sid, pid, audio, video);
      }
      var found := SetParticipantMute(sid, pid, audio, video);
      if !found {
        return;
      }
      var p := sessions[sid].participants[pid];
      DeliverKeepsEngine(St(), {p.socket}, ModeratorMute(p.audioMuted, p.videoMuted));
      SendTo(p.socket, ModeratorMute(p.audioMuted, p.videoMuted));
      NotifyOthers(sid, None, MuteChanged(pid, p.audioMuted, p.videoMuted));
    }

    method EndCommand(sid: SessionId, rejects: set<nat>, archiveOk: bool)
      requires Valid()
      modifies this
      ensures St() == Steps.EndSession(Steps.StopRecordingBySession(old(St()), sid, rejects, archiveOk), sid)
    {
      ghost var st := St();
      if sid in recordingOf {
        StopKeepsEngine(st, recordingOf[sid], rejects, archiveOk);
        StepKeepsTracksLive(st, Steps.RecordingStop(recordingOf[sid], rejects, archiveOk));
      }
      StopRecordingBySession(sid, rejects, archiveOk);
      EndSession(sid);
    }

    method HandleMessage(c: ConnId, sid: SessionId, request: Steps.Request)
      requires Valid() && c in conns
      modifies this
      ensures St() == Steps.Answer(old(St()), c, sid, request)
    {
      match request
      case JoinSession(routerOk) => Join(c, sid, routerOk);
      case NewTransport(send, ok) => CreateTransport(c, sid, send, ok);
      case NewProducerOn(ok, tapOk) => Produce(c, sid, ok, tapOk);
      case NewConsumer(producer, ok) => Consume(c, sid, producer, ok);
      case LeaveSession => Leave(c, sid);
      case MuteSelf(audio, video) => SetMute(c, sid, audio, video);
    }

    /** Whatever comes from outside, handled to the end. */
    method Handle(command: Steps.Command)
      requires Valid()
      modifies this
      ensures Valid() && St() == Steps.Step(old(St()), command)
    {
      hide EngineOk, TracksLive, Steps.Answer, Steps.CloseSocket, Steps.EndSession, Steps.Kick, Steps.ModerateMute, Steps.StartRecording, Steps.StopRecording, Steps.StopRecordingBySession;
      StepKeepsEngine(St(), command);
      StepKeepsTracksLive(St(), command);
      match command
      case Connect(c, who, profile) =>
        if c !in conns {
          conns := conns[c := Conn(who, profile, Open, None, [])];
        }
      case Signal(c, sid, request) =>
        if c in conns && !conns[c].phase.Closed? {
          HandleMessage(c, sid, request);
        }
      case SocketClosed(c) =>
        if c in conns && !conns[c].phase.Closed? {
          HandleClose(c);
        }
      case End(sid, rejects, archiveOk) => EndCommand(sid, rejects, archiveOk);
      case KickOut(sid, pid) => KickParticipant(sid, pid);
      case Mute(sid, pid, audio, video) => MuteParticipant(sid, pid, audio, video);
      case RecordingStart(sid, rid, dirOk, noTap) => StartRecording(sid, rid, dirOk, noTap);
      case RecordingStop(rid, rejects, archiveOk) => StopRecording(rid, rejects, archiveOk);
    }

    /** Stops every recording, one command after another. */
    method StopAll(rejects: set<nat>, archived: set<RecordingId>) returns (ghost log: seq<Steps.Command>)
      requires Valid()
      modifies this
      ensures forall i :: 0 <= i < |log| ==> log[i].RecordingStop?
      ensures Valid() && St() == Steps.RunFrom(old(St()), log) && recordings == map[]
    {
      ghost var st := St();
      log := [];
      var pending := recordings.Keys;
      while pending != {}
        invariant Valid() && St() == Steps.RunFrom(st, log) && recordings.Keys <= pending
        invariant forall i :: 0 <= i < |log| ==> log[i].RecordingStop?
      {
        var rid := PickOne(pending);
        Steps.RunFromGrows(st, log, Steps.RecordingStop(rid, rejects, rid in archived));
        log := log + [Steps.RecordingStop(rid, rejects, rid in archived)];
        pending := pending - {rid};
        Handle(Steps.RecordingStop(rid, rejects, rid in archived));
      }
    }

    /** Ends every session, one command after another. */
    method EndAll() returns (ghost log: seq<Steps.Command>)
      requires Valid() && recordings == map[]
      modifies this
      ensures forall i :: 0 <= i < |log| ==> log[i].End?
      ensures Valid() && St() == Steps.RunFrom(old(St()), log) && recordings == map[] && sessions == map[]
    {
      ghost var st := St();
      log := [];
      var pending := sessions.Keys;
      while pending != {}
        invariant Valid() && St() == Steps.RunFrom(st, log) && recordings == map[] && sessions.Keys <= pending
        invariant forall i :: 0 <= i < |log| ==> log[i].End?
      {
        var sid := PickOne(pending);
        Steps.RunFromGrows(st, log, Steps.End(sid, {}, true));
        log := log + [Steps.End(sid, {}, true)];
        pending := pending - {sid};
        EndingEmpties(St(), sid);
        Handle(Steps.End(sid, {}, true));
      }
    }

    static lemma EndingEmpties(st: Media, sid: SessionId)
      requires st.recordings == map[]
      ensures Steps.Step(st, Steps.End(sid, {}, true)).recordings == map[]
      ensures Steps.Step(st, Steps.End(sid, {}, true)).sessions.Keys == st.sessions.Keys - {sid}
    {
    }

    /** Stops the recordings first and ends the sessions next, each as its own command would;
        then every socket is asked to close. Nothing is left open. */
    method Stop(rejects: set<nat>, archived: set<RecordingId>) returns (ghost stops: seq<Steps.Command>, ghost ends: seq<Steps.Command>)
      requires Valid()
      modifies this
      ensures forall i :: 0 <= i < |stops| ==> stops[i].RecordingStop?
      ensures forall i :: 0 <= i < |ends| ==> ends[i].End?
      ensures St() == HangUp(Steps.RunFrom(Steps.RunFrom(old(St()), stops), ends))
      ensures sessions == map[] && recordings == map[] && open == map[]
    {
      stops := StopAll(rejects, archived);
      ends := EndAll();
      NothingLeft(St());
      conns := map c | c in conns :: if conns[c].phase.Open? then conns[c].(phase := Closing) else conns[c];
    }

    static lemma NothingLeft(st: Media)
      requires EngineOk(st) && st.sessions == map[]
      ensures st.open == map[]
    {
      assert forall r :: r in st.open ==> LiveRouter(st.sessions, st.open[r].router);
      assert st.open.Keys == {};
    }

    /** Every open socket was asked to close. */
    static function HangUp(st: Media): Media {
      st.(conns := map c | c in st.conns :: if st.conns[c].phase.Open? then st.conns[c].(phase := Closing) else st.conns[c])
    }
  }
}
