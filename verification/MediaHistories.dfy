/**
 Whole runs, as clients and moderators would tell them: whose word a mute flag is, which
 session a connection counts as active in, and which producers a client has been told of.
 */
module MediaHistories {
  import opened Prelude
  import opened MediaModel
  import opened MediaSteps
  import opened MediaEngine
  import opened MediaRecordings
  import opened MediaViews
  import opened MediaAnswers

  // ------------------------------------------------------------- one entry, one step

  /** The connection joins the session, and is let in. */
  predicate Joins(st: Media, command: Command, c: ConnId, sid: SessionId) {
    && command.Signal? && command.conn == c && command.sid == sid && command.request.JoinSession?
    && Speaks(st, c) && (sid in st.sessions || command.request.routerOk)
  }

  predicate JoinsAs(st: Media, command: Command, sid: SessionId, q: ParticipantId) {
    command.Signal? && Joins(st, command, command.conn, sid) && st.conns[command.conn].who == q
  }

  predicate ProducesAs(st: Media, command: Command, sid: SessionId, q: ParticipantId) {
    && command.Signal? && command.sid == sid && command.request.NewProducerOn?
    && Speaks(st, command.conn) && st.conns[command.conn].who == q
  }

  /** The flags that a mute command about `q` gives, by `q` itself or a moderator. */
  function Asked(st: Media, command: Command, sid: SessionId, q: ParticipantId): (Option<bool>, Option<bool>) {
    match command
    case Mute(s, p, audio, video) => if s == sid && p == q then (audio, video) else (None, None)
    case Signal(c, s, MuteSelf(audio, video)) =>
      if s == sid && Speaks(st, c) && st.conns[c].who == q then (audio, video) else (None, None)
    case _ => (None, None)
  }

  /** How an entry may change: flags as asked, and no more producers than `more`. */
  ghost predicate Becomes(p: Participant, p': Participant, asked: (Option<bool>, Option<bool>), more: set<nat>) {
    && p'.profile == p.profile && p'.socket == p.socket
    && p'.audioMuted == (match asked.0 case Some(a) => a case None => p.audioMuted)
    && p'.videoMuted == (match asked.1 case Some(v) => v case None => p.videoMuted)
    && p'.producers <= p.producers + more
  }

  ghost predicate EntryFollows(st: Media, command: Command, sid: SessionId, q: ParticipantId, st': Media) {
    && InSession(st, sid, q) && InSession(st', sid, q)
    && Becomes(st.sessions[sid].participants[q], st'.sessions[sid].participants[q], Asked(st, command, sid, q),
               if ProducesAs(st, command, sid, q) then {st.nextId} else {})
  }

  lemma SameEntryFollows(st: Media, command: Command, sid: SessionId, q: ParticipantId, st': Media)
    requires InSession(st, sid, q) && InSession(st', sid, q)
    requires SameButClosed(st.sessions[sid].participants[q], st'.sessions[sid].participants[q])
    requires Asked(st, command, sid, q) == (None, None)
    ensures EntryFollows(st, command, sid, q, st')
  {
  }

  lemma UpdatedEntryFollows(st: Media, command: Command, sid: SessionId, q: ParticipantId, st': Media, s: SessionId, me: ParticipantId, p: Participant)
    requires InSession(st', sid, q) && InSession(st, s, me)
    requires st'.sessions == st.sessions[s := st.sessions[s].(participants := st.sessions[s].participants[me := p])]
    requires s == sid && me == q ==> Becomes(st.sessions[s].participants[me], p, Asked(st, command, sid, q), if ProducesAs(st, command, sid, q) then {st.nextId} else {})
    requires !(s == sid && me == q) ==> Asked(st, command, sid, q) == (None, None)
    ensures EntryFollows(st, command, sid, q, st')
  {
  }

  lemma JoinedEntry(st: Media, c: ConnId, s: SessionId, routerOk: bool, sid: SessionId, q: ParticipantId, st': Media)
    requires EngineOk(st) && Speaks(st, c) && st' == Step(st, Signal(c, s, JoinSession(routerOk)))
    requires InSession(st', sid, q) && !JoinsAs(st, Signal(c, s, JoinSession(routerOk)), sid, q)
    ensures EntryFollows(st, Signal(c, s, JoinSession(routerOk)), sid, q, st')
  {
    hide EngineOk, EntryFollows, Step;
    if s in st.sessions || routerOk {
      JoinDoes(st, c, s, routerOk, st');
      if sid != s {
        assert sid in st'.sessions - {s} && (st'.sessions - {s})[sid] == (st.sessions - {s})[sid];
      }
    } else {
      JoinRefused(st, c, s);
    }
    SameEntryFollows(st, Signal(c, s, JoinSession(routerOk)), sid, q, st');
  }

  /** Requests for objects of one's own. */
  lemma MakerEntry(st: Media, c: ConnId, s: SessionId, request: Request, sid: SessionId, q: ParticipantId, st': Media)
    requires Speaks(st, c) && InSession(st', sid, q)
    requires !request.JoinSession? && !request.MuteSelf?
    requires st'.sessions == st.sessions || (InSession(st, s, st.conns[c].who) && exists p, r :: MadeFor(st, st', c, s, p, r))
    requires InSession(st, s, st.conns[c].who) ==> InSession(st', s, st.conns[c].who)
    requires InSession(st, s, st.conns[c].who) ==>
      Becomes(st.sessions[s].participants[st.conns[c].who], st'.sessions[s].participants[st.conns[c].who], (None, None),
              if request.NewProducerOn? then {st.nextId} else {})
    ensures EntryFollows(st, Signal(c, s, request), sid, q, st')
  {
    var command, me := Signal(c, s, request), st.conns[c].who;
    if st'.sessions == st.sessions {
      SameEntryFollows(st, command, sid, q, st');
    } else {
      UpdatedEntryFollows(st, command, sid, q, st', s, me, st'.sessions[s].participants[me]);
    }
  }

  lemma TransportEntry(st: Media, c: ConnId, s: SessionId, send: bool, ok: bool, sid: SessionId, q: ParticipantId, st': Media)
    requires EngineOk(st) && Speaks(st, c) && st' == Step(st, Signal(c, s, NewTransport(send, ok))) && InSession(st', sid, q)
    ensures EntryFollows(st, Signal(c, s, NewTransport(send, ok)), sid, q, st')
  {
    hide EngineOk, EntryFollows, Step;
    NewTransportDoes(st, c, s, send, ok, st');
    MakerEntry(st, c, s, NewTransport(send, ok), sid, q, st');
  }

  lemma ProducerEntry(st: Media, c: ConnId, s: SessionId, ok: bool, tapOk: bool, sid: SessionId, q: ParticipantId, st': Media)
    requires EngineOk(st) && Speaks(st, c) && st' == Step(st, Signal(c, s, NewProducerOn(ok, tapOk))) && InSession(st', sid, q)
    ensures EntryFollows(st, Signal(c, s, NewProducerOn(ok, tapOk)), sid, q, st')
  {
    hide EngineOk, EntryFollows, Step;
    NewProducerDoes(st, c, s, ok, tapOk, st');
    MakerEntry(st, c, s, NewProducerOn(ok, tapOk), sid, q, st');
  }

  lemma ConsumerEntry(st: Media, c: ConnId, s: SessionId, producer: nat, ok: bool, sid: SessionId, q: ParticipantId, st': Media)
    requires EngineOk(st) && Speaks(st, c) && st' == Step(st, Signal(c, s, NewConsumer(producer, ok))) && InSession(st', sid, q)
    ensures EntryFollows(st, Signal(c, s, NewConsumer(producer, ok)), sid, q, st')
  {
    hide EngineOk, EntryFollows, Step;
    NewConsumerDoes(st, c, s, producer, ok, st');
    MakerEntry(st, c, s, NewConsumer(producer, ok), sid, q, st');
  }

  lemma MutedEntryFollows(st: Media, c: ConnId, s: SessionId, audio: Option<bool>, video: Option<bool>, sid: SessionId, q: ParticipantId, st': Media)
    requires EngineOk(st) && Speaks(st, c) && st' == Step(st, Signal(c, s, MuteSelf(audio, video))) && InSession(st', sid, q)
    ensures EntryFollows(st, Signal(c, s, MuteSelf(audio, video)), sid, q, st')
  {
    hide EngineOk, EntryFollows, Step;
    var command, me := Signal(c, s, MuteSelf(audio, video)), st.conns[c].who;
    if InSession(st, s, me) {
      MuteSelfDoes(st, c, s, audio, video, st');
      UpdatedEntryFollows(st, command, sid, q, st', s, me, st'.sessions[s].participants[me]);
    } else {
      MuteOfAbsent(st, c, s, me, audio, video);
      SameEntryFollows(st, command, sid, q, st');
    }
  }

  lemma SignalledEntry(st: Media, c: ConnId, s: SessionId, request: Request, sid: SessionId, q: ParticipantId, st': Media)
    requires EngineOk(st) && Speaks(st, c) && st' == Step(st, Signal(c, s, request))
    requires InSession(st', sid, q) && !JoinsAs(st, Signal(c, s, request), sid, q)
    ensures EntryFollows(st, Signal(c, s, request), sid, q, st')
  {
    hide EngineOk, EntryFollows, Step, JoinsAs;
    match request
    case JoinSession(routerOk) => JoinedEntry(st, c, s, routerOk, sid, q, st');
    case NewTransport(send, ok) => TransportEntry(st, c, s, send, ok, sid, q, st');
    case NewProducerOn(ok, tapOk) => ProducerEntry(st, c, s, ok, tapOk, sid, q, st');
    case NewConsumer(producer, ok) => ConsumerEntry(st, c, s, producer, ok, sid, q, st');
    case LeaveSession =>
      LeaveDoes(st, c, s, st');
      SameEntryFollows(st, Signal(c, s, request), sid, q, st');
    case MuteSelf(audio, video) => MutedEntryFollows(st, c, s, audio, video, sid, q, st');
  }

  lemma StartLeavesSeats(st: Media, sid: SessionId, rid: RecordingId, dirOk: bool, noTap: set<nat>)
    ensures var st' := StartRecording(st, sid, rid, dirOk, noTap);
      && st'.conns == st.conns && st'.sessions.Keys == st.sessions.Keys
      && forall s :: s in st.sessions ==> st'.sessions[s].participants == st.sessions[s].participants
  {
  }

  /** Whoever is in a session and has not just joined it was there before, with the same
      socket and profile, flags that only a mute about it changes, and no producers but those
      it had or has just made. */
  lemma EntryAfter(st: Media, command: Command, sid: SessionId, q: ParticipantId, st': Media)
    requires EngineOk(st) && st' == Step(st, command) && InSession(st', sid, q) && !JoinsAs(st, command, sid, q)
    ensures EntryFollows(st, command, sid, q, st')
  {
    hide EngineOk, EntryFollows, Answer, CloseSocket, EndSession, StopRecordingBySession, Kick, ModerateMute, StartRecording, StopRecording;
    match command
    case Connect(c, who, profile) => SameEntryFollows(st, command, sid, q, st');
    case Signal(c, s, request) =>
      if Speaks(st, c) {
        SignalledEntry(st, c, s, request, sid, q, st');
      } else {
        SameEntryFollows(st, command, sid, q, st');
      }
    case SocketClosed(c) =>
      if Speaks(st, c) { SocketClosedDoes(st, c, st'); }
      SameEntryFollows(st, command, sid, q, st');
    case End(s, rejects, archiveOk) =>
      EndDoes(st, s, rejects, archiveOk, st');
      SameEntryFollows(st, command, sid, q, st');
    case KickOut(s, p) =>
      KickedEntry(st, s, p, sid, q, st');
    case Mute(s, p, audio, video) => ModeratedEntry(st, s, p, audio, video, sid, q, st');
    case RecordingStart(s, rid, dirOk, noTap) =>
      StartLeavesSeats(st, s, rid, dirOk, noTap);
      SameEntryFollows(st, command, sid, q, st');
    case RecordingStop(rid, rejects, archiveOk) =>
      StopLeavesSeats(st, rid, rejects, archiveOk);
      SameEntryFollows(st, command, sid, q, st');
  }

  lemma KickedEntry(st: Media, s: SessionId, p: ParticipantId, sid: SessionId, q: ParticipantId, st': Media)
    requires EngineOk(st) && st' == Step(st, KickOut(s, p)) && InSession(st', sid, q)
    ensures EntryFollows(st, KickOut(s, p), sid, q, st')
  {
    hide EngineOk, EntryFollows;
    if InSession(st, s, p) {
      KickOutDoes(st, s, p, st');
    }
    SameEntryFollows(st, KickOut(s, p), sid, q, st');
  }

  lemma ModeratedEntry(st: Media, s: SessionId, p: ParticipantId, audio: Option<bool>, video: Option<bool>, sid: SessionId, q: ParticipantId, st': Media)
    requires EngineOk(st) && st' == Step(st, Mute(s, p, audio, video)) && InSession(st', sid, q)
    ensures EntryFollows(st, Mute(s, p, audio, video), sid, q, st')
  {
    hide EngineOk, EntryFollows, Step;
    if InSession(st, s, p) {
      ModerateMuteDoes(st, s, p, audio, video, st');
      UpdatedEntryFollows(st, Mute(s, p, audio, video), sid, q, st', s, p, st'.sessions[s].participants[p]);
    } else {
      MuteOfAbsent(st, 0, s, p, audio, video);
      if s == sid && p == q {
        assert false;
      } else {
        SameEntryFollows(st, Mute(s, p, audio, video), sid, q, st');
      }
    }
  }

  // ------------------------------------------------------------------- mute flags

  /** The last audio flag that a mute about `q` gave since `q` last joined the session. */
  predicate AudioWord(commands: seq<Command>, sid: SessionId, q: ParticipantId) {
    commands != [] &&
    var before, last := commands[..|commands| - 1], commands[|commands| - 1];
    var asked := Asked(Run(before), last, sid, q).0;
    !JoinsAs(Run(before), last, sid, q) && if asked.Some? then asked.value else AudioWord(before, sid, q)
  }

  predicate VideoWord(commands: seq<Command>, sid: SessionId, q: ParticipantId) {
    commands != [] &&
    var before, last := commands[..|commands| - 1], commands[|commands| - 1];
    var asked := Asked(Run(before), last, sid, q).1;
    !JoinsAs(Run(before), last, sid, q) && if asked.Some? then asked.value else VideoWord(before, sid, q)
  }

  /** In every run a participant's flags are the last word about each of them, by the
      participant or a moderator, since its join, and both are off until there is one. */
  lemma {:induction false} FlagsAreLastWord(commands: seq<Command>, sid: SessionId, q: ParticipantId)
    requires InSession(Run(commands), sid, q)
    ensures Run(commands).sessions[sid].participants[q].audioMuted == AudioWord(commands, sid, q)
    ensures Run(commands).sessions[sid].participants[q].videoMuted == VideoWord(commands, sid, q)
  {
    hide EngineOk, Step;
    if commands != [] {
      var before, last := commands[..|commands| - 1], commands[|commands| - 1];
      var st, st' := Run(before), Run(commands);
      RunsPin(before);
      if JoinsAs(st, last, sid, q) {
        JoinDoes(st, last.conn, sid, last.request.routerOk, st');
      } else {
        EntryAfter(st, last, sid, q, st');
        FlagsAreLastWord(before, sid, q);
      }
    }
  }

  // ----------------------------------------------------------- one connection, one step

  /** The session a connection counts as active in: what it last joined, unless it has sent
      a leave since, whatever session that was for. */
  function ActiveAfter(st: Media, command: Command, c: ConnId): Option<SessionId>
    requires c in st.conns
  {
    match command
    case Signal(d, s, JoinSession(routerOk)) => if Joins(st, command, c, s) then Some(s) else st.conns[c].active
    case Signal(d, s, LeaveSession) => if d == c && Speaks(st, c) then None else st.conns[c].active
    case _ => st.conns[c].active
  }

  /** How a connection goes through a step: it hears `news`, gets a snapshot only in answer to
      its own join, and hears of new producers only as they are made. */
  ghost predicate ConnFollows(st: Media, command: Command, c: ConnId, st': Media, news: seq<Message>) {
    && Hears(st, st', c, news)
    && st'.conns[c] == st.conns[c].(inbox := st'.conns[c].inbox, phase := st'.conns[c].phase, active := ActiveAfter(st, command, c))
    && (IsOpen(st', c) ==> IsOpen(st, c))
    && (st.conns[c].phase.Closed? ==> st'.conns[c].phase.Closed?)
    && (st'.conns[c].phase.Closed? ==> st.conns[c].phase.Closed? || command == SocketClosed(c))
    && (forall m :: m in news && m.JoinOk? ==> command.Signal? && Joins(st, command, c, command.sid) && m == Snapshot(st, command.sid, st.conns[c].who))
    && (forall m :: m in news && m.NewProducer? ==> m.producer in st'.open && MadeBy(st'.open[m.producer], m.who))
  }

  predicate MadeBy(r: Resource, q: ParticipantId) {
    r.kind.Producer? && r.owner == q
  }

  lemma PlainConn(st: Media, command: Command, c: ConnId, st': Media, news: seq<Message>)
    requires SameConn(st, st', c) && Hears(st, st', c, news) && ActiveAfter(st, command, c) == st.conns[c].active
    requires forall m :: m in news ==> !m.JoinOk? && !m.NewProducer?
    ensures ConnFollows(st, command, c, st', news)
  {
  }

  lemma SilentConn(st: Media, command: Command, c: ConnId, st': Media)
    requires c in st.conns && c in st'.conns && st'.conns[c] == st.conns[c] && ActiveAfter(st, command, c) == st.conns[c].active
    ensures ConnFollows(st, command, c, st', [])
  {
    assert st.conns[c].inbox + [] == st.conns[c].inbox;
  }

  lemma JoinConn(st: Media, d: ConnId, s: SessionId, routerOk: bool, c: ConnId, st': Media) returns (news: seq<Message>)
    requires EngineOk(st) && Speaks(st, d) && c in st.conns && st' == Step(st, Signal(d, s, JoinSession(routerOk)))
    ensures ConnFollows(st, Signal(d, s, JoinSession(routerOk)), c, st', news)
    ensures Joins(st, Signal(d, s, JoinSession(routerOk)), c, s) ==> news == [Snapshot(st, s, st.conns[c].who)]
  {
    hide EngineOk, Step;
    var me := st.conns[d].who;
    if s in st.sessions || routerOk {
      JoinDoes(st, d, s, routerOk, st');
      news := ToOthers(st, s, me, c, ParticipantJoined(me, st.conns[d].profile)) + ToOne(d, c, Snapshot(st, s, me));
    } else {
      JoinRefused(st, d, s);
      news := ToOne(d, c, Reply(false));
    }
  }

  lemma LeaveConn(st: Media, d: ConnId, s: SessionId, c: ConnId, st': Media) returns (news: seq<Message>)
    requires EngineOk(st) && Speaks(st, d) && c in st.conns && st' == Step(st, Signal(d, s, LeaveSession))
    ensures ConnFollows(st, Signal(d, s, LeaveSession), c, st', news)
  {
    hide EngineOk, Step;
    var me := st.conns[d].who;
    LeaveDoes(st, d, s, st');
    news := ToOthers(st, s, me, c, ParticipantLeft(me)) + ToOne(d, c, Reply(true));
  }

  lemma ProduceConn(st: Media, d: ConnId, s: SessionId, ok: bool, tapOk: bool, c: ConnId, st': Media) returns (news: seq<Message>)
    requires EngineOk(st) && Speaks(st, d) && c in st.conns && st' == Step(st, Signal(d, s, NewProducerOn(ok, tapOk)))
    ensures ConnFollows(st, Signal(d, s, NewProducerOn(ok, tapOk)), c, st', news)
    ensures Member(st, s, c) && st.conns[c].who != st.conns[d].who && st'.nextId != st.nextId ==> NewProducer(st.conns[d].who, st.nextId) in news
  {
    hide EngineOk, Step;
    var me := st.conns[d].who;
    NewProducerDoes(st, d, s, ok, tapOk, st');
    news := if st'.nextId == st.nextId then ToOne(d, c, Reply(false))
            else ToOthers(st, s, me, c, NewProducer(me, st.nextId)) + ToOne(d, c, Made(st.nextId));
  }

  lemma TransportConn(st: Media, d: ConnId, s: SessionId, send: bool, ok: bool, c: ConnId, st': Media) returns (news: seq<Message>)
    requires EngineOk(st) && Speaks(st, d) && c in st.conns && st' == Step(st, Signal(d, s, NewTransport(send, ok)))
    ensures ConnFollows(st, Signal(d, s, NewTransport(send, ok)), c, st', news)
  {
    hide EngineOk, Step, ConnFollows;
    NewTransportDoes(st, d, s, send, ok, st');
    news := ToOne(d, c, if InSession(st, s, st.conns[d].who) && ok then Made(st.nextId) else Reply(false));
    PlainConn(st, Signal(d, s, NewTransport(send, ok)), c, st', news);
  }

  lemma ConsumeConn(st: Media, d: ConnId, s: SessionId, producer: nat, ok: bool, c: ConnId, st': Media) returns (news: seq<Message>)
    requires EngineOk(st) && Speaks(st, d) && c in st.conns && st' == Step(st, Signal(d, s, NewConsumer(producer, ok)))
    ensures ConnFollows(st, Signal(d, s, NewConsumer(producer, ok)), c, st', news)
  {
    hide EngineOk, Step, ConnFollows;
    NewConsumerDoes(st, d, s, producer, ok, st');
    news := ToOne(d, c, if st'.nextId == st.nextId then Reply(false) else Made(st.nextId));
    PlainConn(st, Signal(d, s, NewConsumer(producer, ok)), c, st', news);
  }

  lemma MutedConn(st: Media, d: ConnId, s: SessionId, audio: Option<bool>, video: Option<bool>, c: ConnId, st': Media) returns (news: seq<Message>)
    requires EngineOk(st) && Speaks(st, d) && c in st.conns && st' == Step(st, Signal(d, s, MuteSelf(audio, video)))
    ensures ConnFollows(st, Signal(d, s, MuteSelf(audio, video)), c, st', news)
  {
    hide EngineOk, Step, ConnFollows;
    var me := st.conns[d].who;
    if InSession(st, s, me) {
      MuteSelfDoes(st, d, s, audio, video, st');
      var p' := st'.sessions[s].participants[me];
      news := ToOthers(st, s, me, c, MuteChanged(me, p'.audioMuted, p'.videoMuted)) + ToOne(d, c, Reply(true));
    } else {
      MuteOfAbsent(st, d, s, me, audio, video);
      news := ToOne(d, c, Reply(false));
    }
    PlainConn(st, Signal(d, s, MuteSelf(audio, video)), c, st', news);
  }

  lemma ClosedConn(st: Media, d: ConnId, c: ConnId, st': Media) returns (news: seq<Message>)
    requires EngineOk(st) && Speaks(st, d) && c in st.conns && st' == Step(st, SocketClosed(d))
    ensures ConnFollows(st, SocketClosed(d), c, st', news)
  {
    hide EngineOk, Step;
    SocketClosedDoes(st, d, st');
    var me, active := st.conns[d].who, st.conns[d].active;
    if active.None? || !InSession(st, active.value, me) {
      news := [];
      assert st.conns[c].inbox + [] == st.conns[c].inbox;
    } else {
      news := ToOthers(st, active.value, me, c, ParticipantLeft(me)) + [];
    }
  }

  lemma KickedConn(st: Media, s: SessionId, p: ParticipantId, c: ConnId, st': Media) returns (news: seq<Message>)
    requires EngineOk(st) && c in st.conns && st' == Step(st, KickOut(s, p))
    ensures ConnFollows(st, KickOut(s, p), c, st', news)
  {
    hide EngineOk, Step, ConnFollows;
    news := [];
    if InSession(st, s, p) {
      KickOutDoes(st, s, p, st');
      var k := st.sessions[s].participants[p].socket;
      news := ToOne(k, c, ModeratorKicked(p)) + ToOthers(st, s, p, c, ParticipantLeft(p));
      ClosingConn(st, KickOut(s, p), k, c, st', news);
    } else {
      KickOfAbsent(st, s, p);
      SilentConn(st, KickOut(s, p), c, st');
    }
  }

  lemma KickOfAbsent(st: Media, s: SessionId, p: ParticipantId)
    requires !InSession(st, s, p)
    ensures Step(st, KickOut(s, p)) == st
  {
  }

  lemma ClosingConn(st: Media, command: Command, k: ConnId, c: ConnId, st': Media, news: seq<Message>)
    requires c in st.conns && k in st.conns && command.KickOut? && Hears(st, st', c, news)
    requires c != k ==> SameConn(st, st', c)
    requires k in st'.conns && st'.conns[k] == st.conns[k].(inbox := st'.conns[k].inbox,
                                                            phase := if st.conns[k].phase == Open then Closing else st.conns[k].phase)
    requires forall m :: m in news ==> !m.JoinOk? && !m.NewProducer?
    ensures ConnFollows(st, command, c, st', news)
  {
  }

  lemma ModeratedConn(st: Media, s: SessionId, p: ParticipantId, audio: Option<bool>, video: Option<bool>, c: ConnId, st': Media) returns (news: seq<Message>)
    requires EngineOk(st) && c in st.conns && st' == Step(st, Mute(s, p, audio, video))
    ensures ConnFollows(st, Mute(s, p, audio, video), c, st', news)
  {
    hide EngineOk, Step, ConnFollows;
    if InSession(st, s, p) {
      ModerateMuteDoes(st, s, p, audio, video, st');
      var p' := st'.sessions[s].participants[p];
      news := ToOne(p'.socket, c, ModeratorMute(p'.audioMuted, p'.videoMuted))
            + if Member(st, s, c) then [MuteChanged(p, p'.audioMuted, p'.videoMuted)] else [];
      PlainConn(st, Mute(s, p, audio, video), c, st', news);
    } else {
      MuteOfAbsent(st, c, s, p, audio, video);
      news := [];
      SilentConn(st, Mute(s, p, audio, video), c, st');
    }
  }

  /** Every step takes every connection along as `ConnFollows` says. */
  lemma ConnAfter(st: Media, command: Command, c: ConnId, st': Media) returns (news: seq<Message>)
    requires EngineOk(st) && c in st.conns && st' == Step(st, command)
    ensures ConnFollows(st, command, c, st', news)
    ensures command.Signal? && Joins(st, command, c, command.sid) ==> news == [Snapshot(st, command.sid, st.conns[c].who)]
    ensures command.Signal? && command.request.NewProducerOn? && Speaks(st, command.conn) && st'.nextId != st.nextId
            && Member(st, command.sid, c) && st.conns[c].who != st.conns[command.conn].who ==>
      NewProducer(st.conns[command.conn].who, st.nextId) in news
  {
    hide EngineOk, ConnFollows, Answer, CloseSocket, EndSession, StopRecordingBySession, Kick, ModerateMute, StartRecording, StopRecording, Member, Snapshot;
    news := [];
    match command {
      case Connect(d, who, profile) => SilentConn(st, command, c, st');
      case Signal(d, s, request) =>
        if Speaks(st, d) {
          match request {
            case JoinSession(routerOk) => news := JoinConn(st, d, s, routerOk, c, st');
            case LeaveSession => news := LeaveConn(st, d, s, c, st');
            case NewProducerOn(ok, tapOk) => news := ProduceConn(st, d, s, ok, tapOk, c, st');
            case NewTransport(send, ok) => news := TransportConn(st, d, s, send, ok, c, st');
            case NewConsumer(producer, ok) => news := ConsumeConn(st, d, s, producer, ok, c, st');
            case MuteSelf(audio, video) => news := MutedConn(st, d, s, audio, video, c, st');
          }
        } else {
          SilentConn(st, command, c, st');
        }
      case SocketClosed(d) =>
        if Speaks(st, d) { news := ClosedConn(st, d, c, st'); } else { SilentConn(st, command, c, st'); }
      case End(s, rejects, archiveOk) =>
        EndDoes(st, s, rejects, archiveOk, st');
        SilentConn(st, command, c, st');
      case KickOut(s, p) => news := KickedConn(st, s, p, c, st');
      case Mute(s, p, audio, video) => news := ModeratedConn(st, s, p, audio, video, c, st');
      case RecordingStart(s, rid, dirOk, noTap) =>
        StartLeavesSeats(st, s, rid, dirOk, noTap);
        SilentConn(st, command, c, st');
      case RecordingStop(rid, rejects, archiveOk) =>
        StopLeavesSeats(st, rid, rejects, archiveOk);
        SilentConn(st, command, c, st');
    }
  }

  // -------------------------------------------------------------- the active session

  /** The session a connection last joined, unless it has sent any leave since. */
  function LastJoined(commands: seq<Command>, c: ConnId): Option<SessionId> {
    if commands == [] then None
    else
      var before, last := commands[..|commands| - 1], commands[|commands| - 1];
      match last
      case Signal(d, s, JoinSession(routerOk)) => if Joins(Run(before), last, c, s) then Some(s) else LastJoined(before, c)
      case Signal(d, s, LeaveSession) => if d == c && Speaks(Run(before), c) then None else LastJoined(before, c)
      case _ => LastJoined(before, c)
  }

  lemma {:induction false} ActiveIsLastJoined(commands: seq<Command>, c: ConnId)
    ensures if c in Run(commands).conns then Run(commands).conns[c].active == LastJoined(commands, c) else LastJoined(commands, c) == None
  {
    hide EngineOk, Step;
    if commands != [] {
      var before, last := commands[..|commands| - 1], commands[|commands| - 1];
      var st := Run(before);
      ActiveIsLastJoined(before, c);
      RunsPin(before);
      if c in st.conns {
        var news := ConnAfter(st, last, c, Run(commands));
      } else if last.Connect? {
        ConnectsOne(st, last.conn, last.who, last.profile);
      } else {
        OnlyConnectConnects(st, last);
      }
    }
  }

  lemma ConnectsOne(st: Media, d: ConnId, who: ParticipantId, profile: Profile)
    ensures var st' := Step(st, Connect(d, who, profile));
      && st' == st.(conns := st'.conns)
      && st'.conns == if d in st.conns then st.conns else st.conns[d := Conn(who, profile, Open, None, [])]
  {
  }

  /** The close of a member's socket frees its seat exactly if the session is the active one. */
  lemma CloseFreesActiveSeat(st: Media, sid: SessionId, c: ConnId, st': Media)
    requires EngineOk(st) && Member(st, sid, c) && Speaks(st, c) && st' == Step(st, SocketClosed(c))
    ensures Member(st', sid, c) <==> st.conns[c].active != Some(sid)
  {
    hide EngineOk, Step;
    SocketClosedDoes(st, c, st');
  }

  ghost predicate SeatsFreed(st: Media, c: ConnId) {
    forall sid :: Member(st, sid, c) && st.conns[c].phase.Closed? ==> st.conns[c].active != Some(sid)
  }

  lemma MemberBefore(st: Media, command: Command, sid: SessionId, c: ConnId, st': Media)
    requires EngineOk(st) && c in st.conns && st' == Step(st, command) && Member(st', sid, c)
    requires !(command.Signal? && Joins(st, command, c, sid))
    ensures Member(st, sid, c)
  {
    hide EngineOk, Step;
    var news := ConnAfter(st, command, c, st');
    var q := st.conns[c].who;
    if JoinsAs(st, command, sid, q) {
      JoinDoes(st, command.conn, sid, command.request.routerOk, st');
    } else {
      EntryAfter(st, command, sid, q, st');
    }
  }

  /** In every run, a seat that outlives the close of its socket is in a session that was not
      the active one of that connection: it had joined another since, or sent a leave. */
  lemma {:induction false} SeatsOfClosedSockets(commands: seq<Command>, sid: SessionId, c: ConnId)
    requires Member(Run(commands), sid, c) && Run(commands).conns[c].phase.Closed?
    ensures LastJoined(commands, c) != Some(sid)
  {
    ActiveIsLastJoined(commands, c);
    ClosedSeats(commands, c);
  }

  lemma {:induction false} ClosedSeats(commands: seq<Command>, c: ConnId)
    ensures SeatsFreed(Run(commands), c)
  {
    hide EngineOk, Step, SeatsFreed;
    if commands == [] {
      NobodySits(c);
    } else {
      var before, last := commands[..|commands| - 1], commands[|commands| - 1];
      ClosedSeats(before, c);
      RunsPin(before);
      if c in Run(before).conns {
        SeatsStayFreed(Run(before), last, c, Run(commands));
      } else {
        NotConnectedYet(Run(before), last, c);
        NoSeatsNoClosed(Run(commands), c);
      }
    }
  }

  lemma NobodySits(c: ConnId)
    ensures SeatsFreed(EMPTY, c)
  {
  }

  lemma NoSeatsNoClosed(st: Media, c: ConnId)
    requires forall sid :: !Member(st, sid, c)
    ensures SeatsFreed(st, c)
  {
  }

  lemma SeatsStayFreed(st: Media, command: Command, c: ConnId, st': Media)
    requires EngineOk(st) && c in st.conns && SeatsFreed(st, c) && st' == Step(st, command)
    ensures SeatsFreed(st', c)
  {
    hide EngineOk, Step;
    var news := ConnAfter(st, command, c, st');
    forall sid | Member(st', sid, c) && st'.conns[c].phase.Closed?
      ensures st'.conns[c].active != Some(sid)
    {
      if st.conns[c].phase.Closed? {
        MemberBefore(st, command, sid, c, st');
      } else {
        MemberBefore(st, command, sid, c, st');
        CloseFreesActiveSeat(st, sid, c, st');
      }
    }
  }

  // ---------------------------------------------------------------- known producers

  /** The producers a client has been told of: those of its last join answer, and all that
      were announced since. */
  function Told(inbox: seq<Message>): set<(nat, ParticipantId)> {
    if inbox == [] then {}
    else
      match inbox[|inbox| - 1]
      case JoinOk(_, producers) => producers
      case NewProducer(who, x) => Told(inbox[..|inbox| - 1]) + {(x, who)}
      case _ => Told(inbox[..|inbox| - 1])
  }

  lemma {:induction false} ToldMore(inbox: seq<Message>, news: seq<Message>)
    requires forall m :: m in news ==> !m.JoinOk?
    ensures Told(inbox) <= Told(inbox + news)
    ensures forall m :: m in news && m.NewProducer? ==> (m.producer, m.who) in Told(inbox + news)
    ensures forall x, q :: (x, q) in Told(inbox + news) ==> (x, q) in Told(inbox) || NewProducer(q, x) in news
  {
    if news == [] {
      assert inbox + news == inbox;
    } else {
      var before, last := news[..|news| - 1], news[|news| - 1];
      ToldMore(inbox, before);
      assert news == before + [last];
      assert (inbox + news)[..|inbox + news| - 1] == inbox + before;
    }
  }

  /** An open member has been told of every producer of the others. */
  ghost predicate KnowsProducers(st: Media, c: ConnId) {
    forall sid, q, x :: Member(st, sid, c) && IsOpen(st, c) && InSession(st, sid, q) && q != st.conns[c].who
                        && x in st.sessions[sid].participants[q].producers ==>
      (x, q) in Told(st.conns[c].inbox)
  }

  lemma SnapshotTells(st: Media, c: ConnId, sid: SessionId, routerOk: bool, st': Media)
    requires EngineOk(st) && Speaks(st, c) && (sid in st.sessions || routerOk) && st' == Step(st, Signal(c, sid, JoinSession(routerOk)))
    requires forall s :: Member(st, s, c) ==> s == sid
    ensures c in st'.conns && KnowsProducers(st', c)
  {
    hide EngineOk, Step;
    var news := ConnAfter(st, Signal(c, sid, JoinSession(routerOk)), c, st');
    JoinDoes(st, c, sid, routerOk, st');
    var inbox := st.conns[c].inbox;
    assert (inbox + news)[..|inbox|] == inbox;
    forall s, q, x | Member(st', s, c) && IsOpen(st', c) && InSession(st', s, q) && q != st'.conns[c].who
                     && x in st'.sessions[s].participants[q].producers
      ensures (x, q) in Told(st'.conns[c].inbox)
    {
      if s != sid {
        MemberBefore(st, Signal(c, sid, JoinSession(routerOk)), s, c, st');
      }
      assert (x, q) in Snapshot(st, sid, st.conns[c].who).producers;
    }
  }

  lemma ProducerTold(st: Media, command: Command, c: ConnId, st': Media, sid: SessionId, q: ParticipantId, x: nat, news: seq<Message>)
    requires EngineOk(st) && c in st.conns && KnowsProducers(st, c) && st' == Step(st, command)
    requires !(command.Signal? && Joins(st, command, c, command.sid))
    requires Hears(st, st', c, news) && forall m :: m in news ==> !m.JoinOk?
    requires command.Signal? && command.request.NewProducerOn? && Speaks(st, command.conn) && st'.nextId != st.nextId
             && Member(st, command.sid, c) && st.conns[c].who != st.conns[command.conn].who ==>
      NewProducer(st.conns[command.conn].who, st.nextId) in news
    requires Member(st, sid, c) && IsOpen(st, c) && InSession(st', sid, q) && q != st.conns[c].who
    requires x in st'.sessions[sid].participants[q].producers
    ensures (x, q) in Told(st'.conns[c].inbox)
  {
    hide EngineOk, Step;
    ToldMore(st.conns[c].inbox, news);
    if JoinsAs(st, command, sid, q) {
      JoinDoes(st, command.conn, sid, command.request.routerOk, st');
    } else {
      EntryAfter(st, command, sid, q, st');
      if x !in st.sessions[sid].participants[q].producers {
        NewProducerDoes(st, command.conn, sid, command.request.ok, command.request.tapOk, st');
      }
    }
  }

  lemma StepKeepsKnown(st: Media, command: Command, c: ConnId, st': Media)
    requires EngineOk(st) && c in st.conns && KnowsProducers(st, c) && OneSession(st, command, c) && st' == Step(st, command)
    ensures KnowsProducers(st', c)
  {
    hide EngineOk, Step, KnowsProducers;
    if command.Signal? && Joins(st, command, c, command.sid) {
      SnapshotTells(st, c, command.sid, command.request.routerOk, st');
    } else {
      var news := ConnAfter(st, command, c, st');
      KnownSince(st, command, c, st', news);
    }
  }

  lemma KnownSince(st: Media, command: Command, c: ConnId, st': Media, news: seq<Message>)
    requires EngineOk(st) && c in st.conns && KnowsProducers(st, c) && st' == Step(st, command)
    requires !(command.Signal? && Joins(st, command, c, command.sid)) && ConnFollows(st, command, c, st', news)
    requires command.Signal? && command.request.NewProducerOn? && Speaks(st, command.conn) && st'.nextId != st.nextId
             && Member(st, command.sid, c) && st.conns[c].who != st.conns[command.conn].who ==>
      NewProducer(st.conns[command.conn].who, st.nextId) in news
    ensures KnowsProducers(st', c)
  {
    hide EngineOk, Step;
    forall sid, q, x | Member(st', sid, c) && IsOpen(st', c) && InSession(st', sid, q) && q != st'.conns[c].who
                       && x in st'.sessions[sid].participants[q].producers
      ensures (x, q) in Told(st'.conns[c].inbox)
    {
      MemberBefore(st, command, sid, c, st');
      ProducerTold(st, command, c, st', sid, q, x, news);
    }
  }

  lemma NewcomersKnowAll(st: Media, command: Command, c: ConnId)
    requires EngineOk(st) && c !in st.conns
    ensures KnowsProducers(Step(st, command), c)
  {
    hide EngineOk, Step;
    NotConnectedYet(st, command, c);
  }

  lemma {:induction false} RunsKnow(commands: seq<Command>, c: ConnId)
    requires StaysInOneSession(commands, c)
    ensures KnowsProducers(Run(commands), c)
  {
    hide EngineOk, Step, KnowsProducers;
    if commands == [] {
      NoneToKnow(c);
    } else {
      var before, last := commands[..|commands| - 1], commands[|commands| - 1];
      RunsKnow(before, c);
      RunsPin(before);
      if c in Run(before).conns {
        StepKeepsKnown(Run(before), last, c, Run(commands));
      } else {
        NewcomersKnowAll(Run(before), last, c);
      }
    }
  }

  lemma NoneToKnow(c: ConnId)
    ensures KnowsProducers(EMPTY, c)
  {
  }

  /** At some time in the run `x` was an open producer that `q` had made. */
  ghost predicate WasMade(commands: seq<Command>, x: nat, q: ParticipantId) {
    exists i :: 0 <= i <= |commands| && x in Run(commands[..i]).open && MadeBy(Run(commands[..i]).open[x], q)
  }

  lemma MadeNow(commands: seq<Command>, x: nat, q: ParticipantId)
    requires x in Run(commands).open && MadeBy(Run(commands).open[x], q)
    ensures WasMade(commands, x, q)
  {
    assert commands[..|commands|] == commands;
  }

  lemma MadeBefore(commands: seq<Command>, x: nat, q: ParticipantId)
    requires commands != [] && WasMade(commands[..|commands| - 1], x, q)
    ensures WasMade(commands, x, q)
  {
    var before := commands[..|commands| - 1];
    var i :| 0 <= i <= |before| && x in Run(before[..i]).open && MadeBy(Run(before[..i]).open[x], q);
    assert before[..i] == commands[..i];
  }

  lemma SnapshotIsTrue(st: Media, sid: SessionId, me: ParticipantId, x: nat, q: ParticipantId)
    requires EngineOk(st) && (x, q) in Snapshot(st, sid, me).producers
    ensures x in st.open && MadeBy(st.open[x], q)
  {
    assert ParticipantOk(st, st.sessions[sid].router, q, st.sessions[sid].participants[q]);
  }

  lemma NewlyTold(st: Media, command: Command, c: ConnId, st': Media, x: nat, q: ParticipantId)
    requires EngineOk(st) && c in st.conns && st' == Step(st, command) && c in st'.conns && (x, q) in Told(st'.conns[c].inbox)
    ensures (x, q) in Told(st.conns[c].inbox) || (x in st.open && MadeBy(st.open[x], q)) || (x in st'.open && MadeBy(st'.open[x], q))
  {
    hide EngineOk, Step, MadeBy;
    var inbox := st.conns[c].inbox;
    var news := ConnAfter(st, command, c, st');
    if IsOpen(st, c) {
      assert st'.conns[c].inbox == inbox + news;
      if command.Signal? && Joins(st, command, c, command.sid) {
        assert (inbox + news)[..|inbox|] == inbox;
        SnapshotIsTrue(st, command.sid, st.conns[c].who, x, q);
      } else {
        ToldMore(inbox, news);
        assert NewProducer(q, x) in news ==> x in st'.open && MadeBy(st'.open[x], q);
      }
    } else {
      assert st'.conns[c].inbox == inbox;
    }
  }

  /** Whatever a client is told of was made, and by the one it was told. */
  lemma {:induction false} ToldIsTrue(commands: seq<Command>, c: ConnId, x: nat, q: ParticipantId)
    requires c in Run(commands).conns && (x, q) in Told(Run(commands).conns[c].inbox)
    ensures WasMade(commands, x, q)
  {
    hide EngineOk, Step, WasMade, Told, MadeBy;
    if commands != [] {
      var before, last := commands[..|commands| - 1], commands[|commands| - 1];
      var st, st' := Run(before), Run(commands);
      RunsPin(before);
      if c in st.conns {
        NewlyTold(st, last, c, st', x, q);
        if (x, q) in Told(st.conns[c].inbox) {
          ToldIsTrue(before, c, x, q);
          MadeBefore(commands, x, q);
        } else if x in st.open && MadeBy(st.open[x], q) {
          MadeNow(before, x, q);
          MadeBefore(commands, x, q);
        } else {
          MadeNow(commands, x, q);
        }
      } else {
        NewcomerHeardNothing(st, last, c);
      }
    }
  }

  lemma NewcomerHeardNothing(st: Media, command: Command, c: ConnId)
    requires c !in st.conns && c in Step(st, command).conns
    ensures Told(Step(st, command).conns[c].inbox) == {}
  {
    if !command.Connect? {
      OnlyConnectConnects(st, command);
    }
  }

  /** What a client knows of producers. In every run, an open connection that has not joined a
      second session has been told, in its last join answer or since, of every producer that
      another participant of its session has, and of nothing that its owner never made. */
  lemma ClientsKnowProducers(commands: seq<Command>, sid: SessionId, c: ConnId, st: Media)
    requires StaysInOneSession(commands, c) && st == Run(commands)
    requires Member(st, sid, c) && IsOpen(st, c)
    ensures ProducersOfOthers(st.sessions[sid], st.conns[c].who) <= Told(st.conns[c].inbox)
    ensures forall x, q :: (x, q) in Told(st.conns[c].inbox) ==> WasMade(commands, x, q)
  {
    hide WasMade, Told, Run;
    RunsKnow(commands, c);
    forall x, q | (x, q) in Told(st.conns[c].inbox)
      ensures WasMade(commands, x, q)
    {
      ToldIsTrue(commands, c, x, q);
    }
  }
}
