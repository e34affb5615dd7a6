/**
 What every command does, told from the outside: what each connection hears, what the
 entries say afterwards, and that nothing else changes. No function of MediaSteps but
 `Step` itself is used to say so.
 */
module MediaAnswers {
  import opened Prelude
  import opened MediaModel
  import opened MediaSteps
  import opened MediaEngine
  import opened MediaViews

  // ------------------------------------------------------------------- hearing

  /** The connection, if it is open, was sent `news` and nothing else. */
  ghost predicate Hears(st: Media, st': Media, d: ConnId, news: seq<Message>) {
    && d in st.conns && d in st'.conns
    && st'.conns[d].inbox == st.conns[d].inbox + if st.conns[d].phase.Open? then news else []
  }

  /** Nothing but its inbox may have changed about the connection. */
  ghost predicate SameConn(st: Media, st': Media, d: ConnId) {
    && d in st.conns && d in st'.conns
    && st'.conns[d] == st.conns[d].(inbox := st'.conns[d].inbox)
  }

  /** News for the connections of a session's participants other than `q`. */
  function ToOthers(st: Media, sid: SessionId, q: ParticipantId, d: ConnId, m: Message): seq<Message> {
    if Member(st, sid, d) && st.conns[d].who != q then [m] else []
  }

  function ToOne(c: ConnId, d: ConnId, m: Message): seq<Message> {
    if d == c then [m] else []
  }

  /** Nothing changed but what one connection was told. */
  ghost predicate OnlyReplied(st: Media, st': Media, c: ConnId, ok: bool) {
    && st' == st.(conns := st'.conns) && st'.conns.Keys == st.conns.Keys
    && forall d :: d in st.conns ==> SameConn(st, st', d) && Hears(st, st', d, ToOne(c, d, Reply(ok)))
  }

  lemma HearsThen(st: Media, st1: Media, st2: Media, d: ConnId, a: seq<Message>, b: seq<Message>)
    requires Hears(st, st1, d, a) && Hears(st1, st2, d, b) && SameConn(st, st1, d)
    ensures Hears(st, st2, d, a + b)
  {
  }

  lemma NotifyHears(st: Media, sid: SessionId, except: Option<ParticipantId>, m: Message, d: ConnId)
    requires ParticipantsOk(st) && d in st.conns
    ensures SameConn(st, Notify(st, sid, except, m), d)
    ensures Hears(st, Notify(st, sid, except, m), d, if Member(st, sid, d) && Some(st.conns[d].who) != except then [m] else [])
  {
    if sid in st.sessions {
      MembersAreSockets(st, sid, except, d);
    }
  }

  lemma DeliverHears(st: Media, c: ConnId, m: Message, d: ConnId)
    requires d in st.conns
    ensures SameConn(st, Deliver(st, {c}, m), d) && Hears(st, Deliver(st, {c}, m), d, ToOne(c, d, m))
  {
  }

  lemma ReplyIsAll(st: Media, c: ConnId, ok: bool)
    ensures OnlyReplied(st, Deliver(st, {c}, Reply(ok)), c, ok)
  {
    forall d | d in st.conns
      ensures SameConn(st, Deliver(st, {c}, Reply(ok)), d) && Hears(st, Deliver(st, {c}, Reply(ok)), d, ToOne(c, d, Reply(ok)))
    {
      DeliverHears(st, c, Reply(ok), d);
    }
  }

  /** The others of a session are told, then one connection is answered. */
  lemma ToldAndAnswered(st: Media, sid: SessionId, q: ParticipantId, c: ConnId, m: Message, answer: Message, d: ConnId)
    requires EngineOk(st) && d in st.conns
    ensures var st' := Deliver(Notify(st, sid, Some(q), m), {c}, answer);
      SameConn(st, st', d) && Hears(st, st', d, ToOthers(st, sid, q, d, m) + ToOne(c, d, answer))
  {
    hide ResourcesOk, RoutersOpen, NothingLeaks;
    var st1 := Notify(st, sid, Some(q), m);
    NotifyHears(st, sid, Some(q), m, d);
    DeliverHears(st1, c, answer, d);
    HearsThen(st, st1, Deliver(st1, {c}, answer), d, ToOthers(st, sid, q, d, m), ToOne(c, d, answer));
  }

  // -------------------------------------------------------------------- mutes

  /** The participant's flags are what was asked for, a flag not given is as before, and
      nothing else but inboxes changed. */
  ghost predicate MutedAsAsked(st: Media, st': Media, sid: SessionId, q: ParticipantId, audio: Option<bool>, video: Option<bool>)
    requires InSession(st, sid, q)
  {
    InSession(st', sid, q) &&
    var p, p' := st.sessions[sid].participants[q], st'.sessions[sid].participants[q];
    && p'.audioMuted == (match audio case Some(a) => a case None => p.audioMuted)
    && p'.videoMuted == (match video case Some(v) => v case None => p.videoMuted)
    && p' == p.(audioMuted := p'.audioMuted, videoMuted := p'.videoMuted)
    && st' == st.(conns := st'.conns, sessions := st.sessions[sid := st.sessions[sid].(participants := st.sessions[sid].participants[q := p'])])
    && st'.conns.Keys == st.conns.Keys
  }

  /** A client's mute sets the flags it gives, is told to the others, and is answered. */
  lemma MuteSelfDoes(st: Media, c: ConnId, sid: SessionId, audio: Option<bool>, video: Option<bool>, st': Media)
    requires EngineOk(st) && Speaks(st, c) && InSession(st, sid, st.conns[c].who)
    requires st' == Step(st, Signal(c, sid, MuteSelf(audio, video)))
    ensures MutedAsAsked(st, st', sid, st.conns[c].who, audio, video)
    ensures forall d :: d in st.conns ==> SameConn(st, st', d)
    ensures var me := st.conns[c].who;
      var p' := st'.sessions[sid].participants[me];
      forall d :: d in st.conns ==>
        Hears(st, st', d, ToOthers(st, sid, me, d, MuteChanged(me, p'.audioMuted, p'.videoMuted)) + ToOne(c, d, Reply(true)))
  {
    hide EngineOk, SameConn, Hears, Notify, Deliver, MutedAsAsked;
    var me := st.conns[c].who;
    var p := Muted(st.sessions[sid].participants[me], audio, video);
    var m := MuteChanged(me, p.audioMuted, p.videoMuted);
    var st1 := WithParticipant(st, sid, me, p);
    MutedStaysOk(st, sid, me, p);
    assert st' == Deliver(Notify(st1, sid, Some(me), m), {c}, Reply(true));
    NotifyOnlySends(st1, sid, Some(me), m);
    DeliverOnlySends(Notify(st1, sid, Some(me), m), {c}, Reply(true));
    MutedEntry(st, st', sid, me, audio, video);
    forall d | d in st.conns
      ensures SameConn(st, st', d) && Hears(st, st', d, ToOthers(st, sid, me, d, m) + ToOne(c, d, Reply(true)))
    {
      ToldAndAnswered(st1, sid, me, c, m, Reply(true), d);
      SeenFrom(st, st1, st', sid, me, d, ToOthers(st1, sid, me, d, m) + ToOne(c, d, Reply(true)));
    }
  }

  /** Sending changes connections only, and makes none. */
  lemma NotifyOnlySends(st: Media, sid: SessionId, except: Option<ParticipantId>, m: Message)
    ensures var st' := Notify(st, sid, except, m); st' == st.(conns := st'.conns) && st'.conns.Keys == st.conns.Keys
  {
  }

  lemma DeliverOnlySends(st: Media, to: set<ConnId>, m: Message)
    ensures var st' := Deliver(st, to, m); st' == st.(conns := st'.conns) && st'.conns.Keys == st.conns.Keys
  {
  }

  lemma MutedEntry(st: Media, st': Media, sid: SessionId, q: ParticipantId, audio: Option<bool>, video: Option<bool>)
    requires InSession(st, sid, q) && st'.conns.Keys == st.conns.Keys
    requires st' == WithParticipant(st, sid, q, Muted(st.sessions[sid].participants[q], audio, video)).(conns := st'.conns)
    ensures MutedAsAsked(st, st', sid, q, audio, video)
  {
  }

  /** A changed entry changes nobody's place, and no inbox. */
  lemma SeenFrom(st: Media, st1: Media, st': Media, sid: SessionId, q: ParticipantId, d: ConnId, news: seq<Message>)
    requires InSession(st, sid, q) && InSession(st1, sid, q) && d in st.conns && st1.conns == st.conns
    requires st1 == WithParticipant(st, sid, q, st1.sessions[sid].participants[q])
    requires st1.sessions[sid].participants[q].socket == st.sessions[sid].participants[q].socket
    requires SameConn(st1, st', d) && Hears(st1, st', d, news)
    ensures SameConn(st, st', d) && Hears(st, st', d, news) && (Member(st1, sid, d) <==> Member(st, sid, d))
  {
  }

  /** A moderator's mute does the same, and the muted is told twice over: of the order and,
      like everybody else, of the change. */
  lemma ModerateMuteDoes(st: Media, sid: SessionId, pid: ParticipantId, audio: Option<bool>, video: Option<bool>, st': Media)
    requires EngineOk(st) && InSession(st, sid, pid)
    requires st' == Step(st, Mute(sid, pid, audio, video))
    ensures MutedAsAsked(st, st', sid, pid, audio, video)
    ensures forall d :: d in st.conns ==> SameConn(st, st', d)
    ensures var p' := st'.sessions[sid].participants[pid];
      forall d :: d in st.conns ==>
        Hears(st, st', d, ToOne(p'.socket, d, ModeratorMute(p'.audioMuted, p'.videoMuted))
                          + if Member(st, sid, d) then [MuteChanged(pid, p'.audioMuted, p'.videoMuted)] else [])
  {
    hide EngineOk, SameConn, Hears, Notify, Deliver, MutedAsAsked;
    var p := Muted(st.sessions[sid].participants[pid], audio, video);
    var m0, m := ModeratorMute(p.audioMuted, p.videoMuted), MuteChanged(pid, p.audioMuted, p.videoMuted);
    var st1 := WithParticipant(st, sid, pid, p);
    MutedStaysOk(st, sid, pid, p);
    assert st' == Notify(Deliver(st1, {p.socket}, m0), sid, None, m);
    DeliverOnlySends(st1, {p.socket}, m0);
    NotifyOnlySends(Deliver(st1, {p.socket}, m0), sid, None, m);
    MutedEntry(st, st', sid, pid, audio, video);
    forall d | d in st.conns
      ensures SameConn(st, st', d)
      ensures Hears(st, st', d, ToOne(p.socket, d, m0) + if Member(st, sid, d) then [m] else [])
    {
      ToldTwice(st1, sid, p.socket, m0, m, d);
      SeenFrom(st, st1, st', sid, pid, d, ToOne(p.socket, d, m0) + if Member(st1, sid, d) then [m] else []);
    }
  }

  /** A participant may change its flags. */
  lemma MutedStaysOk(st: Media, sid: SessionId, q: ParticipantId, p: Participant)
    requires EngineOk(st) && InSession(st, sid, q)
    requires p == st.sessions[sid].participants[q].(audioMuted := p.audioMuted, videoMuted := p.videoMuted)
    ensures EngineOk(WithParticipant(st, sid, q, p))
  {
    hide ResourcesOk, RoutersOpen, NothingLeaks;
    assert ParticipantOk(st, st.sessions[sid].router, q, st.sessions[sid].participants[q]);
    WithParticipantKeepsEngine(st, sid, q, p);
  }

  lemma ToldTwice(st: Media, sid: SessionId, c: ConnId, m0: Message, m: Message, d: ConnId)
    requires EngineOk(st) && d in st.conns
    ensures var st' := Notify(Deliver(st, {c}, m0), sid, None, m);
      SameConn(st, st', d) && Hears(st, st', d, ToOne(c, d, m0) + if Member(st, sid, d) then [m] else [])
  {
    hide ResourcesOk, RoutersOpen, NothingLeaks;
    var st1 := Deliver(st, {c}, m0);
    DeliverKeepsEngine(st, {c}, m0);
    DeliverHears(st, c, m0, d);
    NotifyHears(st1, sid, None, m, d);
    assert Member(st1, sid, d) <==> Member(st, sid, d);
    HearsThen(st, st1, Notify(st1, sid, None, m), d, ToOne(c, d, m0), if Member(st, sid, d) then [m] else []);
  }

  /** A mute of somebody who is not there changes nothing. */
  lemma MuteOfAbsent(st: Media, c: ConnId, sid: SessionId, pid: ParticipantId, audio: Option<bool>, video: Option<bool>)
    ensures !InSession(st, sid, pid) ==> Step(st, Mute(sid, pid, audio, video)) == st
    ensures Speaks(st, c) && !InSession(st, sid, st.conns[c].who) ==>
      OnlyReplied(st, Step(st, Signal(c, sid, MuteSelf(audio, video))), c, false)
  {
    ReplyIsAll(st, c, false);
  }

  // ------------------------------------------------------------------- joining

  /** Everybody but `q` sits where they sat. */
  ghost predicate SameSeatsBut(st: Media, st': Media, sid: SessionId, q: ParticipantId) {
    forall x :: x != q ==>
      (InSession(st', sid, x) <==> InSession(st, sid, x)) &&
      (InSession(st, sid, x) ==> st'.sessions[sid].participants[x].socket == st.sessions[sid].participants[x].socket)
  }

  /** So that the same connections are told about `q`. */
  lemma OthersAreTheSame(st: Media, st1: Media, st': Media, sid: SessionId, q: ParticipantId, d: ConnId, m: Message, rest: seq<Message>)
    requires SameSeatsBut(st, st1, sid, q) && d in st.conns && d in st1.conns
    requires st1.conns[d].who == st.conns[d].who && st1.conns[d].phase == st.conns[d].phase && st1.conns[d].inbox == st.conns[d].inbox
    requires Hears(st1, st', d, ToOthers(st1, sid, q, d, m) + rest)
    ensures Hears(st, st', d, ToOthers(st, sid, q, d, m) + rest)
  {
  }

  /** The participants of a session, none if it is not there. */
  function Seated(st: Media, sid: SessionId): map<ParticipantId, Participant> {
    if sid in st.sessions then st.sessions[sid].participants else map[]
  }

  /** The session is there, made on a new router if it has to be, and `c` sits in it with an
      entry of its own that holds nothing yet; nothing else changed but connections. */
  ghost predicate SeatTaken(st: Media, st': Media, c: ConnId, sid: SessionId)
    requires c in st.conns
  {
    var me, isNew := st.conns[c].who, sid !in st.sessions;
    && sid in st'.sessions && st'.sessions - {sid} == st.sessions - {sid}
    && st'.sessions[sid].participants ==
         Seated(st, sid)[me := Participant(st.conns[c].profile, c, false, false, None, None, {}, {})]
    && (!isNew ==> st'.sessions[sid] == st.sessions[sid].(participants := st'.sessions[sid].participants))
    && (isNew ==> st'.sessions[sid].router == st.nextId && !st'.sessions[sid].recordingActive)
    && st'.open == (if isNew then st.open[st.nextId := Resource(Router, st.nextId, 0, {})] else st.open)
    && st'.recordings == st.recordings && st'.recordingOf == st.recordingOf && st'.published == st.published
    && st'.conns.Keys == st.conns.Keys && st'.conns[c] == st.conns[c].(active := Some(sid), inbox := st'.conns[c].inbox)
  }

  /** What a joining client is told: who else is there, with profile and mute flags, and
      which producers they have. */
  function Snapshot(st: Media, sid: SessionId, me: ParticipantId): Message {
    JoinOk(map q | q in Seated(st, sid) && q != me ::
             Info(Some(Seated(st, sid)[q].profile), Seated(st, sid)[q].audioMuted, Seated(st, sid)[q].videoMuted),
           set q, x | q in Seated(st, sid) && q != me && x in Seated(st, sid)[q].producers :: (x, q))
  }

  lemma JoinRefused(st: Media, c: ConnId, sid: SessionId)
    requires Speaks(st, c) && sid !in st.sessions
    ensures OnlyReplied(st, Step(st, Signal(c, sid, JoinSession(false))), c, false)
  {
    ReplyIsAll(st, c, false);
  }

  lemma JoinDoes(st: Media, c: ConnId, sid: SessionId, routerOk: bool, st': Media)
    requires EngineOk(st) && Speaks(st, c) && (sid in st.sessions || routerOk)
    requires st' == Step(st, Signal(c, sid, JoinSession(routerOk)))
    ensures SeatTaken(st, st', c, sid)
    ensures forall d :: d in st.conns && d != c ==> SameConn(st, st', d)
    ensures forall d :: d in st.conns ==>
      Hears(st, st', d, ToOthers(st, sid, st.conns[c].who, d, ParticipantJoined(st.conns[c].who, st.conns[c].profile))
                        + ToOne(c, d, Snapshot(st, sid, st.conns[c].who)))
  {
    hide EngineOk, SameConn, Hears, Notify, Deliver, SeatTaken, SameSeatsBut, Snapshot;
    var me := st.conns[c].who;
    var st1 := WithActive(CreateSession(st, sid), c, Some(sid));
    var st2 := WithParticipant(st1, sid, me, Newcomer(st.conns[c], c));
    SeatedOk(st, c, sid);
    var m := ParticipantJoined(me, st.conns[c].profile);
    var st3 := Notify(st2, sid, Some(me), m);
    NotifyOnlySends(st2, sid, Some(me), m);
    SnapshotIs(st, st3, c, sid);
    DeliverOnlySends(st3, {c}, Snapshot(st, sid, me));
    assert st' == Deliver(st3, {c}, Snapshot(st, sid, me));
    forall d | d in st.conns
      ensures Hears(st, st', d, ToOthers(st, sid, me, d, m) + ToOne(c, d, Snapshot(st, sid, me)))
      ensures d != c ==> SameConn(st, st', d)
      ensures SameConn(st2, st', d)
    {
      ToldAndAnswered(st2, sid, me, c, m, Snapshot(st, sid, me), d);
      OthersAreTheSame(st, st2, st', sid, me, d, m, ToOne(c, d, Snapshot(st, sid, me)));
      SameThen(st, st2, st', d);
    }
    SeatIsTaken(st, st2, st', c, sid);
  }

  lemma SameThen(st: Media, st1: Media, st': Media, d: ConnId)
    requires d in st.conns && d in st1.conns && SameConn(st1, st', d)
    ensures st1.conns[d] == st.conns[d] ==> SameConn(st, st', d)
  {
  }

  lemma SeatedOk(st: Media, c: ConnId, sid: SessionId)
    requires EngineOk(st) && c in st.conns
    ensures var me := st.conns[c].who;
      var st1 := WithActive(CreateSession(st, sid), c, Some(sid));
      var st2 := WithParticipant(st1, sid, me, Newcomer(st.conns[c], c));
      EngineOk(st2) && SameSeatsBut(st, st2, sid, me)
  {
    hide ResourcesOk, RoutersOpen, NothingLeaks;
    CreateSessionKeepsEngine(st, sid);
    var st1 := WithActive(CreateSession(st, sid), c, Some(sid));
    SameEngine(CreateSession(st, sid), st1);
    WithParticipantKeepsEngine(st1, sid, st.conns[c].who, Newcomer(st.conns[c], c));
  }

  lemma SnapshotIs(st: Media, st3: Media, c: ConnId, sid: SessionId)
    requires c in st.conns
    requires st3.sessions == WithParticipant(WithActive(CreateSession(st, sid), c, Some(sid)), sid, st.conns[c].who, Newcomer(st.conns[c], c)).sessions
    ensures var me, s := st.conns[c].who, st3.sessions[sid];
      JoinOk(Others(s, me), ProducersOfOthers(s, me)) == Snapshot(st, sid, me)
  {
    var me, s := st.conns[c].who, st3.sessions[sid];
    assert forall q :: q != me ==> (q in s.participants <==> q in Seated(st, sid));
    assert forall q :: q != me && q in s.participants ==> s.participants[q] == Seated(st, sid)[q];
    assert Others(s, me) == Snapshot(st, sid, me).participants;
    assert ProducersOfOthers(s, me) == Snapshot(st, sid, me).producers;
  }

  lemma SeatIsTaken(st: Media, st2: Media, st': Media, c: ConnId, sid: SessionId)
    requires c in st.conns
    requires st2 == WithParticipant(WithActive(CreateSession(st, sid), c, Some(sid)), sid, st.conns[c].who, Newcomer(st.conns[c], c))
    requires st' == st2.(conns := st'.conns) && st'.conns.Keys == st.conns.Keys && SameConn(st2, st', c)
    ensures SeatTaken(st, st', c, sid)
  {
    assert st'.sessions - {sid} == st.sessions - {sid};
  }

  // ------------------------------------------------------ transports and streams

  /** The caller's entry becomes `p`, one object `r` is made, and it is answered. */
  ghost predicate MadeFor(st: Media, st': Media, c: ConnId, sid: SessionId, p: Participant, r: Resource)
    requires c in st.conns && InSession(st, sid, st.conns[c].who)
  {
    var me := st.conns[c].who;
    && st'.sessions == st.sessions[sid := st.sessions[sid].(participants := st.sessions[sid].participants[me := p])]
    && st.nextId !in st.open && st'.open == st.open[st.nextId := r] && st'.nextId == st.nextId + 1
    && st'.recordingOf == st.recordingOf && st'.published == st.published
    && st'.conns.Keys == st.conns.Keys && forall d :: d in st.conns ==> SameConn(st, st', d)
  }

  lemma FreshId(st: Media)
    requires EngineOk(st)
    ensures st.nextId !in st.open
  {
  }

  lemma NewTransportDoes(st: Media, c: ConnId, sid: SessionId, send: bool, ok: bool, st': Media)
    requires EngineOk(st) && Speaks(st, c)
    requires st' == Step(st, Signal(c, sid, NewTransport(send, ok)))
    ensures sid !in st.sessions || !ok ==> OnlyReplied(st, st', c, false)
    ensures sid in st.sessions && ok && !InSession(st, sid, st.conns[c].who) ==>
      && st'.open == st.open[st.nextId := Resource(Transport, st.sessions[sid].router, st.conns[c].who, {st.sessions[sid].router})]
      && st' == st.(open := st'.open, nextId := st.nextId + 1, conns := st'.conns) && st'.conns.Keys == st.conns.Keys
      && forall d :: d in st.conns ==> SameConn(st, st', d) && Hears(st, st', d, ToOne(c, d, Reply(false)))
    ensures InSession(st, sid, st.conns[c].who) && ok ==>
      var p, router := st.sessions[sid].participants[st.conns[c].who], st.sessions[sid].router;
      && MadeFor(st, st', c, sid, if send then p.(send := Some(st.nextId)) else p.(recv := Some(st.nextId)),
                 Resource(Transport, router, st.conns[c].who, {router}))
      && st'.recordings == st.recordings
      && forall d :: d in st.conns ==> Hears(st, st', d, ToOne(c, d, Made(st.nextId)))
  {
    hide EngineOk, SameConn, Hears, Deliver, MadeFor, OnlyReplied;
    FreshId(st);
    ReplyIsAll(st, c, false);
    if sid in st.sessions && ok {
      var me, router := st.conns[c].who, st.sessions[sid].router;
      var st1 := Make(st, sid, Transport, me, {router});
      if !InSession(st, sid, me) {
        AnsweredOnly(st, st1, c, Reply(false));
      } else {
        var p := st.sessions[sid].participants[me];
        var p' := if send then p.(send := Some(st.nextId)) else p.(recv := Some(st.nextId));
        var st2 := WithParticipant(st1, sid, me, p');
        AnsweredOnly(st, st2, c, Made(st.nextId));
        IsMadeFor(st, st', c, sid, p', Resource(Transport, router, me, {router}));
      }
    }
  }

  lemma AnsweredOnly(st: Media, st1: Media, c: ConnId, answer: Message)
    requires st1.conns == st.conns
    ensures var st' := Deliver(st1, {c}, answer);
      && st' == st1.(conns := st'.conns) && st'.conns.Keys == st.conns.Keys
      && forall d :: d in st.conns ==> SameConn(st, st', d) && Hears(st, st', d, ToOne(c, d, answer))
  {
  }

  /** A client may produce if it is in the session with an open send transport. The others
      are told of the one producer that is new in its entry, and it is answered. */
  lemma NewProducerDoes(st: Media, c: ConnId, sid: SessionId, ok: bool, tapOk: bool, st': Media)
    requires EngineOk(st) && Speaks(st, c)
    requires st' == Step(st, Signal(c, sid, NewProducerOn(ok, tapOk)))
    ensures var may := InSession(st, sid, st.conns[c].who) && st.sessions[sid].participants[st.conns[c].who].send.Some?
                       && st.sessions[sid].participants[st.conns[c].who].send.value in st.open;
      if !may || !ok then OnlyReplied(st, st', c, false)
      else
        var me, x := st.conns[c].who, st.nextId;
        var p, t := st.sessions[sid].participants[me], st.sessions[sid].participants[me].send.value;
        && st'.sessions[sid].participants[me].producers - p.producers == {x}
        && MadeFor(st, st', c, sid, p.(producers := p.producers + {x}),
                   Resource(Producer, st.sessions[sid].router, me, {t} + st.open[t].deps))
        && forall d :: d in st.conns ==> Hears(st, st', d, ToOthers(st, sid, me, d, NewProducer(me, x)) + ToOne(c, d, Made(x)))
  {
    hide EngineOk, SameConn, Hears, Notify, Deliver, MadeFor, OnlyReplied, RecordProducer;
    var me, x := st.conns[c].who, st.nextId;
    if !CanProduce(st, sid, me) || !ok {
      ReplyIsAll(st, c, false);
    } else {
      var p := st.sessions[sid].participants[me];
      var t := p.send.value;
      var r := Resource(Producer, st.sessions[sid].router, me, {t} + st.open[t].deps);
      var st2 := WithParticipant(Make(st, sid, Producer, me, r.deps), sid, me, p.(producers := p.producers + {x}));
      var m := NewProducer(me, x);
      var st3 := Notify(st2, sid, Some(me), m);
      ProducedOk(st, st2, c, sid, tapOk);
      NotifyOnlySends(st2, sid, Some(me), m);
      TapsOnlyRecordings(st3, sid, x, tapOk, c);
      NewInEntry(st, sid, me);
      forall d | d in st.conns
        ensures SameConn(st, st', d) && Hears(st, st', d, ToOthers(st, sid, me, d, m) + ToOne(c, d, Made(x)))
      {
        ToldAndAnswered(st2, sid, me, c, m, Made(x), d);
        SameConns(st2, Deliver(st3, {c}, Made(x)), st', d, ToOthers(st2, sid, me, d, m) + ToOne(c, d, Made(x)));
        SeatsOfUpdated(st, st2, sid, me);
        OthersAreTheSame(st, st2, st', sid, me, d, m, ToOne(c, d, Made(x)));
        SameThen(st, st2, st', d);
      }
      IsMadeFor(st, st', c, sid, p.(producers := p.producers + {x}), r);
    }
  }

  lemma NewInEntry(st: Media, sid: SessionId, q: ParticipantId)
    requires EngineOk(st) && InSession(st, sid, q)
    ensures st.nextId !in st.open && st.nextId !in st.sessions[sid].participants[q].producers
  {
    assert ParticipantOk(st, st.sessions[sid].router, q, st.sessions[sid].participants[q]);
  }

  lemma IsMadeFor(st: Media, st': Media, c: ConnId, sid: SessionId, p: Participant, r: Resource)
    requires c in st.conns && InSession(st, sid, st.conns[c].who) && st.nextId !in st.open
    requires st'.sessions == st.sessions[sid := st.sessions[sid].(participants := st.sessions[sid].participants[st.conns[c].who := p])]
    requires st'.open == st.open[st.nextId := r] && st'.nextId == st.nextId + 1
    requires st'.recordingOf == st.recordingOf && st'.published == st.published && st'.conns.Keys == st.conns.Keys
    requires forall d :: d in st.conns ==> SameConn(st, st', d)
    ensures MadeFor(st, st', c, sid, p, r)
  {
  }

  lemma SameConns(st: Media, st1: Media, st': Media, d: ConnId, news: seq<Message>)
    requires SameConn(st, st1, d) && Hears(st, st1, d, news) && st'.conns == st1.conns
    ensures SameConn(st, st', d) && Hears(st, st', d, news)
  {
  }

  lemma SeatsOfUpdated(st: Media, st': Media, sid: SessionId, q: ParticipantId)
    requires InSession(st, sid, q) && InSession(st', sid, q)
    requires st'.sessions[sid].participants == st.sessions[sid].participants[q := st'.sessions[sid].participants[q]]
    ensures SameSeatsBut(st, st', sid, q)
  {
  }

  /** A tap touches recordings only. */
  lemma TapsOnlyRecordings(st: Media, sid: SessionId, x: nat, tapOk: bool, c: ConnId)
    ensures var st' := Deliver(RecordProducer(st, sid, x, tapOk), {c}, Made(x));
      && st' == st.(conns := st'.conns, recordings := st'.recordings)
      && st'.conns == Deliver(st, {c}, Made(x)).conns && st'.conns.Keys == st.conns.Keys
  {
  }

  lemma ProducedOk(st: Media, st2: Media, c: ConnId, sid: SessionId, tapOk: bool)
    requires EngineOk(st) && c in st.conns && CanProduce(st, sid, st.conns[c].who)
    requires var me, p := st.conns[c].who, st.sessions[sid].participants[st.conns[c].who];
      st2 == WithParticipant(Make(st, sid, Producer, me, {p.send.value} + st.open[p.send.value].deps), sid, me,
                             p.(producers := p.producers + {st.nextId}))
    ensures EngineOk(st2)
  {
    hide EngineOk;
    ProduceKeepsEngine(st, c, sid, true, tapOk);
    Produced(st, c, sid, tapOk, Produce(st, c, sid, true, tapOk));
    SameEngine(Produce(st, c, sid, true, tapOk), st2);
  }

  /** A client may consume an open producer of the session's router if it is in the session
      with an open receive transport. */
  lemma NewConsumerDoes(st: Media, c: ConnId, sid: SessionId, producer: nat, ok: bool, st': Media)
    requires EngineOk(st) && Speaks(st, c)
    requires st' == Step(st, Signal(c, sid, NewConsumer(producer, ok)))
    ensures var may := InSession(st, sid, st.conns[c].who) && st.sessions[sid].participants[st.conns[c].who].recv.Some?
                       && st.sessions[sid].participants[st.conns[c].who].recv.value in st.open
                       && producer in st.open && st.open[producer].kind == Producer
                       && st.open[producer].router == st.sessions[sid].router;
      if !may || !ok then OnlyReplied(st, st', c, false)
      else
        var me, p := st.conns[c].who, st.sessions[sid].participants[st.conns[c].who];
        && MadeFor(st, st', c, sid, p.(consumers := p.consumers + {st.nextId}),
                   Resource(Consumer, st.sessions[sid].router, me,
                            {p.recv.value, producer} + st.open[p.recv.value].deps + st.open[producer].deps))
        && st'.recordings == st.recordings
        && forall d :: d in st.conns ==> Hears(st, st', d, ToOne(c, d, Made(st.nextId)))
  {
    hide EngineOk, SameConn, Hears, Deliver, MadeFor, OnlyReplied;
    var me := st.conns[c].who;
    FreshId(st);
    ReplyIsAll(st, c, false);
    if CanConsume(st, sid, me, producer) && ok {
      var p := st.sessions[sid].participants[me];
      var r := Resource(Consumer, st.sessions[sid].router, me,
                        {p.recv.value, producer} + st.open[p.recv.value].deps + st.open[producer].deps);
      var p' := p.(consumers := p.consumers + {st.nextId});
      AnsweredOnly(st, WithParticipant(Make(st, sid, Consumer, me, r.deps), sid, me, p'), c, Made(st.nextId));
      IsMadeFor(st, st', c, sid, p', r);
    }
  }

  // -------------------------------------------------------------------- leaving

  /** The entry may have lost producers and consumers, and has changed in nothing else. */
  predicate SameButClosed(p: Participant, p': Participant) {
    && p' == p.(producers := p'.producers, consumers := p'.consumers)
    && p'.producers <= p.producers && p'.consumers <= p.consumers
  }

  /** Whoever is left in a session was there and has the same entry, up to closed objects. */
  ghost predicate NobodyNew(st: Media, st': Media) {
    forall s, x :: InSession(st', s, x) ==>
      InSession(st, s, x) && SameButClosed(st.sessions[s].participants[x], st'.sessions[s].participants[x])
  }

  /** `q` and nobody else has left the session, which is gone if nobody else was there and
      it is not being recorded. */
  ghost predicate Departed(st: Media, st': Media, sid: SessionId, q: ParticipantId) {
    && NobodyNew(st, st')
    && (forall s :: s != sid ==> (s in st'.sessions <==> s in st.sessions))
    && (sid in st'.sessions <==> sid in st.sessions && (st.sessions[sid].participants.Keys == {q} ==> st.sessions[sid].recordingActive))
    && (forall s, x :: InSession(st', s, x) <==> InSession(st, s, x) && !(s == sid && x == q))
    && (forall s :: s in st'.sessions ==> st'.sessions[s].router == st.sessions[s].router
                                          && st'.sessions[s].recordingActive == st.sessions[s].recordingActive)
    && st'.recordingOf == st.recordingOf && st'.published == st.published && st'.nextId == st.nextId
    && st'.conns.Keys == st.conns.Keys
  }

  /** Closing objects throws nobody out. */
  lemma ClosingKeepsEntries(st: Media, ids: set<nat>)
    ensures var st' := CloseAll(st, ids); NobodyNew(st, st') && forall s, x :: InSession(st', s, x) <==> InSession(st, s, x)
  {
    var st' := CloseAll(st, ids);
    forall s, x | InSession(st', s, x)
      ensures SameButClosed(st.sessions[s].participants[x], st'.sessions[s].participants[x])
    {
    }
  }

  lemma EndDeparts(st: Media, sid: SessionId)
    ensures NobodyNew(st, EndSession(st, sid)) && EndSession(st, sid).conns == st.conns
    ensures forall s :: s in EndSession(st, sid).sessions <==> s in st.sessions && s != sid
    ensures forall s, x :: InSession(EndSession(st, sid), s, x) <==> InSession(st, s, x) && s != sid
  {
    if sid in st.sessions {
      ClosingKeepsEntries(st, {st.sessions[sid].router});
      var st1, st' := CloseAll(st, {st.sessions[sid].router}), EndSession(st, sid);
      assert forall s, x :: InSession(st', s, x) <==> InSession(st1, s, x) && s != sid;
    } else {
      assert forall s, x :: InSession(st, s, x) ==> SameButClosed(st.sessions[s].participants[x], st.sessions[s].participants[x]);
    }
  }

  lemma DropDeparts(st: Media, sid: SessionId, q: ParticipantId)
    requires InSession(st, sid, q)
    ensures NobodyNew(st, DropParticipant(st, sid, q))
    ensures forall s, x :: InSession(DropParticipant(st, sid, q), s, x) <==> InSession(st, s, x) && !(s == sid && x == q)
  {
    var ids := Owned(st.sessions[sid].participants[q]);
    ClosingKeepsEntries(st, ids);
    var st1, st' := CloseAll(st, ids), DropParticipant(st, sid, q);
    assert forall s, x :: InSession(st', s, x) <==> InSession(st1, s, x) && !(s == sid && x == q);
  }

  lemma RemovalDeparts(st: Media, sid: SessionId, q: ParticipantId)
    ensures Departed(st, RemoveParticipant(st, sid, q), sid, q)
    ensures SameSeatsBut(st, RemoveParticipant(st, sid, q), sid, q)
    ensures RemoveParticipant(st, sid, q).conns == st.conns
  {
    var st' := RemoveParticipant(st, sid, q);
    RemovalLeaves(st, sid, q);
    RemovalKeepsRest(st, sid, q);
    forall x | x != q && InSession(st, sid, x)
      ensures st'.sessions[sid].participants[x].socket == st.sessions[sid].participants[x].socket
    {
      assert InSession(st', sid, x);
    }
  }

  lemma RemovalLeaves(st: Media, sid: SessionId, q: ParticipantId)
    ensures NobodyNew(st, RemoveParticipant(st, sid, q))
    ensures forall s, x :: InSession(RemoveParticipant(st, sid, q), s, x) <==> InSession(st, s, x) && !(s == sid && x == q)
  {
    hide EndSession, DropParticipant;
    if InSession(st, sid, q) {
      DropDeparts(st, sid, q);
      EndDeparts(st, sid);
    } else {
      assert forall s, x :: InSession(st, s, x) ==> SameButClosed(st.sessions[s].participants[x], st.sessions[s].participants[x]);
    }
  }

  lemma RemovalKeepsRest(st: Media, sid: SessionId, q: ParticipantId)
    ensures var st' := RemoveParticipant(st, sid, q);
      && (forall s :: s != sid ==> (s in st'.sessions <==> s in st.sessions))
      && (sid in st'.sessions <==> sid in st.sessions && (st.sessions[sid].participants.Keys == {q} ==> st.sessions[sid].recordingActive))
      && (forall s :: s in st'.sessions ==> st'.sessions[s].router == st.sessions[s].router
                                            && st'.sessions[s].recordingActive == st.sessions[s].recordingActive)
      && st' == st.(sessions := st'.sessions, open := st'.open, recordings := st'.recordings)
  {
  }

  /** A leave takes the client out of the session, if it is there, and is told and answered
      in any case. */
  lemma LeaveDoes(st: Media, c: ConnId, sid: SessionId, st': Media)
    requires EngineOk(st) && Speaks(st, c)
    requires st' == Step(st, Signal(c, sid, LeaveSession))
    ensures Departed(st, st', sid, st.conns[c].who)
    ensures st'.conns[c] == st.conns[c].(active := None, inbox := st'.conns[c].inbox)
    ensures forall d :: d in st.conns && d != c ==> SameConn(st, st', d)
    ensures forall d :: d in st.conns ==>
      Hears(st, st', d, ToOthers(st, sid, st.conns[c].who, d, ParticipantLeft(st.conns[c].who)) + ToOne(c, d, Reply(true)))
  {
    hide EngineOk, SameConn, Hears, Notify, Deliver, Departed, SameSeatsBut, RemoveParticipant;
    var me := st.conns[c].who;
    var st1 := WithActive(st, c, None);
    var st2 := RemoveParticipant(st1, sid, me);
    var m := ParticipantLeft(me);
    SameEngine(st, st1);
    RemoveKeepsEngine(st1, sid, me);
    RemovalDeparts(st1, sid, me);
    NotifyOnlySends(st2, sid, Some(me), m);
    DeliverOnlySends(Notify(st2, sid, Some(me), m), {c}, Reply(true));
    forall d | d in st.conns
      ensures Hears(st, st', d, ToOthers(st, sid, me, d, m) + ToOne(c, d, Reply(true)))
      ensures d != c ==> SameConn(st, st', d)
      ensures SameConn(st2, st', d)
    {
      ToldAndAnswered(st2, sid, me, c, m, Reply(true), d);
      SeatsThen(st, st1, st2, sid, me);
      OthersAreTheSame(st, st2, st', sid, me, d, m, ToOne(c, d, Reply(true)));
      SameThen(st, st2, st', d);
    }
    DepartedThen(st, st1, st2, st', sid, me);
    ActiveGone(st, st2, st', c);
  }

  lemma ActiveGone(st: Media, st2: Media, st': Media, c: ConnId)
    requires c in st.conns && st2.conns == WithActive(st, c, None).conns && SameConn(st2, st', c)
    ensures c in st'.conns && st'.conns[c] == st.conns[c].(active := None, inbox := st'.conns[c].inbox)
  {
  }

  lemma SeatsThen(st: Media, st1: Media, st2: Media, sid: SessionId, q: ParticipantId)
    requires st1.sessions == st.sessions && SameSeatsBut(st1, st2, sid, q)
    ensures SameSeatsBut(st, st2, sid, q)
  {
  }

  /** Only connections changed before and after the departure. */
  lemma DepartedThen(st: Media, st1: Media, st2: Media, st': Media, sid: SessionId, q: ParticipantId)
    requires st1 == st.(conns := st1.conns) && st1.conns.Keys == st.conns.Keys && Departed(st1, st2, sid, q)
    requires st' == st2.(conns := st'.conns) && st'.conns.Keys == st2.conns.Keys
    ensures Departed(st, st', sid, q)
  {
    forall s, x | InSession(st', s, x)
      ensures InSession(st, s, x) && SameButClosed(st.sessions[s].participants[x], st'.sessions[s].participants[x])
    {
      assert InSession(st2, s, x) && InSession(st1, s, x);
    }
    forall s, x
      ensures InSession(st', s, x) <==> InSession(st, s, x) && !(s == sid && x == q)
    {
      assert InSession(st2, s, x) <==> InSession(st', s, x);
      assert InSession(st1, s, x) <==> InSession(st, s, x);
    }
  }

  /** The close of a socket takes its participant out of the session it last joined and did
      not leave, if it is in there. */
  lemma SocketClosedDoes(st: Media, c: ConnId, st': Media)
    requires EngineOk(st) && Speaks(st, c) && st' == Step(st, SocketClosed(c))
    ensures var me := st.conns[c].who;
      if st.conns[c].active.None? || !InSession(st, st.conns[c].active.value, me) then
        st' == st.(conns := st.conns[c := st.conns[c].(phase := Closed)])
      else
        var sid := st.conns[c].active.value;
        && Departed(st, st', sid, me) && st'.conns[c] == st.conns[c].(phase := Closed)
        && (forall d :: d in st.conns && d != c ==> SameConn(st, st', d))
        && (forall d :: d in st.conns ==> Hears(st, st', d, ToOthers(st, sid, me, d, ParticipantLeft(me)) + []))
  {
    hide EngineOk, SameConn, Hears, Notify, Departed, SameSeatsBut, RemoveParticipant, ToOthers;
    var me := st.conns[c].who;
    var st1 := st.(conns := st.conns[c := st.conns[c].(phase := Closed)]);
    if st.conns[c].active.Some? && InSession(st, st.conns[c].active.value, me) {
      var sid := st.conns[c].active.value;
      SameEngine(st, st1);
      RemoveKeepsEngine(st1, sid, me);
      RemovalDeparts(st1, sid, me);
      var st2, m := RemoveParticipant(st1, sid, me), ParticipantLeft(me);
      NotifyOnlySends(st2, sid, Some(me), m);
      DepartedThen(st, st1, st2, st', sid, me);
      forall d | d in st.conns
        ensures Hears(st, st', d, ToOthers(st, sid, me, d, m) + [])
        ensures d != c ==> SameConn(st, st', d)
        ensures d == c ==> st'.conns[c] == st.conns[c].(phase := Closed)
      {
        ToldOnly(st2, sid, me, m, d);
        SeatsThen(st, st1, st2, sid, me);
        SameThen(st, st2, st', d);
        if d == c {
          ClosedHearsNothing(st, st2, st', sid, c, m);
        } else {
          OthersAreTheSame(st, st2, st', sid, me, d, m, []);
        }
      }
    }
  }

  lemma ToldOnly(st: Media, sid: SessionId, q: ParticipantId, m: Message, d: ConnId)
    requires EngineOk(st) && d in st.conns
    ensures SameConn(st, Notify(st, sid, Some(q), m), d)
    ensures Hears(st, Notify(st, sid, Some(q), m), d, ToOthers(st, sid, q, d, m) + [])
  {
    hide ResourcesOk, RoutersOpen, NothingLeaks;
    NotifyHears(st, sid, Some(q), m, d);
    assert ToOthers(st, sid, q, d, m) + [] == ToOthers(st, sid, q, d, m);
  }

  lemma ClosedHearsNothing(st: Media, st2: Media, st': Media, sid: SessionId, c: ConnId, m: Message)
    requires c in st.conns && st2.conns == st.conns[c := st.conns[c].(phase := Closed)]
    requires SameConn(st2, st', c) && Hears(st2, st', c, ToOthers(st2, sid, st.conns[c].who, c, m) + [])
    ensures Hears(st, st', c, ToOthers(st, sid, st.conns[c].who, c, m) + [])
    ensures st'.conns[c] == st.conns[c].(phase := Closed)
  {
  }

  /** A kick tells the kicked, starts closing its socket, takes the participant out and tells
      the others. */
  lemma KickOutDoes(st: Media, sid: SessionId, pid: ParticipantId, st': Media)
    requires EngineOk(st) && InSession(st, sid, pid) && st' == Step(st, KickOut(sid, pid))
    ensures Departed(st, st', sid, pid)
    ensures var k := st.sessions[sid].participants[pid].socket;
      && k in st.conns && st'.conns[k] == st.conns[k].(inbox := st'.conns[k].inbox,
                                                       phase := if st.conns[k].phase == Open then Closing else st.conns[k].phase)
      && (forall d :: d in st.conns && d != k ==> SameConn(st, st', d))
      && (forall d :: d in st.conns ==>
            Hears(st, st', d, ToOne(k, d, ModeratorKicked(pid)) + ToOthers(st, sid, pid, d, ParticipantLeft(pid))))
  {
    hide EngineOk, SameConn, Hears, Notify, Deliver, Departed, SameSeatsBut, RemoveParticipant, ToOthers;
    var k := st.sessions[sid].participants[pid].socket;
    SocketIsOwn(st, sid, pid);
    var st1 := Deliver(st, {k}, ModeratorKicked(pid));
    DeliverOnlySends(st, {k}, ModeratorKicked(pid));
    DeliverKeepsEngine(st, {k}, ModeratorKicked(pid));
    var st2 := if k in st1.conns && st1.conns[k].phase.Open?
               then st1.(conns := st1.conns[k := st1.conns[k].(phase := Closing)]) else st1;
    SameEngine(st1, st2);
    RemoveKeepsEngine(st2, sid, pid);
    RemovalDeparts(st2, sid, pid);
    var st3, m := RemoveParticipant(st2, sid, pid), ParticipantLeft(pid);
    NotifyOnlySends(st3, sid, None, m);
    DepartedThen(st, st2, st3, st', sid, pid);
    assert st' == Notify(st3, sid, None, m);
    forall d | d in st.conns
      ensures Hears(st, st', d, ToOne(k, d, ModeratorKicked(pid)) + ToOthers(st, sid, pid, d, m))
      ensures d != k ==> SameConn(st, st', d)
      ensures d == k ==> st'.conns[k] == st.conns[k].(inbox := st'.conns[k].inbox,
                                                      phase := if st.conns[k].phase == Open then Closing else st.conns[k].phase)
    {
      DeliverHears(st, k, ModeratorKicked(pid), d);
      SeatsThen(st, st2, st3, sid, pid);
      ToldLeft(st3, sid, pid, m, d);
      KickedHears(st, st1, st3, st', sid, pid, k, m, d);
    }
  }

  lemma SocketIsOwn(st: Media, sid: SessionId, q: ParticipantId)
    requires EngineOk(st) && InSession(st, sid, q)
    ensures var k := st.sessions[sid].participants[q].socket; k in st.conns && st.conns[k].who == q
  {
    assert ParticipantOk(st, st.sessions[sid].router, q, st.sessions[sid].participants[q]);
  }

  /** Telling everybody who is left is telling the others. */
  lemma ToldLeft(st: Media, sid: SessionId, q: ParticipantId, m: Message, d: ConnId)
    requires EngineOk(st) && d in st.conns && !InSession(st, sid, q)
    ensures SameConn(st, Notify(st, sid, None, m), d) && Hears(st, Notify(st, sid, None, m), d, ToOthers(st, sid, q, d, m))
  {
    hide ResourcesOk, RoutersOpen, NothingLeaks;
    NotifyHears(st, sid, None, m, d);
  }

  lemma KickedHears(st: Media, st1: Media, st3: Media, st': Media, sid: SessionId, q: ParticipantId, k: ConnId, m: Message, d: ConnId)
    requires k in st.conns && st.conns[k].who == q && SameSeatsBut(st, st3, sid, q)
    requires SameConn(st, st1, d) && Hears(st, st1, d, ToOne(k, d, ModeratorKicked(q)))
    requires d in st3.conns && st3.conns[d] == if d == k && st1.conns[d].phase.Open? then st1.conns[d].(phase := Closing) else st1.conns[d]
    requires SameConn(st3, st', d) && Hears(st3, st', d, ToOthers(st3, sid, q, d, m))
    ensures Hears(st, st', d, ToOne(k, d, ModeratorKicked(q)) + ToOthers(st, sid, q, d, m))
    ensures d != k ==> SameConn(st, st', d)
    ensures d == k ==> st'.conns[k] == st.conns[k].(inbox := st'.conns[k].inbox,
                                                    phase := if st.conns[k].phase == Open then Closing else st.conns[k].phase)
  {
  }

  /** An end makes the session vanish and tells nobody. */
  lemma EndDoes(st: Media, sid: SessionId, rejects: set<nat>, archiveOk: bool, st': Media)
    requires st' == Step(st, End(sid, rejects, archiveOk))
    ensures st'.conns == st.conns && NobodyNew(st, st')
    ensures forall s :: s in st'.sessions <==> s in st.sessions && s != sid
    ensures forall s, x :: InSession(st', s, x) <==> InSession(st, s, x) && s != sid
  {
    hide EndSession, NobodyNew, SameButClosed;
    var st1 := StopRecordingBySession(st, sid, rejects, archiveOk);
    EndDeparts(st1, sid);
    StopKeepsEntries(st, sid, rejects, archiveOk);
    NobodyNewThen(st, st1, st');
  }

  lemma StopKeepsEntries(st: Media, sid: SessionId, rejects: set<nat>, archiveOk: bool)
    ensures var st' := StopRecordingBySession(st, sid, rejects, archiveOk);
      && st'.conns == st.conns && st'.sessions.Keys == st.sessions.Keys
      && forall s :: s in st.sessions ==> st'.sessions[s].participants == st.sessions[s].participants
  {
    hide StopRecording;
    if sid in st.recordingOf {
      StopLeavesSeats(st, st.recordingOf[sid], rejects, archiveOk);
    }
  }

  lemma StopLeavesSeats(st: Media, rid: RecordingId, rejects: set<nat>, archiveOk: bool)
    ensures var st' := StopRecording(st, rid, rejects, archiveOk);
      && st'.conns == st.conns && st'.sessions.Keys == st.sessions.Keys
      && forall s :: s in st.sessions ==> st'.sessions[s].participants == st.sessions[s].participants
  {
    hide StopEvent;
  }

  lemma NobodyNewThen(st: Media, st1: Media, st': Media)
    requires st1.sessions.Keys == st.sessions.Keys && NobodyNew(st1, st')
    requires forall s :: s in st.sessions ==> st1.sessions[s].participants == st.sessions[s].participants
    ensures NobodyNew(st, st')
    ensures forall s, x :: InSession(st1, s, x) <==> InSession(st, s, x)
  {
    forall s, x | InSession(st', s, x)
      ensures InSession(st, s, x) && SameButClosed(st.sessions[s].participants[x], st'.sessions[s].participants[x])
    {
      assert InSession(st1, s, x);
    }
  }
}
