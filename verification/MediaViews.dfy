/** What a client believes about its session is what the server knows. */
module MediaViews {
  import opened Prelude
  import opened MediaModel
  import opened MediaSteps
  import opened MediaEngine
  import opened MediaRecordings

  // ---------------------------------------------------------------- the client

  type Roster = map<ParticipantId, Info>

  /** How the portal's call client updates its participants on a message. A mute change
      about somebody unknown adds them. */
  function See(view: Roster, m: Message): Roster {
    match m
    case JoinOk(participants, _) => participants
    case ParticipantJoined(who, profile) => view[who := Info(Some(profile), false, false)]
    case ParticipantLeft(who) => view - {who}
    case MuteChanged(who, a, v) => view[who := Info(if who in view then view[who].profile else None, a, v)]
    case _ => view
  }

  function View(inbox: seq<Message>): Roster {
    if inbox == [] then map[] else See(View(inbox[..|inbox| - 1]), inbox[|inbox| - 1])
  }

  lemma ViewGrows(inbox: seq<Message>, m: Message)
    ensures View(inbox + [m]) == See(View(inbox), m)
  {
    assert (inbox + [m])[..|inbox|] == inbox;
  }

  /** The connection is the one its session talks to. */
  predicate Member(st: Media, sid: SessionId, c: ConnId) {
    && c in st.conns && InSession(st, sid, st.conns[c].who)
    && st.sessions[sid].participants[st.conns[c].who].socket == c
  }

  predicate IsOpen(st: Media, c: ConnId) {
    c in st.conns && st.conns[c].phase.Open?
  }

  /** The view of a member, itself aside, is the rest of the session; it sees itself
      there exactly when `echoed`. */
  ghost predicate Sees(st: Media, sid: SessionId, c: ConnId, echoed: bool)
    requires Member(st, sid, c)
  {
    var me, view := st.conns[c].who, View(st.conns[c].inbox);
    view - {me} == Others(st.sessions[sid], me) && (me in view <==> echoed)
  }

  ghost predicate ViewOk(st: Media, c: ConnId, echoed: bool) {
    && (forall a, b :: Member(st, a, c) && Member(st, b, c) ==> a == b)
    && (forall sid :: Member(st, sid, c) && IsOpen(st, c) ==> Sees(st, sid, c, echoed))
  }

  // ------------------------------------------------------------------ messages

  lemma SendTo(conns: map<ConnId, Conn>, to: set<ConnId>, m: Message, c: ConnId)
    requires c in conns
    ensures View(Send(conns, to, m)[c].inbox) ==
      if c in to && conns[c].phase.Open? then See(View(conns[c].inbox), m) else View(conns[c].inbox)
  {
    ViewGrows(conns[c].inbox, m);
  }

  /** A session's messages reach a connection exactly when it is an open member. */
  lemma MembersAreSockets(st: Media, sid: SessionId, except: Option<ParticipantId>, c: ConnId)
    requires ParticipantsOk(st) && sid in st.sessions && c in st.conns
    ensures c in Sockets(st.sessions[sid], except) <==> Member(st, sid, c) && Some(st.conns[c].who) != except
  {
    var s := st.sessions[sid];
    if c in Sockets(s, except) {
      var q :| q in s.participants && Some(q) != except && s.participants[q].socket == c;
      assert ParticipantOk(st, s.router, q, s.participants[q]);
    }
  }

  // ---------------------------------------------------------------- no news for c

  /** Nothing that matters to `c` changed: it is in no new session, the others of its
      session are the same, and its view is. */
  ghost predicate Quiet(st: Media, st': Media, c: ConnId) {
    && c in st.conns && c in st'.conns && st'.conns[c].who == st.conns[c].who
    && (IsOpen(st', c) ==> IsOpen(st, c) && View(st'.conns[c].inbox) == View(st.conns[c].inbox))
    && (forall sid :: Member(st', sid, c) ==>
          Member(st, sid, c) && Others(st'.sessions[sid], st.conns[c].who) == Others(st.sessions[sid], st.conns[c].who))
  }

  lemma QuietKeepsView(st: Media, st': Media, c: ConnId, echoed: bool)
    requires ViewOk(st, c, echoed) && Quiet(st, st', c)
    ensures ViewOk(st', c, echoed)
  {
    forall sid | Member(st', sid, c) && IsOpen(st', c)
      ensures Sees(st', sid, c, echoed)
    {
      assert Sees(st, sid, c, echoed);
    }
  }

  /** Sessions keep who is in them, on which socket, and what is known about them. */
  ghost predicate SameSeats(s: Session, s': Session) {
    && s'.participants.Keys == s.participants.Keys
    && forall q :: q in s.participants ==>
         s'.participants[q].socket == s.participants[q].socket && InfoOf(s'.participants[q]) == InfoOf(s.participants[q])
  }

  ghost predicate SameRosters(st: Media, st': Media) {
    forall sid :: sid in st'.sessions ==> sid in st.sessions && SameSeats(st.sessions[sid], st'.sessions[sid])
  }

  lemma SameSeatsSameOthers(s: Session, s': Session, me: ParticipantId)
    requires SameSeats(s, s')
    ensures Others(s', me) == Others(s, me)
  {
  }

  lemma SameRostersAreQuiet(st: Media, st': Media, c: ConnId)
    requires SameRosters(st, st')
    requires c in st.conns && c in st'.conns && st'.conns[c].who == st.conns[c].who
    requires IsOpen(st', c) ==> IsOpen(st, c) && View(st'.conns[c].inbox) == View(st.conns[c].inbox)
    ensures Quiet(st, st', c)
  {
    forall sid | Member(st', sid, c)
      ensures Member(st, sid, c) && Others(st'.sessions[sid], st.conns[c].who) == Others(st.sessions[sid], st.conns[c].who)
    {
      SameSeatsSameOthers(st.sessions[sid], st'.sessions[sid], st.conns[c].who);
    }
  }

  // ------------------------------------------------------------------- news for c

  predicate About(m: Message, q: ParticipantId) {
    match m
    case ParticipantJoined(who, _) => who == q
    case ParticipantLeft(who) => who == q
    case MuteChanged(who, _, _) => who == q
    case _ => false
  }

  /** News about `q` reaches the others of a session just as the news comes true there. */
  ghost predicate News(st: Media, st': Media, sid: SessionId, q: ParticipantId, m: Message, c: ConnId) {
    && c in st.conns && c in st'.conns && st'.conns[c].who == st.conns[c].who
    && (IsOpen(st', c) ==> IsOpen(st, c))
    && (forall s :: Member(st', s, c) ==> Member(st, s, c))
    && (forall s :: Member(st', s, c) && s != sid ==>
          Others(st'.sessions[s], st.conns[c].who) == Others(st.sessions[s], st.conns[c].who)
          && (IsOpen(st', c) && !Member(st, sid, c) ==> View(st'.conns[c].inbox) == View(st.conns[c].inbox)))
    && (Member(st', sid, c) && IsOpen(st', c) ==>
          st.conns[c].who != q
          && View(st'.conns[c].inbox) == See(View(st.conns[c].inbox), m)
          && Others(st'.sessions[sid], st.conns[c].who) == See(Others(st.sessions[sid], st.conns[c].who), m))
  }

  lemma NewsKeepsView(st: Media, st': Media, sid: SessionId, q: ParticipantId, m: Message, c: ConnId, echoed: bool)
    requires ViewOk(st, c, echoed) && About(m, q) && News(st, st', sid, q, m, c)
    ensures ViewOk(st', c, echoed)
  {
    var me := st.conns[c].who;
    forall s | Member(st', s, c) && IsOpen(st', c)
      ensures Sees(st', s, c, echoed)
    {
      assert Member(st, s, c) && Sees(st, s, c, echoed);
      if s == sid {
        var view := View(st.conns[c].inbox);
        assert See(view, m) - {me} == See(view - {me}, m);
      }
    }
  }

  // ----------------------------------------------------------- leaving a session

  lemma PruneKeepsSeats(s: Session, open: map<nat, Resource>)
    ensures SameSeats(s, PruneSession(s, open))
  {
  }

  /** Removal takes one seat out of one session and leaves all others as they were. */
  lemma RemoveSeats(st: Media, sid: SessionId, pid: ParticipantId, st': Media, s: SessionId)
    requires st' == RemoveParticipant(st, sid, pid) && InSession(st, sid, pid) && s in st'.sessions
    ensures s in st.sessions
    ensures SameSeats(if s == sid then st.sessions[s].(participants := st.sessions[s].participants - {pid}) else st.sessions[s], st'.sessions[s])
  {
    PruneKeepsSeats(st.sessions[s], st'.open);
  }

  lemma RemoveOthers(st: Media, sid: SessionId, pid: ParticipantId, st': Media, s: SessionId, c: ConnId)
    requires st' == RemoveParticipant(st, sid, pid) && InSession(st, sid, pid) && Member(st', s, c)
    requires c in st.conns && st'.conns == st.conns
    ensures Member(st, s, c)
    ensures s != sid ==> Others(st'.sessions[s], st.conns[c].who) == Others(st.sessions[s], st.conns[c].who)
    ensures s == sid ==> (st.conns[c].who != pid
                          && Others(st'.sessions[s], st.conns[c].who) == Others(st.sessions[s], st.conns[c].who) - {pid})
  {
    RemoveSeats(st, sid, pid, st', s);
    var me := st.conns[c].who;
    if s == sid {
      var rest := st.sessions[sid].(participants := st.sessions[sid].participants - {pid});
      SameSeatsSameOthers(rest, st'.sessions[sid], me);
      assert Others(rest, me) == Others(st.sessions[sid], me) - {pid};
    } else {
      SameSeatsSameOthers(st.sessions[s], st'.sessions[s], me);
    }
  }

  /** Removing `pid` and telling whoever remains. */
  lemma RemoveIsNews(st: Media, sid: SessionId, pid: ParticipantId, except: Option<ParticipantId>, c: ConnId)
    requires EngineOk(st) && c in st.conns && (except == None || except == Some(pid))
    requires InSession(st, sid, pid)
    ensures News(st, Notify(RemoveParticipant(st, sid, pid), sid, except, ParticipantLeft(pid)), sid, pid, ParticipantLeft(pid), c)
  {
    hide ResourcesOk, RoutersOpen, NothingLeaks, News;
    RemoveKeepsEngine(st, sid, pid);
    var st1 := RemoveParticipant(st, sid, pid);
    assert st1.conns == st.conns;
    forall s | Member(st1, s, c)
      ensures Member(st, s, c)
      ensures s != sid ==> Others(st1.sessions[s], st.conns[c].who) == Others(st.sessions[s], st.conns[c].who)
      ensures s == sid ==> (st.conns[c].who != pid
                            && Others(st1.sessions[s], st.conns[c].who) == Others(st.sessions[s], st.conns[c].who) - {pid})
    {
      RemoveOthers(st, sid, pid, st1, s, c);
    }
    ToldIsNews(st, st1, sid, pid, except, ParticipantLeft(pid), c);
  }

  /** Telling a session the news that has just come true there. */
  lemma ToldIsNews(st: Media, st1: Media, sid: SessionId, q: ParticipantId, except: Option<ParticipantId>, m: Message, c: ConnId)
    requires ParticipantsOk(st1) && c in st.conns && st1.conns == st.conns && (except == None || except == Some(q))
    requires forall s :: Member(st1, s, c) ==> Member(st, s, c)
    requires forall s :: Member(st1, s, c) && s != sid ==>
      Member(st, s, c) && Others(st1.sessions[s], st.conns[c].who) == Others(st.sessions[s], st.conns[c].who)
    requires Member(st1, sid, c) ==> (Member(st, sid, c) && st.conns[c].who != q
                                      && Others(st1.sessions[sid], st.conns[c].who) == See(Others(st.sessions[sid], st.conns[c].who), m))
    ensures News(st, Notify(st1, sid, except, m), sid, q, m, c)
  {
    if sid in st1.sessions {
      MembersAreSockets(st1, sid, except, c);
      SendTo(st1.conns, Sockets(st1.sessions[sid], except), m, c);
    }
  }

  /** A leave of somebody who is not there is told to the session all the same. */
  lemma LeaveOfAbsentIsNews(st: Media, sid: SessionId, pid: ParticipantId, c: ConnId)
    requires EngineOk(st) && c in st.conns && !InSession(st, sid, pid)
    ensures News(st, Notify(st, sid, Some(pid), ParticipantLeft(pid)), sid, pid, ParticipantLeft(pid), c)
  {
    if sid in st.sessions {
      MembersAreSockets(st, sid, Some(pid), c);
      SendTo(st.conns, Sockets(st.sessions[sid], Some(pid)), ParticipantLeft(pid), c);
      assert Others(st.sessions[sid], st.conns[c].who) - {pid} == Others(st.sessions[sid], st.conns[c].who);
    }
  }

  lemma LeaveKeepsView(st: Media, from: ConnId, sid: SessionId, c: ConnId, echoed: bool)
    requires EngineOk(st) && from in st.conns && ViewOk(st, c, echoed) && c in st.conns
    ensures ViewOk(Leave(st, from, sid), c, echoed)
  {
    var me := st.conns[from].who;
    var st1 := WithActive(st, from, None);
    SameEngine(st, st1);
    SameRostersAreQuiet(st, st1, c);
    QuietKeepsView(st, st1, c, echoed);
    var st2 := Notify(RemoveParticipant(st1, sid, me), sid, Some(me), ParticipantLeft(me));
    if InSession(st1, sid, me) {
      RemoveIsNews(st1, sid, me, Some(me), c);
    } else {
      LeaveOfAbsentIsNews(st1, sid, me, c);
    }
    NewsKeepsView(st1, st2, sid, me, ParticipantLeft(me), c, echoed);
    ReplyKeepsView(st2, from, true, c, echoed);
  }

  lemma ReplyKeepsView(st: Media, from: ConnId, ok: bool, c: ConnId, echoed: bool)
    requires ViewOk(st, c, echoed) && c in st.conns
    ensures ViewOk(Deliver(st, {from}, Reply(ok)), c, echoed)
  {
    SendTo(st.conns, {from}, Reply(ok), c);
    SameRostersAreQuiet(st, Deliver(st, {from}, Reply(ok)), c);
    QuietKeepsView(st, Deliver(st, {from}, Reply(ok)), c, echoed);
  }

  lemma CloseSocketKeepsView(st: Media, from: ConnId, c: ConnId, echoed: bool)
    requires EngineOk(st) && from in st.conns && ViewOk(st, c, echoed) && c in st.conns
    ensures ViewOk(CloseSocket(st, from), c, echoed)
  {
    var conn := st.conns[from];
    var st1 := st.(conns := st.conns[from := conn.(phase := Closed)]);
    SameEngine(st, st1);
    SameRostersAreQuiet(st, st1, c);
    QuietKeepsView(st, st1, c, echoed);
    if conn.active.Some? && InSession(st1, conn.active.value, conn.who) {
      RemoveIsNews(st1, conn.active.value, conn.who, Some(conn.who), c);
      NewsKeepsView(st1, CloseSocket(st, from), conn.active.value, conn.who, ParticipantLeft(conn.who), c, echoed);
    }
  }

  lemma KickKeepsView(st: Media, sid: SessionId, pid: ParticipantId, c: ConnId, echoed: bool)
    requires EngineOk(st) && ViewOk(st, c, echoed) && c in st.conns
    ensures ViewOk(Kick(st, sid, pid), c, echoed)
  {
    if InSession(st, sid, pid) {
      var k := st.sessions[sid].participants[pid].socket;
      var st1 := Deliver(st, {k}, ModeratorKicked(pid));
      var st2 := if k in st1.conns && st1.conns[k].phase.Open?
                 then st1.(conns := st1.conns[k := st1.conns[k].(phase := Closing)]) else st1;
      SendTo(st.conns, {k}, ModeratorKicked(pid), c);
      SameEngine(st, st2);
      SameRostersAreQuiet(st, st2, c);
      QuietKeepsView(st, st2, c, echoed);
      RemoveIsNews(st2, sid, pid, None, c);
      NewsKeepsView(st2, Kick(st, sid, pid), sid, pid, ParticipantLeft(pid), c, echoed);
    }
  }

  // ------------------------------------------------------------------------ mutes

  lemma MutedOthers(s: Session, s': Session, q: ParticipantId, p: Participant, me: ParticipantId)
    requires q in s.participants && s' == s.(participants := s.participants[q := p])
    requires p.profile == s.participants[q].profile
    ensures Others(s', me) == if q == me then Others(s, me) else See(Others(s, me), MuteChanged(q, p.audioMuted, p.videoMuted))
  {
  }

  /** A changed participant and the message about it, told to all but `except`. */
  lemma MuteIsNews(st: Media, sid: SessionId, q: ParticipantId, p: Participant, except: Option<ParticipantId>, c: ConnId)
    requires EngineOk(st) && InSession(st, sid, q) && c in st.conns && st.conns[c].who != q
    requires p.profile == st.sessions[sid].participants[q].profile && p.socket == st.sessions[sid].participants[q].socket
    requires ParticipantOk(st, st.sessions[sid].router, q, p)
    requires except == None || except == Some(q)
    ensures News(st, Notify(WithParticipant(st, sid, q, p), sid, except, MuteChanged(q, p.audioMuted, p.videoMuted)),
                 sid, q, MuteChanged(q, p.audioMuted, p.videoMuted), c)
  {
    hide ResourcesOk, RoutersOpen, NothingLeaks, News;
    var st1 := WithParticipant(st, sid, q, p);
    WithParticipantKeepsEngine(st, sid, q, p);
    MutedOthers(st.sessions[sid], st1.sessions[sid], q, p, st.conns[c].who);
    ToldIsNews(st, st1, sid, q, except, MuteChanged(q, p.audioMuted, p.videoMuted), c);
  }

  lemma SetMuteKeepsView(st: Media, from: ConnId, sid: SessionId, audio: Option<bool>, video: Option<bool>, c: ConnId, echoed: bool)
    requires EngineOk(st) && from in st.conns && ViewOk(st, c, echoed) && c in st.conns
    ensures ViewOk(SetMute(st, from, sid, audio, video), c, echoed)
  {
    var me := st.conns[from].who;
    if !InSession(st, sid, me) {
      ReplyKeepsView(st, from, false, c, echoed);
    } else {
      var p := Muted(st.sessions[sid].participants[me], audio, video);
      var m := MuteChanged(me, p.audioMuted, p.videoMuted);
      assert ParticipantOk(st, st.sessions[sid].router, me, st.sessions[sid].participants[me]);
      var st1 := WithParticipant(st, sid, me, p);
      var st2 := Notify(st1, sid, Some(me), m);
      if st.conns[c].who == me {
        OwnMuteIsQuiet(st, sid, me, p, m, c);
        QuietKeepsView(st, st2, c, echoed);
      } else {
        MuteIsNews(st, sid, me, p, Some(me), c);
        NewsKeepsView(st, st2, sid, me, m, c, echoed);
      }
      ReplyKeepsView(st2, from, true, c, echoed);
    }
  }

  lemma OwnMuteIsQuiet(st: Media, sid: SessionId, me: ParticipantId, p: Participant, m: Message, c: ConnId)
    requires EngineOk(st) && InSession(st, sid, me) && c in st.conns && st.conns[c].who == me
    requires p.profile == st.sessions[sid].participants[me].profile && p.socket == st.sessions[sid].participants[me].socket
    requires ParticipantOk(st, st.sessions[sid].router, me, p)
    ensures Quiet(st, Notify(WithParticipant(st, sid, me, p), sid, Some(me), m), c)
  {
    hide ResourcesOk, RoutersOpen, NothingLeaks;
    var st1 := WithParticipant(st, sid, me, p);
    WithParticipantKeepsEngine(st, sid, me, p);
    MembersAreSockets(st1, sid, Some(me), c);
    MutedOthers(st.sessions[sid], st1.sessions[sid], me, p, me);
  }

  /** When `c` itself was muted by a moderator, its view gains `c` and is right otherwise. */
  lemma EchoOfOwnMute(st: Media, st': Media, sid: SessionId, p: Participant, c: ConnId, echoed: bool)
    requires ViewOk(st, c, echoed) && Member(st, sid, c) && IsOpen(st, c) && Member(st', sid, c)
    requires p.profile == st.sessions[sid].participants[st.conns[c].who].profile
    requires st'.sessions == WithParticipant(st, sid, st.conns[c].who, p).sessions
    requires st'.conns.Keys == st.conns.Keys && st'.conns[c].who == st.conns[c].who
    requires View(st'.conns[c].inbox) == See(View(st.conns[c].inbox), MuteChanged(st.conns[c].who, p.audioMuted, p.videoMuted))
    ensures ViewOk(st', c, true)
  {
    var me := st.conns[c].who;
    assert Sees(st, sid, c, echoed);
    MutedOthers(st.sessions[sid], st'.sessions[sid], me, p, me);
    assert View(st'.conns[c].inbox) - {me} == View(st.conns[c].inbox) - {me};
    forall s | Member(st', s, c)
      ensures s == sid
    {
      assert Member(st, s, c);
    }
  }

  /** The muted connection hears of its own mute. */
  predicate EchoesTo(st: Media, sid: SessionId, pid: ParticipantId, c: ConnId) {
    Member(st, sid, c) && IsOpen(st, c) && st.conns[c].who == pid
  }

  /** A moderator's mute of the owner of `c`, told to all of the session. */
  lemma ToldOfOwnMute(st: Media, sid: SessionId, p: Participant, c: ConnId, echoed: bool)
    requires EngineOk(st) && ViewOk(st, c, echoed) && c in st.conns && InSession(st, sid, st.conns[c].who)
    requires ParticipantOk(st, st.sessions[sid].router, st.conns[c].who, p)
    requires p.profile == st.sessions[sid].participants[st.conns[c].who].profile
    requires p.socket == st.sessions[sid].participants[st.conns[c].who].socket
    ensures ViewOk(Notify(WithParticipant(st, sid, st.conns[c].who, p), sid, None, MuteChanged(st.conns[c].who, p.audioMuted, p.videoMuted)),
                   c, echoed || EchoesTo(st, sid, st.conns[c].who, c))
  {
    hide ResourcesOk, RoutersOpen, NothingLeaks;
    var me := st.conns[c].who;
    var m := MuteChanged(me, p.audioMuted, p.videoMuted);
    var st2 := WithParticipant(st, sid, me, p);
    WithParticipantKeepsEngine(st, sid, me, p);
    var st3 := Notify(st2, sid, None, m);
    MembersAreSockets(st2, sid, None, c);
    SendTo(st2.conns, Sockets(st2.sessions[sid], None), m, c);
    if EchoesTo(st, sid, me, c) {
      EchoOfOwnMute(st, st3, sid, p, c, echoed);
    } else {
      MutedOthers(st.sessions[sid], st3.sessions[sid], me, p, me);
      QuietKeepsView(st, st3, c, echoed);
    }
  }

  /** Telling the muted participant first and changing the flags second comes to the same. */
  lemma MuteInTwoSteps(st: Media, sid: SessionId, pid: ParticipantId, p: Participant, m0: Message, m: Message)
    requires sid in st.sessions
    ensures Notify(Deliver(WithParticipant(st, sid, pid, p), {p.socket}, m0), sid, None, m)
         == Notify(WithParticipant(Deliver(st, {p.socket}, m0), sid, pid, p), sid, None, m)
  {
  }

  lemma DeliverKeepsView(st: Media, to: set<ConnId>, m: Message, c: ConnId, echoed: bool)
    requires ViewOk(st, c, echoed) && c in st.conns && m.ModeratorMute?
    ensures ViewOk(Deliver(st, to, m), c, echoed)
  {
    SendTo(st.conns, to, m, c);
    SameRostersAreQuiet(st, Deliver(st, to, m), c);
    QuietKeepsView(st, Deliver(st, to, m), c, echoed);
  }

  lemma ModerateMuteKeepsView(st: Media, sid: SessionId, pid: ParticipantId, audio: Option<bool>, video: Option<bool>, c: ConnId, echoed: bool)
    requires EngineOk(st) && ViewOk(st, c, echoed) && c in st.conns
    ensures ViewOk(ModerateMute(st, sid, pid, audio, video), c, echoed || EchoesTo(st, sid, pid, c))
  {
    hide ResourcesOk, RoutersOpen, NothingLeaks, ViewOk;
    if InSession(st, sid, pid) {
      var p := Muted(st.sessions[sid].participants[pid], audio, video);
      var m, m0 := MuteChanged(pid, p.audioMuted, p.videoMuted), ModeratorMute(p.audioMuted, p.videoMuted);
      var st1 := Deliver(st, {p.socket}, m0);
      DeliverKeepsEngine(st, {p.socket}, m0);
      DeliverKeepsView(st, {p.socket}, m0, c, echoed);
      assert ParticipantOk(st1, st1.sessions[sid].router, pid, st1.sessions[sid].participants[pid]);
      MuteInTwoSteps(st, sid, pid, p, m0, m);
      ToldOfMute(st1, sid, pid, p, c, echoed);
    }
  }

  lemma ToldOfMute(st: Media, sid: SessionId, q: ParticipantId, p: Participant, c: ConnId, echoed: bool)
    requires EngineOk(st) && ViewOk(st, c, echoed) && c in st.conns && InSession(st, sid, q)
    requires ParticipantOk(st, st.sessions[sid].router, q, p)
    requires p.profile == st.sessions[sid].participants[q].profile && p.socket == st.sessions[sid].participants[q].socket
    ensures ViewOk(Notify(WithParticipant(st, sid, q, p), sid, None, MuteChanged(q, p.audioMuted, p.videoMuted)),
                   c, echoed || EchoesTo(st, sid, q, c))
  {
    if st.conns[c].who != q {
      var m := MuteChanged(q, p.audioMuted, p.videoMuted);
      MuteIsNews(st, sid, q, p, None, c);
      NewsKeepsView(st, Notify(WithParticipant(st, sid, q, p), sid, None, m), sid, q, m, c, echoed);
    } else {
      ToldOfOwnMute(st, sid, p, c, echoed);
    }
  }

  // -------------------------------------------------------------------- joining

  lemma CreateSessionIsQuiet(st: Media, sid: SessionId, from: ConnId, c: ConnId)
    requires c in st.conns && from in st.conns
    ensures Quiet(st, WithActive(CreateSession(st, sid), from, Some(sid)), c)
  {
  }

  lemma JoinedOthers(s: Session, q: ParticipantId, p: Participant, me: ParticipantId)
    requires q != me && InfoOf(p) == Info(Some(p.profile), false, false)
    ensures Others(s.(participants := s.participants[q := p]), me) == See(Others(s, me), ParticipantJoined(q, p.profile))
  {
  }

  /** A newcomer from another connection takes a seat, and the session is told. */
  lemma SeatingKeepsView(st: Media, from: ConnId, sid: SessionId, c: ConnId, echoed: bool)
    requires EngineOk(st) && from in st.conns && sid in st.sessions && ViewOk(st, c, echoed) && c in st.conns && c != from
    ensures ViewOk(Notify(WithParticipant(st, sid, st.conns[from].who, Newcomer(st.conns[from], from)), sid,
                          Some(st.conns[from].who), ParticipantJoined(st.conns[from].who, st.conns[from].profile)), c, echoed)
  {
    hide EngineOk, ViewOk;
    var q, p := st.conns[from].who, Newcomer(st.conns[from], from);
    WithParticipantKeepsEngine(st, sid, q, p);
    SeatedIsNoted(st, from, sid, c, WithParticipant(st, sid, q, p));
    var m := ParticipantJoined(q, st.conns[from].profile);
    var st3 := Notify(WithParticipant(st, sid, q, p), sid, Some(q), m);
    if st.conns[c].who == q {
      QuietKeepsView(st, st3, c, echoed);
    } else {
      NewsKeepsView(st, st3, sid, q, m, c, echoed);
    }
  }

  /** It is no news for another connection of the newcomer, and news for anybody else. */
  lemma SeatedIsNoted(st: Media, from: ConnId, sid: SessionId, c: ConnId, st2: Media)
    requires from in st.conns && sid in st.sessions && c in st.conns && c != from
    requires st2 == WithParticipant(st, sid, st.conns[from].who, Newcomer(st.conns[from], from)) && EngineOk(st2)
    ensures var q, m := st.conns[from].who, ParticipantJoined(st.conns[from].who, st.conns[from].profile);
      if st.conns[c].who == q then Quiet(st, Notify(st2, sid, Some(q), m), c)
      else News(st, Notify(st2, sid, Some(q), m), sid, q, m, c)
  {
    hide ResourcesOk, RoutersOpen, NothingLeaks;
    var q, p := st.conns[from].who, Newcomer(st.conns[from], from);
    var m := ParticipantJoined(q, st.conns[from].profile);
    if st.conns[c].who == q {
      MembersAreSockets(st2, sid, Some(q), c);
    } else {
      JoinedOthers(st.sessions[sid], q, p, st.conns[c].who);
      ToldIsNews(st, st2, sid, q, Some(q), m, c);
    }
  }

  /** Somebody else joins. */
  lemma JoinKeepsViewOfOther(st: Media, from: ConnId, sid: SessionId, routerOk: bool, c: ConnId, echoed: bool)
    requires EngineOk(st) && from in st.conns && ViewOk(st, c, echoed) && c in st.conns && c != from
    ensures ViewOk(Join(st, from, sid, routerOk), c, echoed)
  {
    if sid !in st.sessions && !routerOk {
      ReplyKeepsView(st, from, false, c, echoed);
    } else {
      var q := st.conns[from].who;
      CreateSessionKeepsEngine(st, sid);
      var st1 := WithActive(CreateSession(st, sid), from, Some(sid));
      SameEngine(CreateSession(st, sid), st1);
      CreateSessionIsQuiet(st, sid, from, c);
      QuietKeepsView(st, st1, c, echoed);
      SeatingKeepsView(st1, from, sid, c, echoed);
      var st3 := Notify(WithParticipant(st1, sid, q, Newcomer(st.conns[from], from)), sid, Some(q), ParticipantJoined(q, st.conns[from].profile));
      assert Newcomer(st1.conns[from], from) == Newcomer(st.conns[from], from);
      SentElsewhereKeepsView(st3, from, JoinOk(Others(st3.sessions[sid], q), ProducersOfOthers(st3.sessions[sid], q)), c, echoed);
    }
  }

  lemma SentElsewhereKeepsView(st: Media, from: ConnId, m: Message, c: ConnId, echoed: bool)
    requires ViewOk(st, c, echoed) && c in st.conns && c != from
    ensures ViewOk(Deliver(st, {from}, m), c, echoed)
  {
    SameRostersAreQuiet(st, Deliver(st, {from}, m), c);
    QuietKeepsView(st, Deliver(st, {from}, m), c, echoed);
  }

  /** The answer to a join starts the view of the connection afresh. */
  lemma SnapshotStartsView(st: Media, c: ConnId, sid: SessionId)
    requires c in st.conns && sid in st.sessions
    ensures var me, s := st.conns[c].who, st.sessions[sid];
      var st' := Deliver(st, {c}, JoinOk(Others(s, me), ProducersOfOthers(s, me)));
      c in st'.conns && (Member(st', sid, c) && IsOpen(st', c) ==> Sees(st', sid, c, false))
  {
    var me, s := st.conns[c].who, st.sessions[sid];
    SendTo(st.conns, {c}, JoinOk(Others(s, me), ProducersOfOthers(s, me)), c);
    assert Others(s, me) - {me} == Others(s, me);
  }

  lemma NotifyKeepsWho(st: Media, sid: SessionId, except: Option<ParticipantId>, m: Message, c: ConnId)
    requires c in st.conns
    ensures c in Notify(st, sid, except, m).conns && Notify(st, sid, except, m).conns[c].who == st.conns[c].who
  {
  }

  /** A join changes no other session. */
  lemma JoinLeavesOtherSessions(st: Media, c: ConnId, sid: SessionId, routerOk: bool, a: SessionId)
    requires c in st.conns && a != sid && Member(Join(st, c, sid, routerOk), a, c)
    ensures Member(st, a, c)
  {
  }

  /** Whatever a connection saw before and wherever else it is, its join answer shows it
      exactly the session it joins. */
  lemma JoinAnswerResetsView(st: Media, c: ConnId, sid: SessionId, routerOk: bool)
    requires c in st.conns && st.conns[c].phase.Open? && (sid in st.sessions || routerOk)
    ensures var st' := Join(st, c, sid, routerOk); Member(st', sid, c) && IsOpen(st', c) && Sees(st', sid, c, false)
  {
    hide Sees, Others, ProducersOfOthers, Send;
    var me := st.conns[c].who;
    var st1 := WithActive(CreateSession(st, sid), c, Some(sid));
    var st2 := WithParticipant(st1, sid, me, Newcomer(st.conns[c], c));
    var st3 := Notify(st2, sid, Some(me), ParticipantJoined(me, st.conns[c].profile));
    NotifyKeepsSeat(st2, sid, Some(me), ParticipantJoined(me, st.conns[c].profile), c);
    AnswerKeepsSeat(st3, c, sid, JoinOk(Others(st3.sessions[sid], me), ProducersOfOthers(st3.sessions[sid], me)));
    SnapshotStartsView(st3, c, sid);
  }

  lemma NotifyKeepsSeat(st: Media, sid: SessionId, except: Option<ParticipantId>, m: Message, c: ConnId)
    requires Member(st, sid, c) && IsOpen(st, c)
    ensures Member(Notify(st, sid, except, m), sid, c) && IsOpen(Notify(st, sid, except, m), c)
    ensures Notify(st, sid, except, m).conns[c].who == st.conns[c].who
  {
  }

  lemma AnswerKeepsSeat(st: Media, c: ConnId, sid: SessionId, m: Message)
    requires Member(st, sid, c) && IsOpen(st, c)
    ensures Member(Deliver(st, {c}, m), sid, c) && IsOpen(Deliver(st, {c}, m), c)
  {
  }

  /** The connection's own join starts its view afresh from the snapshot. */
  lemma OwnJoinStartsView(st: Media, c: ConnId, sid: SessionId, routerOk: bool)
    requires EngineOk(st) && c in st.conns && (sid in st.sessions || routerOk)
    requires forall s :: Member(st, s, c) ==> s == sid
    ensures ViewOk(Join(st, c, sid, routerOk), c, false)
  {
    hide EngineOk, Member, Sees, Others, ProducersOfOthers, Send;
    var me, st' := st.conns[c].who, Join(st, c, sid, routerOk);
    forall a | Member(st', a, c)
      ensures a == sid
    {
      if a != sid {
        JoinLeavesOtherSessions(st, c, sid, routerOk, a);
      }
    }
    var st1 := WithActive(CreateSession(st, sid), c, Some(sid));
    var st2 := WithParticipant(st1, sid, me, Newcomer(st.conns[c], c));
    var st3 := Notify(st2, sid, Some(me), ParticipantJoined(me, st.conns[c].profile));
    NotifyKeepsWho(st2, sid, Some(me), ParticipantJoined(me, st.conns[c].profile), c);
    SnapshotStartsView(st3, c, sid);
  }

  // ------------------------------------------------------------------------ runs

  lemma RepliedIsQuiet(st: Media, st': Media, from: ConnId, m: Message, c: ConnId)
    requires c in st.conns && SameRosters(st, st') && (m.Reply? || m.Made?) && st'.conns == Send(st.conns, {from}, m)
    ensures Quiet(st, st', c)
  {
    SendTo(st.conns, {from}, m, c);
    SameRostersAreQuiet(st, st', c);
  }

  lemma UpdatedKeepsRosters(st: Media, st': Media, sid: SessionId, q: ParticipantId, p: Participant)
    requires InSession(st, sid, q) && st'.sessions == WithParticipant(st, sid, q, p).sessions
    requires p.socket == st.sessions[sid].participants[q].socket && InfoOf(p) == InfoOf(st.sessions[sid].participants[q])
    ensures SameRosters(st, st')
  {
  }

  lemma CreateTransportIsQuiet(st: Media, from: ConnId, sid: SessionId, send: bool, ok: bool, c: ConnId)
    requires from in st.conns && c in st.conns
    ensures Quiet(st, CreateTransport(st, from, sid, send, ok), c)
  {
    var me, st' := st.conns[from].who, CreateTransport(st, from, sid, send, ok);
    if InSession(st, sid, me) && ok {
      var p := st.sessions[sid].participants[me];
      UpdatedKeepsRosters(st, st', sid, me, if send then p.(send := Some(st.nextId)) else p.(recv := Some(st.nextId)));
      RepliedIsQuiet(st, st', from, Made(st.nextId), c);
    } else {
      RepliedIsQuiet(st, st', from, Reply(false), c);
    }
  }

  lemma ConsumeIsQuiet(st: Media, from: ConnId, sid: SessionId, producer: nat, ok: bool, c: ConnId)
    requires from in st.conns && c in st.conns
    ensures Quiet(st, Consume(st, from, sid, producer, ok), c)
  {
    var me, st' := st.conns[from].who, Consume(st, from, sid, producer, ok);
    if CanConsume(st, sid, me, producer) && ok {
      var p := st.sessions[sid].participants[me];
      UpdatedKeepsRosters(st, st', sid, me, p.(consumers := p.consumers + {st.nextId}));
      RepliedIsQuiet(st, st', from, Made(st.nextId), c);
    } else {
      RepliedIsQuiet(st, st', from, Reply(false), c);
    }
  }

  lemma ProduceIsQuiet(st: Media, from: ConnId, sid: SessionId, ok: bool, tapOk: bool, c: ConnId)
    requires from in st.conns && c in st.conns
    ensures Quiet(st, Produce(st, from, sid, ok, tapOk), c)
  {
    var me, st' := st.conns[from].who, Produce(st, from, sid, ok, tapOk);
    if !CanProduce(st, sid, me) || !ok {
      RepliedIsQuiet(st, st', from, Reply(false), c);
    } else {
      var p := st.sessions[sid].participants[me];
      UpdatedKeepsRosters(st, st', sid, me, p.(producers := p.producers + {st.nextId}));
      var to, m := Sockets(st'.sessions[sid], Some(me)), NewProducer(me, st.nextId);
      AnnouncedIsQuiet(st, st', to, m, from, st.nextId, c);
    }
  }

  lemma AnnouncedIsQuiet(st: Media, st': Media, to: set<ConnId>, m: Message, from: ConnId, id: nat, c: ConnId)
    requires c in st.conns && SameRosters(st, st') && m.NewProducer?
    requires st'.conns == Send(Send(st.conns, to, m), {from}, Made(id))
    ensures Quiet(st, st', c)
  {
    SendTo(st.conns, to, m, c);
    SendTo(Send(st.conns, to, m), {from}, Made(id), c);
    SameRostersAreQuiet(st, st', c);
  }

  lemma ConnectKeepsView(st: Media, other: ConnId, who: ParticipantId, profile: Profile, c: ConnId, echoed: bool)
    requires ViewOk(st, c, echoed) && c in st.conns
    ensures c in Step(st, Connect(other, who, profile)).conns && ViewOk(Step(st, Connect(other, who, profile)), c, echoed)
  {
    SameRostersAreQuiet(st, Step(st, Connect(other, who, profile)), c);
    QuietKeepsView(st, Step(st, Connect(other, who, profile)), c, echoed);
  }

  lemma StartKeepsView(st: Media, sid: SessionId, rid: RecordingId, dirOk: bool, noTap: set<nat>, c: ConnId, echoed: bool)
    requires ViewOk(st, c, echoed) && c in st.conns
    ensures ViewOk(StartRecording(st, sid, rid, dirOk, noTap), c, echoed)
  {
    SameRostersAreQuiet(st, StartRecording(st, sid, rid, dirOk, noTap), c);
    QuietKeepsView(st, StartRecording(st, sid, rid, dirOk, noTap), c, echoed);
  }

  lemma StopKeepsView(st: Media, rid: RecordingId, rejects: set<nat>, archiveOk: bool, c: ConnId, echoed: bool)
    requires ViewOk(st, c, echoed) && c in st.conns
    ensures ViewOk(StopRecording(st, rid, rejects, archiveOk), c, echoed)
  {
    SameRostersAreQuiet(st, StopRecording(st, rid, rejects, archiveOk), c);
    QuietKeepsView(st, StopRecording(st, rid, rejects, archiveOk), c, echoed);
  }

  lemma EndKeepsView(st: Media, sid: SessionId, rejects: set<nat>, archiveOk: bool, c: ConnId, echoed: bool)
    requires ViewOk(st, c, echoed) && c in st.conns
    ensures ViewOk(EndSession(StopRecordingBySession(st, sid, rejects, archiveOk), sid), c, echoed)
  {
    var st1 := StopRecordingBySession(st, sid, rejects, archiveOk);
    if sid in st.recordingOf {
      StopKeepsView(st, st.recordingOf[sid], rejects, archiveOk, c, echoed);
    }
    EndSessionIsQuiet(st1, sid, c);
    QuietKeepsView(st1, EndSession(st1, sid), c, echoed);
  }

  lemma EndSessionIsQuiet(st: Media, sid: SessionId, c: ConnId)
    requires c in st.conns
    ensures Quiet(st, EndSession(st, sid), c)
  {
    if sid in st.sessions {
      var st' := EndSession(st, sid);
      forall s | s in st'.sessions
        ensures SameSeats(st.sessions[s], st'.sessions[s])
      {
        PruneKeepsSeats(st.sessions[s], st'.open);
      }
    }
    SameRostersAreQuiet(st, EndSession(st, sid), c);
  }

  /** Whether a moderator muted `c` since its last join, while it was open. */
  predicate EchoAfter(st: Media, command: Command, c: ConnId, echoed: bool) {
    match command
    case Signal(from, sid, JoinSession(routerOk)) =>
      if from == c && Speaks(st, c) && (sid in st.sessions || routerOk) then false else echoed
    case Mute(sid, pid, _, _) => echoed || EchoesTo(st, sid, pid, c)
    case _ => echoed
  }

  /** The command does not take `c` into a second session. */
  ghost predicate OneSession(st: Media, command: Command, c: ConnId) {
    command.Signal? && command.request.JoinSession? && command.conn == c && Speaks(st, c) ==>
      forall s :: Member(st, s, c) ==> s == command.sid
  }

  lemma SignalKeepsView(st: Media, from: ConnId, sid: SessionId, request: Request, c: ConnId, echoed: bool)
    requires EngineOk(st) && from in st.conns && c in st.conns && ViewOk(st, c, echoed)
    requires request.JoinSession? && from == c ==> forall s :: Member(st, s, c) ==> s == sid
    ensures ViewOk(Answer(st, from, sid, request), c,
                   if request.JoinSession? && from == c && (sid in st.sessions || request.routerOk) then false else echoed)
  {
    match request
    case JoinSession(routerOk) =>
      if from != c {
        JoinKeepsViewOfOther(st, from, sid, routerOk, c, echoed);
      } else if sid in st.sessions || routerOk {
        OwnJoinStartsView(st, c, sid, routerOk);
      } else {
        ReplyKeepsView(st, c, false, c, echoed);
      }
    case NewTransport(send, ok) =>
      CreateTransportIsQuiet(st, from, sid, send, ok, c);
      QuietKeepsView(st, CreateTransport(st, from, sid, send, ok), c, echoed);
    case NewProducerOn(ok, tapOk) =>
      ProduceIsQuiet(st, from, sid, ok, tapOk, c);
      QuietKeepsView(st, Produce(st, from, sid, ok, tapOk), c, echoed);
    case NewConsumer(producer, ok) =>
      ConsumeIsQuiet(st, from, sid, producer, ok, c);
      QuietKeepsView(st, Consume(st, from, sid, producer, ok), c, echoed);
    case LeaveSession => LeaveKeepsView(st, from, sid, c, echoed);
    case MuteSelf(audio, video) => SetMuteKeepsView(st, from, sid, audio, video, c, echoed);
  }

  lemma StepKeepsView(st: Media, command: Command, c: ConnId, echoed: bool)
    requires EngineOk(st) && ViewOk(st, c, echoed) && c in st.conns && OneSession(st, command, c)
    ensures ViewOk(Step(st, command), c, EchoAfter(st, command, c, echoed))
  {
    match command
    case Connect(other, who, profile) => ConnectKeepsView(st, other, who, profile, c, echoed);
    case Signal(from, sid, request) =>
      if Speaks(st, from) {
        SignalKeepsView(st, from, sid, request, c, echoed);
      }
    case SocketClosed(other) => if Speaks(st, other) { CloseSocketKeepsView(st, other, c, echoed); }
    case End(sid, rejects, archiveOk) => EndKeepsView(st, sid, rejects, archiveOk, c, echoed);
    case KickOut(sid, pid) => KickKeepsView(st, sid, pid, c, echoed);
    case Mute(sid, pid, audio, video) => ModerateMuteKeepsView(st, sid, pid, audio, video, c, echoed);
    case RecordingStart(sid, rid, dirOk, noTap) => StartKeepsView(st, sid, rid, dirOk, noTap, c, echoed);
    case RecordingStop(rid, rejects, archiveOk) => StopKeepsView(st, rid, rejects, archiveOk, c, echoed);
  }

  predicate Echoed(commands: seq<Command>, c: ConnId) {
    commands != [] &&
    (var before := commands[..|commands| - 1];
     EchoAfter(Run(before), commands[|commands| - 1], c, Echoed(before, c)))
  }

  ghost predicate StaysInOneSession(commands: seq<Command>, c: ConnId) {
    commands == [] ||
    (var before := commands[..|commands| - 1];
     StaysInOneSession(before, c) && OneSession(Run(before), commands[|commands| - 1], c))
  }

  lemma {:induction false} RunsKeepView(commands: seq<Command>, c: ConnId)
    requires StaysInOneSession(commands, c)
    ensures ViewOk(Run(commands), c, Echoed(commands, c))
  {
    if commands != [] {
      var before, last := commands[..|commands| - 1], commands[|commands| - 1];
      RunsKeepView(before, c);
      RunsPin(before);
      if c in Run(before).conns {
        StepKeepsView(Run(before), last, c, Echoed(before, c));
      } else {
        StepKeepsEngine(Run(before), last);
        NotConnectedYet(Run(before), last, c);
      }
    }
  }

  /** A connection that has only just come is in no session. */
  lemma NotConnectedYet(st: Media, command: Command, c: ConnId)
    requires EngineOk(st) && c !in st.conns
    ensures forall sid :: !Member(Step(st, command), sid, c)
  {
    if command.Connect? {
      forall sid
        ensures !Member(Step(st, command), sid, c)
      {
        if InSession(st, sid, command.who) {
          assert ParticipantOk(st, st.sessions[sid].router, command.who, st.sessions[sid].participants[command.who]);
        }
      }
    } else {
      OnlyConnectConnects(st, command);
    }
  }

  lemma OnlyConnectConnects(st: Media, command: Command)
    requires !command.Connect?
    ensures Step(st, command).conns.Keys == st.conns.Keys
  {
    match command
    case Signal(c, sid, request) => if Speaks(st, c) { AnswersConnectNobody(st, c, sid, request); }
    case SocketClosed(c) => if Speaks(st, c) { ClosingConnectsNobody(st, c); }
    case End(sid, rejects, archiveOk) =>
    case KickOut(sid, pid) => KickConnectsNobody(st, sid, pid);
    case Mute(sid, pid, audio, video) =>
    case RecordingStart(sid, rid, dirOk, noTap) =>
    case RecordingStop(rid, rejects, archiveOk) =>
  }

  lemma ClosingConnectsNobody(st: Media, c: ConnId)
    requires c in st.conns
    ensures CloseSocket(st, c).conns.Keys == st.conns.Keys
  {
  }

  lemma KickConnectsNobody(st: Media, sid: SessionId, pid: ParticipantId)
    ensures Kick(st, sid, pid).conns.Keys == st.conns.Keys
  {
    if InSession(st, sid, pid) {
      var c := st.sessions[sid].participants[pid].socket;
      var st1 := Deliver(st, {c}, ModeratorKicked(pid));
      var st2 := if c in st1.conns && st1.conns[c].phase.Open?
                 then st1.(conns := st1.conns[c := st1.conns[c].(phase := Closing)]) else st1;
      RemoveTellsNobody(st2, sid, pid);
      hide RemoveParticipant;
      assert Kick(st, sid, pid) == Notify(RemoveParticipant(st2, sid, pid), sid, None, ParticipantLeft(pid));
    }
  }

  lemma RemoveTellsNobody(st: Media, sid: SessionId, pid: ParticipantId)
    ensures RemoveParticipant(st, sid, pid).conns == st.conns
  {
  }

  lemma AnswersConnectNobody(st: Media, c: ConnId, sid: SessionId, request: Request)
    requires c in st.conns
    ensures Answer(st, c, sid, request).conns.Keys == st.conns.Keys
  {
    hide RemoveParticipant, Join, Produce;
    match request
    case JoinSession(routerOk) => JoinConnectsNobody(st, c, sid, routerOk);
    case NewTransport(send, ok) =>
    case NewProducerOn(ok, tapOk) => ProduceConnectsNobody(st, c, sid, ok, tapOk);
    case NewConsumer(producer, ok) =>
    case LeaveSession => RemoveTellsNobody(WithActive(st, c, None), sid, st.conns[c].who);
    case MuteSelf(audio, video) =>
  }

  lemma ProduceConnectsNobody(st: Media, c: ConnId, sid: SessionId, ok: bool, tapOk: bool)
    requires c in st.conns
    ensures Produce(st, c, sid, ok, tapOk).conns.Keys == st.conns.Keys
  {
  }

  lemma JoinConnectsNobody(st: Media, c: ConnId, sid: SessionId, routerOk: bool)
    requires c in st.conns
    ensures Join(st, c, sid, routerOk).conns.Keys == st.conns.Keys
  {
  }

  /** The client's picture. In every run, a connection that has not joined a second session
      sees, itself aside, exactly the other participants of its session with their mute
      flags; it sees itself among them if and only if a moderator muted it since its join. */
  lemma ClientsSeeTheirSession(commands: seq<Command>, sid: SessionId, c: ConnId, st: Media)
    requires StaysInOneSession(commands, c) && st == Run(commands)
    requires Member(st, sid, c) && IsOpen(st, c)
    ensures var me, view := st.conns[c].who, View(st.conns[c].inbox);
      && view - {me} == Others(st.sessions[sid], me)
      && (view == Others(st.sessions[sid], me) <==> !Echoed(commands, c))
  {
    RunsKeepView(commands, c);
    assert Sees(st, sid, c, Echoed(commands, c));
    var me, view := st.conns[c].who, View(st.conns[c].inbox);
    assert me !in Others(st.sessions[sid], me);
    assert me !in view ==> view - {me} == view;
  }

  /** A newcomer is announced to every other open member. */
  lemma NewcomerIsAnnounced(st: Media, a: SessionId, c: ConnId, from: ConnId)
    requires EngineOk(st) && a in st.sessions && Member(st, a, c) && IsOpen(st, c)
    requires from in st.conns && st.conns[from].who != st.conns[c].who
    ensures c in Join(st, from, a, true).conns && IsOpen(Join(st, from, a, true), c)
    ensures st.conns[from].who in View(Join(st, from, a, true).conns[c].inbox)
  {
    hide EngineOk;
    var st1 := WithActive(st, from, Some(a));
    SameEngine(st, st1);
    var st2 := WithParticipant(st1, a, st.conns[from].who, Newcomer(st.conns[from], from));
    WithParticipantKeepsEngine(st1, a, st.conns[from].who, Newcomer(st.conns[from], from));
    SeatedIsAnnounced(st2, a, c, st.conns[from].who, st.conns[from].profile);
  }

  lemma SeatedIsAnnounced(st: Media, a: SessionId, c: ConnId, q: ParticipantId, profile: Profile)
    requires EngineOk(st) && a in st.sessions && Member(st, a, c) && IsOpen(st, c) && q != st.conns[c].who
    ensures var st' := Notify(st, a, Some(q), ParticipantJoined(q, profile)); c in st'.conns && q in View(st'.conns[c].inbox)
  {
    hide ResourcesOk, RoutersOpen, NothingLeaks;
    MembersAreSockets(st, a, Some(q), c);
    SendTo(st.conns, Sockets(st.sessions[a], Some(q)), ParticipantJoined(q, profile), c);
  }

  /** Why one session at a time matters: news of one session a connection is in spoils its
      picture of the other. */
  lemma SecondSessionSpoilsView(st: Media, a: SessionId, b: SessionId, c: ConnId, from: ConnId, st': Media)
    requires EngineOk(st) && a != b && Member(st, a, c) && Member(st, b, c) && IsOpen(st, c)
    requires from in st.conns && st.conns[from].who != st.conns[c].who && !InSession(st, b, st.conns[from].who)
    requires st' == Join(st, from, a, true)
    ensures Member(st', b, c) && IsOpen(st', c)
    ensures View(st'.conns[c].inbox) - {st.conns[c].who} != Others(st'.sessions[b], st.conns[c].who)
  {
    NewcomerIsAnnounced(st, a, c, from);
    var q, me := st.conns[from].who, st.conns[c].who;
    assert st'.sessions[b] == st.sessions[b];
    assert q in View(st'.conns[c].inbox) - {me};
    assert q !in Others(st'.sessions[b], me);
  }
}
