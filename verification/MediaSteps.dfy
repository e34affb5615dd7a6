/** The atomic steps of the media call server, and its runs. */
module MediaSteps {
  import opened Prelude
  import opened MediaModel

  // ------------------------------------------------------------------ sessions

  /** Ending a session closes its router, and with it everything made on it. */
  function EndSession(st: Media, sid: SessionId): Media {
    if sid !in st.sessions then st
    else
      var st1 := CloseAll(st, {st.sessions[sid].router});
      st1.(sessions := st1.sessions - {sid})
  }

  /** Closes what a participant holds and takes it out of the session. */
  function DropParticipant(st: Media, sid: SessionId, pid: ParticipantId): Media
    requires sid in st.sessions && pid in st.sessions[sid].participants
  {
    var st1 := CloseAll(st, Owned(st.sessions[sid].participants[pid]));
    st1.(sessions := st1.sessions[sid := st1.sessions[sid].(participants := st1.sessions[sid].participants - {pid})])
  }

  predicate InSession(st: Media, sid: SessionId, pid: ParticipantId) {
    sid in st.sessions && pid in st.sessions[sid].participants
  }

  /** The last participant to leave ends the session, unless a recording pins it. */
  function RemoveParticipant(st: Media, sid: SessionId, pid: ParticipantId): Media {
    if !InSession(st, sid, pid) then st
    else
      var s := st.sessions[sid];
      if s.participants.Keys == {pid} && !s.recordingActive then EndSession(st, sid) else DropParticipant(st, sid, pid)
  }

  function WithParticipant(st: Media, sid: SessionId, pid: ParticipantId, p: Participant): Media
    requires sid in st.sessions
  {
    st.(sessions := st.sessions[sid := st.sessions[sid].(participants := st.sessions[sid].participants[pid := p])])
  }

  // ---------------------------------------------------------- signaling messages

  function WithActive(st: Media, c: ConnId, active: Option<SessionId>): Media
    requires c in st.conns
  {
    st.(conns := st.conns[c := st.conns[c].(active := active)])
  }

  /** A missing session is created on a fresh router. */
  function CreateSession(st: Media, sid: SessionId): Media {
    if sid in st.sessions then st
    else
      st.(open := st.open[st.nextId := Resource(Router, st.nextId, 0, {})],
          sessions := st.sessions[sid := Session(st.nextId, false, map[])],
          nextId := st.nextId + 1)
  }

  function Newcomer(conn: Conn, c: ConnId): Participant {
    Participant(conn.profile, c, false, false, None, None, {}, {})
  }

  function Join(st: Media, c: ConnId, sid: SessionId, routerOk: bool): Media
    requires c in st.conns
  {
    if sid !in st.sessions && !routerOk then Deliver(st, {c}, Reply(false))
    else
      var me := st.conns[c].who;
      var st1 := WithActive(CreateSession(st, sid), c, Some(sid));
      var st2 := WithParticipant(st1, sid, me, Newcomer(st.conns[c], c));
      var st3 := Notify(st2, sid, Some(me), ParticipantJoined(me, st.conns[c].profile));
      var s := st3.sessions[sid];
      Deliver(st3, {c}, JoinOk(Others(s, me), ProducersOfOthers(s, me)))
  }

  /** Makes a mediasoup object on the router of a session. */
  function Make(st: Media, sid: SessionId, kind: Kind, owner: ParticipantId, deps: set<nat>): Media
    requires sid in st.sessions
  {
    st.(open := st.open[st.nextId := Resource(kind, st.sessions[sid].router, owner, deps)], nextId := st.nextId + 1)
  }

  /** The transport is made before the participant is looked up, so a caller who is not
      in the session leaves one open on the router. */
  function CreateTransport(st: Media, c: ConnId, sid: SessionId, send: bool, ok: bool): Media
    requires c in st.conns
  {
    if sid !in st.sessions || !ok then Deliver(st, {c}, Reply(false))
    else
      var me, s, id := st.conns[c].who, st.sessions[sid], st.nextId;
      var st1 := Make(st, sid, Transport, me, {s.router});
      if me !in s.participants then Deliver(st1, {c}, Reply(false))
      else
        var p := s.participants[me];
        var st2 := WithParticipant(st1, sid, me, if send then p.(send := Some(id)) else p.(recv := Some(id)));
        Deliver(st2, {c}, Made(id))
  }

  /** An active recording of the session starts a track for a new producer. */
  function RecordProducer(st: Media, sid: SessionId, producer: nat, tapOk: bool): Media {
    if sid !in st.recordingOf || st.recordingOf[sid] !in st.recordings then st
    else
      var rid := st.recordingOf[sid];
      var r := st.recordings[rid];
      if producer in r.tracks then st
      else
        st.(recordings := st.recordings[rid :=
          if tapOk then r.(tracks := r.tracks[producer := false]) else r.(missed := r.missed + {producer})])
  }

  predicate CanProduce(st: Media, sid: SessionId, me: ParticipantId) {
    && InSession(st, sid, me)
    && st.sessions[sid].participants[me].send.Some?
    && st.sessions[sid].participants[me].send.value in st.open
  }

  function Produce(st: Media, c: ConnId, sid: SessionId, ok: bool, tapOk: bool): Media
    requires c in st.conns
  {
    var me := st.conns[c].who;
    if !CanProduce(st, sid, me) || !ok then Deliver(st, {c}, Reply(false))
    else
      var s, id := st.sessions[sid], st.nextId;
      var p := s.participants[me];
      var t := p.send.value;
      var st1 := Make(st, sid, Producer, me, {t} + st.open[t].deps);
      var st2 := WithParticipant(st1, sid, me, p.(producers := p.producers + {id}));
      var st3 := Notify(st2, sid, Some(me), NewProducer(me, id));
      Deliver(RecordProducer(st3, sid, id, tapOk), {c}, Made(id))
  }

  predicate CanConsume(st: Media, sid: SessionId, me: ParticipantId, producer: nat) {
    && InSession(st, sid, me)
    && producer in st.open
    && st.open[producer].kind.Producer?
    && st.open[producer].router == st.sessions[sid].router
    && st.sessions[sid].participants[me].recv.Some?
    && st.sessions[sid].participants[me].recv.value in st.open
  }

  function Consume(st: Media, c: ConnId, sid: SessionId, producer: nat, ok: bool): Media
    requires c in st.conns
  {
    var me := st.conns[c].who;
    if !CanConsume(st, sid, me, producer) || !ok then Deliver(st, {c}, Reply(false))
    else
      var s, id := st.sessions[sid], st.nextId;
      var p := s.participants[me];
      var t := p.recv.value;
      var deps := {t, producer} + st.open[t].deps + st.open[producer].deps;
      var st1 := Make(st, sid, Consumer, me, deps);
      var st2 := WithParticipant(st1, sid, me, p.(consumers := p.consumers + {id}));
      Deliver(st2, {c}, Made(id))
  }

  function Leave(st: Media, c: ConnId, sid: SessionId): Media
    requires c in st.conns
  {
    var me := st.conns[c].who;
    var st1 := RemoveParticipant(WithActive(st, c, None), sid, me);
    Deliver(Notify(st1, sid, Some(me), ParticipantLeft(me)), {c}, Reply(true))
  }

  function Muted(p: Participant, audio: Option<bool>, video: Option<bool>): Participant {
    p.(audioMuted := if audio.Some? then audio.value else p.audioMuted,
       videoMuted := if video.Some? then video.value else p.videoMuted)
  }

  function SetMute(st: Media, c: ConnId, sid: SessionId, audio: Option<bool>, video: Option<bool>): Media
    requires c in st.conns
  {
    var me := st.conns[c].who;
    if !InSession(st, sid, me) then Deliver(st, {c}, Reply(false))
    else
      var p := Muted(st.sessions[sid].participants[me], audio, video);
      var st1 := Notify(WithParticipant(st, sid, me, p), sid, Some(me), MuteChanged(me, p.audioMuted, p.videoMuted));
      Deliver(st1, {c}, Reply(true))
  }

  /** The socket's close event. */
  function CloseSocket(st: Media, c: ConnId): Media
    requires c in st.conns
  {
    var conn := st.conns[c];
    var st1 := st.(conns := st.conns[c := conn.(phase := Closed)]);
    if conn.active.None? || !InSession(st1, conn.active.value, conn.who) then st1
    else
      var st2 := RemoveParticipant(st1, conn.active.value, conn.who);
      Notify(st2, conn.active.value, Some(conn.who), ParticipantLeft(conn.who))
  }

  // ------------------------------------------------------------ backend commands

  function Kick(st: Media, sid: SessionId, pid: ParticipantId): Media {
    if !InSession(st, sid, pid) then st
    else
      var c := st.sessions[sid].participants[pid].socket;
      var st1 := Deliver(st, {c}, ModeratorKicked(pid));
      var st2 := if c in st1.conns && st1.conns[c].phase.Open?
                 then st1.(conns := st1.conns[c := st1.conns[c].(phase := Closing)]) else st1;
      Notify(RemoveParticipant(st2, sid, pid), sid, None, ParticipantLeft(pid))
  }

  /** Unlike a client's own mute, this one is announced to everybody, the muted included. */
  function ModerateMute(st: Media, sid: SessionId, pid: ParticipantId, audio: Option<bool>, video: Option<bool>): Media {
    if !InSession(st, sid, pid) then st
    else
      var p := Muted(st.sessions[sid].participants[pid], audio, video);
      var st1 := Deliver(WithParticipant(st, sid, pid, p), {p.socket}, ModeratorMute(p.audioMuted, p.videoMuted));
      Notify(st1, sid, None, MuteChanged(pid, p.audioMuted, p.videoMuted))
  }

  function Publish(st: Media, e: Event): Media {
    st.(published := st.published + [e])
  }

  function WithRecordingActive(st: Media, sid: SessionId, active: bool): Media {
    if sid in st.sessions then st.(sessions := st.sessions[sid := st.sessions[sid].(recordingActive := active)]) else st
  }

  /** A new recording: a track for every producer of the session but those whose tap fails. */
  function NewRecording(s: Session, sid: SessionId, noTap: set<nat>): Recording {
    Recording(sid, map x | x in Producers(s) && x !in noTap :: false, Producers(s) * noTap)
  }

  function StartRecording(st: Media, sid: SessionId, rid: RecordingId, dirOk: bool, noTap: set<nat>): Media {
    if sid !in st.sessions || rid in st.recordings || sid in st.recordingOf then Publish(st, Failed(rid, sid))
    else if !dirOk then st
    else
      var r := NewRecording(st.sessions[sid], sid, noTap);
      var st1 := st.(recordings := st.recordings[rid := r], recordingOf := st.recordingOf[sid := rid]);
      Publish(WithRecordingActive(st1, sid, true), Started(rid, sid, |r.tracks|))
  }

  /** A track that has stopped already cannot fail to stop. */
  predicate EveryStopFails(r: Recording, rejects: set<nat>) {
    r.tracks != map[] && forall x | x in r.tracks :: !r.tracks[x] && x in rejects
  }

  function StopEvent(r: Recording, rid: RecordingId, rejects: set<nat>, archiveOk: bool): Event {
    if EveryStopFails(r, rejects) || !archiveOk then Failed(rid, r.sessionId)
    else Ready(rid, r.sessionId, |r.tracks|)
  }

  function StopRecording(st: Media, rid: RecordingId, rejects: set<nat>, archiveOk: bool): Media {
    if rid !in st.recordings then st
    else
      var r := st.recordings[rid];
      var st1 := st.(recordings := st.recordings - {rid}, recordingOf := st.recordingOf - {r.sessionId});
      Publish(WithRecordingActive(st1, r.sessionId, false), StopEvent(r, rid, rejects, archiveOk))
  }

  function StopRecordingBySession(st: Media, sid: SessionId, rejects: set<nat>, archiveOk: bool): Media {
    if sid in st.recordingOf then StopRecording(st, st.recordingOf[sid], rejects, archiveOk) else st
  }

  // ------------------------------------------------------------------------ runs

  datatype Request =
    | JoinSession(routerOk: bool)
    | NewTransport(send: bool, ok: bool)
    | NewProducerOn(ok: bool, tapOk: bool)
    | NewConsumer(producer: nat, ok: bool)
    | LeaveSession
    | MuteSelf(audio: Option<bool>, video: Option<bool>)

  /** What the outside world does next. Boolean and set parameters stand for the
      outcome of foreign calls: mediasoup, FFmpeg, the archiver and the object store. */
  datatype Command =
    | Connect(conn: ConnId, who: ParticipantId, profile: Profile)
    | Signal(conn: ConnId, sid: SessionId, request: Request)
    | SocketClosed(conn: ConnId)
    | End(sid: SessionId, rejects: set<nat>, archiveOk: bool)
    | KickOut(sid: SessionId, pid: ParticipantId)
    | Mute(sid: SessionId, pid: ParticipantId, audio: Option<bool>, video: Option<bool>)
    | RecordingStart(sid: SessionId, rid: RecordingId, dirOk: bool, noTap: set<nat>)
    | RecordingStop(rid: RecordingId, rejects: set<nat>, archiveOk: bool)

  function Answer(st: Media, c: ConnId, sid: SessionId, request: Request): Media
    requires c in st.conns
  {
    match request
    case JoinSession(routerOk) => Join(st, c, sid, routerOk)
    case NewTransport(send, ok) => CreateTransport(st, c, sid, send, ok)
    case NewProducerOn(ok, tapOk) => Produce(st, c, sid, ok, tapOk)
    case NewConsumer(producer, ok) => Consume(st, c, sid, producer, ok)
    case LeaveSession => Leave(st, c, sid)
    case MuteSelf(audio, video) => SetMute(st, c, sid, audio, video)
  }

  /** A socket speaks only between its connection and its close event. */
  predicate Speaks(st: Media, c: ConnId) {
    c in st.conns && !st.conns[c].phase.Closed?
  }

  function Step(st: Media, command: Command): Media {
    match command
    case Connect(c, who, profile) =>
      if c in st.conns then st else st.(conns := st.conns[c := Conn(who, profile, Open, None, [])])
    case Signal(c, sid, request) => if Speaks(st, c) then Answer(st, c, sid, request) else st
    case SocketClosed(c) => if Speaks(st, c) then CloseSocket(st, c) else st
    case End(sid, rejects, archiveOk) => EndSession(StopRecordingBySession(st, sid, rejects, archiveOk), sid)
    case KickOut(sid, pid) => Kick(st, sid, pid)
    case Mute(sid, pid, audio, video) => ModerateMute(st, sid, pid, audio, video)
    case RecordingStart(sid, rid, dirOk, noTap) => StartRecording(st, sid, rid, dirOk, noTap)
    case RecordingStop(rid, rejects, archiveOk) => StopRecording(st, rid, rejects, archiveOk)
  }

  /** The commands one after another, from any state. */
  function RunFrom(st: Media, commands: seq<Command>): Media {
    if commands == [] then st
    else Step(RunFrom(st, commands[..|commands| - 1]), commands[|commands| - 1])
  }

  lemma RunFromGrows(st: Media, commands: seq<Command>, command: Command)
    ensures RunFrom(st, commands + [command]) == Step(RunFrom(st, commands), command)
  {
    assert (commands + [command])[..|commands|] == commands;
  }

  function Run(commands: seq<Command>): Media {
    RunFrom(EMPTY, commands)
  }
}
