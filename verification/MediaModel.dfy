/**
 The media call server as a value: every signaling message, backend command and
 socket close is one atomic step on the state `Media`.

 The steps say what a message must achieve as a whole. The class in
 MediaServing.dfy does the same work object by object and loop by loop.
 */
module MediaModel {
  import opened Prelude

  // Identifiers are only ever compared, so integers stand in for strings.
  type SessionId = int
  type ParticipantId = int
  type RecordingId = int
  type ConnId = int

  // ---------------------------------------------------------------- data model

  datatype Kind = Router | Transport | Producer | Consumer

  /** An open mediasoup object. Closing anything in `deps` closes it as well. */
  datatype Resource = Resource(kind: Kind, router: nat, owner: ParticipantId, deps: set<nat>)

  datatype Profile = Profile(userId: string, displayName: string)

  /** What clients know about a participant. The profile is missing when a client
      learns of somebody through a mute change only. */
  datatype Info = Info(profile: Option<Profile>, audioMuted: bool, videoMuted: bool)

  datatype Participant = Participant(
    profile: Profile,
    socket: ConnId,
    audioMuted: bool,
    videoMuted: bool,
    send: Option<nat>,
    recv: Option<nat>,
    producers: set<nat>,
    consumers: set<nat>)

  datatype Session = Session(router: nat, recordingActive: bool, participants: map<ParticipantId, Participant>)

  /** `tracks` maps a producer to whether its track has been stopped. `missed` holds the
      producers whose track could not be started, which the server only logs. */
  datatype Recording = Recording(sessionId: SessionId, tracks: map<nat, bool>, missed: set<nat>)

  datatype Event =
    | Started(recordingId: RecordingId, sessionId: SessionId, trackCount: nat)
    | Ready(recordingId: RecordingId, sessionId: SessionId, trackCount: nat)
    | Failed(recordingId: RecordingId, sessionId: SessionId)

  /** `Made` answers a request with the id of the object that was made for it. */
  datatype Message =
    | JoinOk(participants: map<ParticipantId, Info>, producers: set<(nat, ParticipantId)>)
    | Reply(ok: bool)
    | Made(id: nat)
    | ParticipantJoined(who: ParticipantId, profile: Profile)
    | ParticipantLeft(who: ParticipantId)
    | MuteChanged(who: ParticipantId, audioMuted: bool, videoMuted: bool)
    | NewProducer(who: ParticipantId, producer: nat)
    | ModeratorMute(audioMuted: bool, videoMuted: bool)
    | ModeratorKicked(who: ParticipantId)

  datatype Phase = Open | Closing | Closed

  /** A signaling socket, the identity its token carried, and all it was ever sent. */
  datatype Conn = Conn(
    who: ParticipantId,
    profile: Profile,
    phase: Phase,
    active: Option<SessionId>,
    inbox: seq<Message>)

  datatype Media = Media(
    conns: map<ConnId, Conn>,
    sessions: map<SessionId, Session>,
    open: map<nat, Resource>,
    recordings: map<RecordingId, Recording>,
    recordingOf: map<SessionId, RecordingId>,
    published: seq<Event>,
    nextId: nat)

  const EMPTY := Media(map[], map[], map[], map[], map[], [], 0)

  // ------------------------------------------------------------------- closing

  /** What is left open after everything in `ids` was closed. */
  function OpenAfter(open: map<nat, Resource>, ids: set<nat>): map<nat, Resource> {
    map r | r in open && r !in ids && open[r].deps !! ids :: open[r]
  }

  /** The close listeners drop dead producers and consumers from a participant. */
  function PruneParticipant(p: Participant, open: map<nat, Resource>): Participant {
    p.(producers := (set x | x in p.producers && x in open),
       consumers := (set x | x in p.consumers && x in open))
  }

  function PruneSession(s: Session, open: map<nat, Resource>): Session {
    s.(participants := map q | q in s.participants :: PruneParticipant(s.participants[q], open))
  }

  /** The close listeners stop the track of every dead producer. */
  function PruneRecording(r: Recording, open: map<nat, Resource>): Recording {
    r.(tracks := map x | x in r.tracks :: r.tracks[x] || x !in open)
  }

  /** Closes all of `ids` and lets every close listener run. */
  function CloseAll(st: Media, ids: set<nat>): Media {
    var open := OpenAfter(st.open, ids);
    st.(open := open,
        sessions := map s | s in st.sessions :: PruneSession(st.sessions[s], open),
        recordings := map r | r in st.recordings :: PruneRecording(st.recordings[r], open))
  }

  function OptionalId(id: Option<nat>): set<nat> {
    if id.Some? then {id.value} else {}
  }

  /** The mediasoup objects a participant holds. */
  function Owned(p: Participant): set<nat> {
    p.consumers + p.producers + OptionalId(p.send) + OptionalId(p.recv)
  }

  // ----------------------------------------------------------------- messaging

  /** The sockets of a session's participants, all but those of `except`. */
  function Sockets(s: Session, except: Option<ParticipantId>): set<ConnId> {
    set q | q in s.participants && Some(q) != except :: s.participants[q].socket
  }

  /** Sends a message to every open socket among `to`. */
  function Send(conns: map<ConnId, Conn>, to: set<ConnId>, m: Message): map<ConnId, Conn> {
    map c | c in conns :: if c in to && conns[c].phase.Open? then conns[c].(inbox := conns[c].inbox + [m]) else conns[c]
  }

  function Deliver(st: Media, to: set<ConnId>, m: Message): Media {
    st.(conns := Send(st.conns, to, m))
  }

  function Notify(st: Media, sid: SessionId, except: Option<ParticipantId>, m: Message): Media {
    if sid in st.sessions then Deliver(st, Sockets(st.sessions[sid], except), m) else st
  }

  function InfoOf(p: Participant): Info {
    Info(Some(p.profile), p.audioMuted, p.videoMuted)
  }

  /** The participants of a session other than `me`, as a client should see them. */
  function Others(s: Session, me: ParticipantId): map<ParticipantId, Info> {
    map q | q in s.participants && q != me :: InfoOf(s.participants[q])
  }

  /** The producers of the current participants. */
  function Producers(s: Session): set<nat> {
    set q, x | q in s.participants && x in s.participants[q].producers :: x
  }

  /** The producers a joining client is told about. */
  function ProducersOfOthers(s: Session, me: ParticipantId): set<(nat, ParticipantId)> {
    set q, x | q in s.participants && q != me && x in s.participants[q].producers :: (x, q)
  }
}
