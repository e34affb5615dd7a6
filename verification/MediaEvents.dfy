/**
 Why recordings end as they do: every published event is explained by the command that
 published it, over every run.
 */
module MediaEvents {
  import opened Prelude
  import opened MediaModel
  import opened MediaSteps
  import opened MediaEngine
  import opened MediaRecordings

  // ----------------------------------------------------------------- one command

  /** A recording ends well if the archive is stored and, unless it has no tracks at all, some
      track stops: it has stopped already, or does not refuse to. */
  ghost predicate EndsWell(r: Recording, rejects: set<nat>, archiveOk: bool) {
    archiveOk && (r.tracks == map[] || exists x :: x in r.tracks && (r.tracks[x] || x !in rejects))
  }

  /** The one event that the end of a recording publishes. */
  ghost function Ending(r: Recording, rid: RecordingId, rejects: set<nat>, archiveOk: bool): Event {
    if EndsWell(r, rejects, archiveOk) then Ready(rid, r.sessionId, |r.tracks|) else Failed(rid, r.sessionId)
  }

  lemma StopPublishes(st: Media, rid: RecordingId, rejects: set<nat>, archiveOk: bool, st': Media)
    requires st' == Step(st, RecordingStop(rid, rejects, archiveOk))
    ensures rid !in st.recordings ==> st' == st
    ensures rid in st.recordings ==>
      && st'.published == st.published + [Ending(st.recordings[rid], rid, rejects, archiveOk)]
      && st'.recordings == st.recordings - {rid} && st'.recordingOf == st.recordingOf - {st.recordings[rid].sessionId}
  {
  }

  /** Ending a recorded session ends its recording in the same way, and ending any other
      publishes nothing. */
  lemma EndPublishes(st: Media, sid: SessionId, rejects: set<nat>, archiveOk: bool, st': Media)
    requires PinOk(st) && st' == Step(st, End(sid, rejects, archiveOk))
    ensures sid !in st.recordingOf ==> st'.published == st.published && st'.recordings.Keys == st.recordings.Keys
    ensures sid in st.recordingOf ==>
      var rid := st.recordingOf[sid];
      && rid in st.recordings && st.recordings[rid].sessionId == sid
      && st'.published == st.published + [Ending(st.recordings[rid], rid, rejects, archiveOk)]
      && st'.recordings.Keys == st.recordings.Keys - {rid}
    ensures forall rid :: rid in st'.recordings ==> rid in st.recordings && st'.recordings[rid].tracks.Keys == st.recordings[rid].tracks.Keys
  {
    hide EndSession;
    var st1 := StopRecordingBySession(st, sid, rejects, archiveOk);
    if sid in st.recordingOf {
      StopPublishes(st, st.recordingOf[sid], rejects, archiveOk, st1);
    }
    EndKeepsTracks(st1, sid);
  }

  lemma EndKeepsTracks(st: Media, sid: SessionId)
    ensures var st' := EndSession(st, sid);
      st'.published == st.published && SameTracks(st, st')
  {
  }

  /** No recording came or went, and none got a new track. */
  ghost predicate SameTracks(st: Media, st': Media) {
    && st'.recordings.Keys == st.recordings.Keys
    && forall rid :: rid in st.recordings ==> st'.recordings[rid].tracks.Keys == st.recordings[rid].tracks.Keys
  }

  predicate MayStart(st: Media, sid: SessionId, rid: RecordingId) {
    sid in st.sessions && rid !in st.recordings && sid !in st.recordingOf
  }

  /** The producers of a session's participants. */
  function SessionProducers(st: Media, sid: SessionId): set<nat>
    requires sid in st.sessions
  {
    set q, x | q in st.sessions[sid].participants && x in st.sessions[sid].participants[q].producers :: x
  }

  /** A start is refused with a failure event if the session is missing or recorded or the id
      in use; else a recording is there with a track for each producer that can be tapped. */
  lemma StartPublishes(st: Media, sid: SessionId, rid: RecordingId, dirOk: bool, noTap: set<nat>, st': Media)
    requires st' == Step(st, RecordingStart(sid, rid, dirOk, noTap))
    ensures !MayStart(st, sid, rid) ==> st' == st.(published := st.published + [Failed(rid, sid)])
    ensures MayStart(st, sid, rid) && !dirOk ==> st' == st
    ensures MayStart(st, sid, rid) && dirOk ==>
      var tapped := SessionProducers(st, sid) - noTap;
      && st'.published == st.published + [Started(rid, sid, |tapped|)]
      && rid in st'.recordings && st'.recordings[rid] == Recording(sid, map x | x in tapped :: false, SessionProducers(st, sid) * noTap)
      && st'.recordings - {rid} == st.recordings && st'.recordingOf == st.recordingOf[sid := rid]
  {
    hide NewRecording, SessionProducers;
    if MayStart(st, sid, rid) && dirOk {
      NewRecordingIs(st, sid, noTap);
      WithoutTheNew(st.recordings, rid, st'.recordings[rid]);
    }
  }

  lemma WithoutTheNew(recordings: map<RecordingId, Recording>, rid: RecordingId, r: Recording)
    requires rid !in recordings
    ensures recordings[rid := r] - {rid} == recordings
  {
  }

  lemma NewRecordingIs(st: Media, sid: SessionId, noTap: set<nat>)
    requires sid in st.sessions
    ensures var tapped, r := SessionProducers(st, sid) - noTap, NewRecording(st.sessions[sid], sid, noTap);
      r == Recording(sid, map x | x in tapped :: false, SessionProducers(st, sid) * noTap) && |r.tracks| == |tapped|
  {
    var tapped, r := SessionProducers(st, sid) - noTap, NewRecording(st.sessions[sid], sid, noTap);
    assert Producers(st.sessions[sid]) == SessionProducers(st, sid);
    assert r.tracks == map x | x in tapped :: false;
    assert r.tracks.Keys == tapped;
  }

  // --------------------------------------------------------------- tracks begun

  /** A step makes a producer in the session that `rid` records, and taps it. */
  predicate Taps(st: Media, command: Command, rid: RecordingId) {
    && command.Signal? && command.request.NewProducerOn? && command.request.tapOk
    && command.sid in st.recordingOf && st.recordingOf[command.sid] == rid
    && Step(st, command).nextId != st.nextId
  }

  /** The producers that the recording has ever had a track for. */
  function Begun(commands: seq<Command>, rid: RecordingId): set<nat> {
    if commands == [] then {}
    else
      var before, last := commands[..|commands| - 1], commands[|commands| - 1];
      var st := Run(before);
      if last.RecordingStart? && last.rid == rid && MayStart(st, last.sid, rid) && last.dirOk
      then SessionProducers(st, last.sid) - last.noTap
      else Begun(before, rid) + if Taps(st, last, rid) then {st.nextId} else {}
  }

  lemma RemovalKeepsTracks(st: Media, sid: SessionId, q: ParticipantId)
    ensures SameTracks(st, RemoveParticipant(st, sid, q))
  {
  }

  lemma LeaveKeepsTracks(st: Media, c: ConnId, sid: SessionId)
    requires c in st.conns
    ensures SameTracks(st, Leave(st, c, sid))
  {
    RemovalKeepsTracks(WithActive(st, c, None), sid, st.conns[c].who);
  }

  lemma CloseKeepsTracks(st: Media, c: ConnId)
    requires c in st.conns
    ensures SameTracks(st, CloseSocket(st, c))
  {
    if st.conns[c].active.Some? {
      RemovalKeepsTracks(st.(conns := st.conns[c := st.conns[c].(phase := Closed)]), st.conns[c].active.value, st.conns[c].who);
    }
  }

  lemma KickKeepsTracks(st: Media, sid: SessionId, pid: ParticipantId)
    ensures SameTracks(st, Kick(st, sid, pid))
  {
    if InSession(st, sid, pid) {
      hide RemoveParticipant;
      var c := st.sessions[sid].participants[pid].socket;
      var st1 := Deliver(st, {c}, ModeratorKicked(pid));
      var st2 := if c in st1.conns && st1.conns[c].phase.Open?
                 then st1.(conns := st1.conns[c := st1.conns[c].(phase := Closing)]) else st1;
      RemovalKeepsTracks(st2, sid, pid);
    }
  }

  /** A tapped producer gets a track, in the recording of its session. */
  lemma ProduceAddsTrack(st: Media, c: ConnId, sid: SessionId, ok: bool, tapOk: bool, rid: RecordingId)
    requires PinOk(st) && c in st.conns && rid in st.recordings
    ensures var st' := Produce(st, c, sid, ok, tapOk);
      && st'.recordings.Keys == st.recordings.Keys
      && st'.recordings[rid].tracks.Keys == st.recordings[rid].tracks.Keys
           + if tapOk && sid in st.recordingOf && st.recordingOf[sid] == rid && st'.nextId != st.nextId then {st.nextId} else {}
  {
  }

  lemma SignalTracks(st: Media, c: ConnId, sid: SessionId, request: Request, rid: RecordingId)
    requires PinOk(st) && Speaks(st, c) && rid in Answer(st, c, sid, request).recordings
    ensures rid in st.recordings
    ensures Answer(st, c, sid, request).recordings[rid].tracks.Keys == st.recordings[rid].tracks.Keys
      + if Taps(st, Signal(c, sid, request), rid) then {st.nextId} else {}
  {
    hide Join, Leave, Produce;
    SignalKeepsPins(st, c, sid, request);
    match request
    case JoinSession(routerOk) => JoinKeepsRecordings(st, c, sid, routerOk);
    case NewTransport(send, ok) =>
    case NewProducerOn(ok, tapOk) => ProduceAddsTrack(st, c, sid, ok, tapOk, rid);
    case NewConsumer(producer, ok) =>
    case LeaveSession => LeaveKeepsTracks(st, c, sid);
    case MuteSelf(audio, video) =>
  }

  lemma JoinKeepsRecordings(st: Media, c: ConnId, sid: SessionId, routerOk: bool)
    requires c in st.conns
    ensures Join(st, c, sid, routerOk).recordings == st.recordings
  {
  }

  /** Tracks are only ever added, and only so. */
  lemma TracksAfter(st: Media, command: Command, rid: RecordingId, st': Media)
    requires PinOk(st) && st' == Step(st, command) && rid in st'.recordings
    ensures if command.RecordingStart? && command.rid == rid && MayStart(st, command.sid, rid) && command.dirOk
            then st'.recordings[rid].tracks.Keys == SessionProducers(st, command.sid) - command.noTap
            else rid in st.recordings && st'.recordings[rid].tracks.Keys == st.recordings[rid].tracks.Keys
                 + if Taps(st, command, rid) then {st.nextId} else {}
  {
    hide Answer, CloseSocket, EndSession, StopRecordingBySession, Kick, ModerateMute, StartRecording, StopRecording, PinOk, SessionProducers, MayStart;
    match command
    case Connect(c, who, profile) =>
    case Signal(c, sid, request) => if Speaks(st, c) { SignalTracks(st, c, sid, request, rid); }
    case SocketClosed(c) => if Speaks(st, c) { CloseKeepsTracks(st, c); }
    case End(sid, rejects, archiveOk) => EndPublishes(st, sid, rejects, archiveOk, st');
    case KickOut(sid, pid) => KickKeepsTracks(st, sid, pid);
    case Mute(sid, pid, audio, video) => MuteKeepsRecordings(st, sid, pid, audio, video);
    case RecordingStart(sid, r, dirOk, noTap) => StartTracks(st, sid, r, dirOk, noTap, rid, st');
    case RecordingStop(r, rejects, archiveOk) => StopKeepsTracks(st, r, rejects, archiveOk, rid);
  }

  lemma StartTracks(st: Media, sid: SessionId, r: RecordingId, dirOk: bool, noTap: set<nat>, rid: RecordingId, st': Media)
    requires st' == Step(st, RecordingStart(sid, r, dirOk, noTap)) && rid in st'.recordings
    ensures if r == rid && MayStart(st, sid, rid) && dirOk then st'.recordings[rid].tracks.Keys == SessionProducers(st, sid) - noTap
            else rid in st.recordings && st'.recordings[rid] == st.recordings[rid]
  {
    hide Step, SessionProducers;
    StartPublishes(st, sid, r, dirOk, noTap, st');
    if rid != r && MayStart(st, sid, r) && dirOk {
      assert rid in st'.recordings - {r} && (st'.recordings - {r})[rid] == st'.recordings[rid];
    }
  }

  lemma StopKeepsTracks(st: Media, r: RecordingId, rejects: set<nat>, archiveOk: bool, rid: RecordingId)
    requires rid in StopRecording(st, r, rejects, archiveOk).recordings
    ensures rid in st.recordings && StopRecording(st, r, rejects, archiveOk).recordings[rid] == st.recordings[rid]
  {
  }

  lemma MuteKeepsRecordings(st: Media, sid: SessionId, pid: ParticipantId, audio: Option<bool>, video: Option<bool>)
    ensures ModerateMute(st, sid, pid, audio, video).recordings == st.recordings
  {
  }

  /** In every run the tracks of an active recording, running or not, are those begun. */
  lemma {:induction false} TracksAreThoseBegun(commands: seq<Command>, rid: RecordingId)
    requires rid in Run(commands).recordings
    ensures Run(commands).recordings[rid].tracks.Keys == Begun(commands, rid)
  {
    hide Step, MayStart, SessionProducers, Taps;
    if commands != [] {
      var before, last := commands[..|commands| - 1], commands[|commands| - 1];
      RunsPin(before);
      TracksAfter(Run(before), last, rid, Run(commands));
      if rid in Run(before).recordings {
        TracksAreThoseBegun(before, rid);
      }
    }
  }

  // -------------------------------------------------------------------- one event

  /** The command ends the recording, if it is active. */
  predicate Stops(st: Media, command: Command, rid: RecordingId) {
    || (command.RecordingStop? && command.rid == rid)
    || (command.End? && command.sid in st.recordingOf && st.recordingOf[command.sid] == rid)
  }

  /** Why the j-th command published the event. */
  ghost predicate Explains(commands: seq<Command>, j: nat, e: Event)
    requires j < |commands|
  {
    var st, command := Run(commands[..j]), commands[j];
    match e
    case Started(rid, sid, n) =>
      && command.RecordingStart? && command.sid == sid && command.rid == rid && command.dirOk
      && MayStart(st, sid, rid) && n == |Begun(commands[..j + 1], rid)|
    case Ready(rid, sid, n) =>
      && Stops(st, command, rid) && rid in st.recordings && st.recordings[rid].sessionId == sid
      && EndsWell(st.recordings[rid], command.rejects, command.archiveOk) && n == |Begun(commands[..j], rid)|
    case Failed(rid, sid) =>
      || (command.RecordingStart? && command.sid == sid && command.rid == rid && !MayStart(st, sid, rid))
      || (Stops(st, command, rid) && rid in st.recordings && st.recordings[rid].sessionId == sid
          && !EndsWell(st.recordings[rid], command.rejects, command.archiveOk))
  }

  lemma EndingIsExplained(commands: seq<Command>, j: nat, rid: RecordingId)
    requires j < |commands| && Stops(Run(commands[..j]), commands[j], rid) && rid in Run(commands[..j]).recordings
    ensures Explains(commands, j, Ending(Run(commands[..j]).recordings[rid], rid, commands[j].rejects, commands[j].archiveOk))
  {
    TracksAreThoseBegun(commands[..j], rid);
    var r := Run(commands[..j]).recordings[rid];
    assert |r.tracks| == |r.tracks.Keys|;
  }

  lemma StartIsExplained(commands: seq<Command>, j: nat)
    requires j < |commands| && commands[j].RecordingStart?
    requires MayStart(Run(commands[..j]), commands[j].sid, commands[j].rid) && commands[j].dirOk
    ensures Explains(commands, j, Started(commands[j].rid, commands[j].sid,
                                          |SessionProducers(Run(commands[..j]), commands[j].sid) - commands[j].noTap|))
  {
    assert commands[..j + 1][..j] == commands[..j];
  }

  /** A command publishes at most one event, which it explains. */
  lemma PublishesOne(commands: seq<Command>, st: Media, st': Media)
    requires commands != [] && st == Run(commands[..|commands| - 1]) && st' == Run(commands)
    ensures st'.published == st.published
      || exists e :: st'.published == st.published + [e] && Explains(commands, |commands| - 1, e)
  {
    hide Explains, Step, MayStart, SessionProducers, Stops, EndsWell;
    var before, last, j := commands[..|commands| - 1], commands[|commands| - 1], |commands| - 1;
    RunsPin(before);
    match last
    case RecordingStart(sid, rid, dirOk, noTap) =>
      StartPublishes(st, sid, rid, dirOk, noTap, st');
      if !MayStart(st, sid, rid) {
        RefusalIsExplained(commands, j);
      } else if dirOk {
        StartIsExplained(commands, j);
      }
    case RecordingStop(rid, rejects, archiveOk) =>
      StopPublishes(st, rid, rejects, archiveOk, st');
      if rid in st.recordings {
        StopStops(st, last, rid);
        EndingIsExplained(commands, j, rid);
      }
    case End(sid, rejects, archiveOk) =>
      EndPublishes(st, sid, rejects, archiveOk, st');
      if sid in st.recordingOf {
        StopStops(st, last, st.recordingOf[sid]);
        EndingIsExplained(commands, j, st.recordingOf[sid]);
      }
    case _ => OtherStepsKeepPins(st, last);
  }

  lemma RefusalIsExplained(commands: seq<Command>, j: nat)
    requires j < |commands| && commands[j].RecordingStart?
    requires !MayStart(Run(commands[..j]), commands[j].sid, commands[j].rid)
    ensures Explains(commands, j, Failed(commands[j].rid, commands[j].sid))
  {
  }

  lemma StopStops(st: Media, command: Command, rid: RecordingId)
    requires (command.RecordingStop? && command.rid == rid) || (command.End? && command.sid in st.recordingOf && st.recordingOf[command.sid] == rid)
    ensures Stops(st, command, rid)
  {
  }

  lemma StillExplained(commands: seq<Command>, j: nat, e: Event)
    requires j < |commands| - 1 && Explains(commands[..|commands| - 1], j, e)
    ensures Explains(commands, j, e)
  {
    var before := commands[..|commands| - 1];
    assert before[..j] == commands[..j] && before[..j + 1] == commands[..j + 1] && before[j] == commands[j];
  }

  /** The command that published the k-th event. */
  ghost predicate Published(commands: seq<Command>, j: nat, k: nat, e: Event) {
    j < |commands| && |Run(commands[..j]).published| == k && Explains(commands, j, e)
  }

  /** Every event of every run is explained by the command that published it. */
  lemma {:induction false} EventsAreExplained(commands: seq<Command>, k: nat) returns (j: nat)
    requires k < |Run(commands).published|
    ensures Published(commands, j, k, Run(commands).published[k])
  {
    hide Explains, Step;
    var before := commands[..|commands| - 1];
    var st, st' := Run(before), Run(commands);
    PublishesOne(commands, st, st');
    if k < |st.published| {
      j := EventsAreExplained(before, k);
      StillExplained(commands, j, st.published[k]);
      assert before[..j] == commands[..j];
    } else {
      j := |before|;
    }
  }

  // --------------------------------------------------------------------- stories

  /** Where the events of a story stand among all events. */
  lemma {:induction false} StoryPositions(events: seq<Event>, rid: RecordingId) returns (at: seq<nat>)
    ensures |at| == |Story(events, rid)|
    ensures forall m :: 0 <= m < |at| ==> at[m] < |events| && events[at[m]] == Story(events, rid)[m]
    ensures forall m, n :: 0 <= m < n < |at| ==> at[m] < at[n]
  {
    at := [];
    if events != [] {
      var last := |events| - 1;
      at := StoryPositions(events[..last], rid);
      assert forall m :: 0 <= m < |at| ==> events[at[m]] == events[..last][at[m]];
      if events[last].recordingId == rid {
        at := at + [last];
      }
    }
  }

  lemma {:induction false} PublishedGrows(commands: seq<Command>, i: nat, j: nat)
    requires i <= j <= |commands|
    ensures |Run(commands[..i]).published| <= |Run(commands[..j]).published|
  {
    if i < j {
      PublishedGrows(commands, i, j - 1);
      assert commands[..j][..j - 1] == commands[..j - 1];
      PublishesOne(commands[..j], Run(commands[..j - 1]), Run(commands[..j]));
    }
  }

  /** With fresh ids, each event of a recording's story has its reason, and the end of the
      story comes from a later command than its start: `Ready` from a stop that went well
      and with the number of tracks begun by then, `Failed` from one that did not. */
  lemma StoriesHaveReasons(commands: seq<Command>, rid: RecordingId, story: seq<Event>)
    requires FreshIds(commands) && story == Story(Run(commands).published, rid)
    ensures StoryOk(Run(commands), rid, story)
    ensures |story| == 1 ==> exists j :: 0 <= j < |commands| && Explains(commands, j, story[0])
    ensures |story| == 2 ==> exists i, j :: 0 <= i < j < |commands| && Explains(commands, i, story[0]) && Explains(commands, j, story[1])
  {
    hide Explains, FreshIds;
    RunsTellStories(commands);
    var events := Run(commands).published;
    var at := StoryPositions(events, rid);
    if |story| > 0 {
      var i := EventsAreExplained(commands, at[0]);
      if |story| == 2 {
        var j := EventsAreExplained(commands, at[1]);
        if j <= i {
          PublishedGrows(commands, j, i);
        }
        assert i < j;
      }
    }
  }
}
