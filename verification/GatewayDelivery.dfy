/** What arrives on the sockets of the gateway: each message once for each occasion. */
module GatewayDelivery {
  import opened Prelude
  import opened Gateway

  // ----------------------------------------------------------------- one action

  /** The client was sent `news`, if its socket is open, and is otherwise as it was. */
  ghost predicate Gets(row: Row, row': Row, news: seq<Outgoing>) {
    row' == row.(sent := row.sent + if row.open then news else [])
  }

  /** An event for a user goes out once on each open connection of that user. */
  lemma ToUserDelivers(s: State, user: nat, e: nat, s': State)
    requires s' == Step(s, ToUser(user, e))
    ensures s' == s.(table := s'.table) && s'.table.Keys == s.table.Keys
    ensures forall id :: id in s.table ==> Gets(s.table[id], s'.table[id], if s.table[id].userId == user then [Platform(e)] else [])
  {
    assert forall sent: seq<Outgoing> :: sent + [] == sent;
  }

  /** An event for a room goes out once on each open connection that is in it. */
  lemma ToRoomDelivers(s: State, room: nat, e: nat, s': State)
    requires s' == Step(s, ToRoom(room, e))
    ensures s' == s.(table := s'.table) && s'.table.Keys == s.table.Keys
    ensures forall id :: id in s.table ==> Gets(s.table[id], s'.table[id], if room in s.table[id].rooms then [Platform(e)] else [])
  {
    assert forall sent: seq<Outgoing> :: sent + [] == sent;
  }

  /** A client's message concerns that client alone, and is answered as the code says. */
  lemma ReceiveAnswers(s: State, id: nat, m: Message, s': State)
    requires s' == Step(s, Receive(id, m))
    ensures id !in s.table ==> s' == s
    ensures id in s.table ==> id in s'.table && s' == s.(table := s.table[id := s'.table[id]])
    ensures id in s.table ==>
      var row, row' := s.table[id], s'.table[id];
      match m
      case NotJson => Gets(row, row', [InvalidJson])
      case Ping => Gets(row, row', [Pong])
      case JoinRoom(Some(room)) => Gets(row.(rooms := row.rooms + {room}), row', [RoomJoined(room)])
      case LeaveRoom(Some(room)) => row' == row.(rooms := row.rooms - {room})
      case JoinRoom(None) => row' == row
      case LeaveRoom(None) => row' == row
      case Unknown => row' == row
  {
    if id in s.table {
      assert s.table[id].sent + [] == s.table[id].sent;
      assert s.table[id := s.table[id]] == s.table;
    }
  }

  /** A connection with a valid token is registered on its own and told its id; others leave
      no trace. */
  lemma ConnectAnswers(s: State, token: Token, s': State)
    requires s' == Step(s, Connect(token)) && s.nextId !in s.table
    ensures !token.Claims? ==> s' == s
    ensures token.Claims? ==>
      && s'.table.Keys == s.table.Keys + {s.nextId} && (forall id :: id in s.table ==> s'.table[id] == s.table[id])
      && s'.table[s.nextId].userId == token.userId && s'.table[s.nextId].rooms == {} && s'.table[s.nextId].open
      && s'.table[s.nextId].sent == [Connected(s.nextId)]
      && s'.nextId == s.nextId + 1 && s'.presence == s.presence + [SetOnline(token.userId)]
  {
  }

  // ------------------------------------------------------------------ whole runs

  function Count(sent: seq<Outgoing>, m: Outgoing): nat {
    if sent == [] then 0 else Count(sent[..|sent| - 1], m) + if sent[|sent| - 1] == m then 1 else 0
  }

  lemma CountMore(sent: seq<Outgoing>, last: Outgoing, m: Outgoing)
    ensures Count(sent + [last], m) == Count(sent, m) + if last == m then 1 else 0
  {
    assert (sent + [last])[..|sent|] == sent;
  }

  /** The action is a reason to send `m` to the client: an event for its user, an event for a
      room it is in, or something it said itself. */
  predicate Occasion(s: State, a: Action, id: nat, m: Outgoing) {
    && id in s.table && s.table[id].open
    && match a
       case ToUser(user, e) => m == Platform(e) && s.table[id].userId == user
       case ToRoom(room, e) => m == Platform(e) && room in s.table[id].rooms
       case Receive(i, NotJson) => i == id && m == InvalidJson
       case Receive(i, Ping) => i == id && m == Pong
       case Receive(i, JoinRoom(Some(room))) => i == id && m == RoomJoined(room)
       case _ => false
  }

  /** How many actions were a reason to send `m` to the client. */
  function Occasions(actions: seq<Action>, id: nat, m: Outgoing): nat {
    if actions == [] then 0
    else
      var before := actions[..|actions| - 1];
      Occasions(before, id, m) + if Occasion(Run(before), actions[|actions| - 1], id, m) then 1 else 0
  }

  lemma {:induction false} NoOccasionYet(actions: seq<Action>, id: nat, m: Outgoing)
    requires Run(actions).nextId <= id
    ensures Occasions(actions, id, m) == 0
  {
    if actions != [] {
      var before := actions[..|actions| - 1];
      FreshIds(before);
      NoOccasionYet(before, id, m);
    }
  }

  lemma GetsOne(row: Row, row': Row, news: seq<Outgoing>, m: Outgoing)
    requires Gets(row, row', news) && |news| <= 1
    ensures Count(row'.sent, m) == Count(row.sent, m) + if row.open && news == [m] then 1 else 0
  {
    if row.open && news != [] {
      assert news == [news[0]];
      CountMore(row.sent, news[0], m);
    } else {
      assert row'.sent == row.sent;
    }
  }

  /** What one action adds to what a client was sent. */
  lemma OneActionMore(s: State, a: Action, id: nat, m: Outgoing)
    requires id in s.table && id in Step(s, a).table && id < s.nextId
    ensures Count(Step(s, a).table[id].sent, m) == Count(s.table[id].sent, m) + if Occasion(s, a, id, m) then 1 else 0
  {
    hide Count;
    var s', row := Step(s, a), s.table[id];
    match a
    case ToUser(user, e) =>
      ToUserDelivers(s, user, e, s');
      GetsOne(row, s'.table[id], if row.userId == user then [Platform(e)] else [], m);
    case ToRoom(room, e) =>
      ToRoomDelivers(s, room, e, s');
      GetsOne(row, s'.table[id], if room in row.rooms then [Platform(e)] else [], m);
    case Receive(i, message) =>
      if i == id {
        AnswerMore(s, id, message, m);
      }
    case _ =>
  }

  lemma AnswerMore(s: State, id: nat, message: Message, m: Outgoing)
    requires id in s.table
    ensures var s' := Step(s, Receive(id, message));
      id in s'.table && Count(s'.table[id].sent, m) == Count(s.table[id].sent, m) + if Occasion(s, Receive(id, message), id, m) then 1 else 0
  {
    hide Count;
    var s', row := Step(s, Receive(id, message)), s.table[id];
    ReceiveAnswers(s, id, message, s');
    match message
    case NotJson => GetsOne(row, s'.table[id], [InvalidJson], m);
    case Ping => GetsOne(row, s'.table[id], [Pong], m);
    case JoinRoom(Some(room)) => GetsOne(row.(rooms := row.rooms + {room}), s'.table[id], [RoomJoined(room)], m);
    case _ =>
  }

  /** In every run a client that is still there was sent each message exactly as often as
      there was an occasion for it while its socket was open, and its own id once. */
  lemma {:induction false} SentOncePerOccasion(actions: seq<Action>, id: nat, m: Outgoing)
    requires id in Run(actions).table
    ensures Count(Run(actions).table[id].sent, m) == Occasions(actions, id, m) + if m == Connected(id) then 1 else 0
  {
    hide Count, Step;
    var before, a := actions[..|actions| - 1], actions[|actions| - 1];
    var s := Run(before);
    FreshIds(before);
    if id in s.table {
      SentOncePerOccasion(before, id, m);
      OneActionMore(s, a, id, m);
    } else {
      OnlyNew(s, a, id);
      NoOccasionYet(before, id, m);
      ConnectAnswers(s, a.token, Run(actions));
      assert [] + [Connected(id)] == [Connected(id)];
      CountMore([], Connected(id), m);
      CountNone(m);
    }
  }

  lemma CountNone(m: Outgoing)
    ensures Count([], m) == 0
  {
  }

  lemma OnlyNew(s: State, a: Action, id: nat)
    requires id !in s.table && id in Step(s, a).table
    ensures a.Connect? && a.token.Claims? && id == s.nextId
  {
  }

  /** So an event reached a client as often as it was sent to its user or to a room that it
      was in, while its socket was open. */
  lemma EventsReachTheirClients(actions: seq<Action>, id: nat, e: nat)
    requires id in Run(actions).table
    ensures Count(Run(actions).table[id].sent, Platform(e)) == Occasions(actions, id, Platform(e))
  {
    SentOncePerOccasion(actions, id, Platform(e));
  }

  /** The socket has faded since the client came. */
  predicate Faded(actions: seq<Action>, id: nat) {
    actions != [] &&
    var before := actions[..|actions| - 1];
    (actions[|actions| - 1] == Fade(id) && id in Run(before).table) || Faded(before, id)
  }

  lemma {:induction false} NotFadedYet(actions: seq<Action>, id: nat)
    requires Run(actions).nextId <= id
    ensures !Faded(actions, id)
  {
    if actions != [] {
      FreshIds(actions[..|actions| - 1]);
      NotFadedYet(actions[..|actions| - 1], id);
    }
  }

  /** A socket counts as open exactly until it fades, whatever else happens. */
  lemma {:induction false} OpenUntilFaded(actions: seq<Action>, id: nat)
    requires id in Run(actions).table
    ensures Run(actions).table[id].open <==> !Faded(actions, id)
  {
    var before, a := actions[..|actions| - 1], actions[|actions| - 1];
    var s := Run(before);
    FreshIds(before);
    if id in s.table {
      OpenUntilFaded(before, id);
      StaysOpen(s, a, id);
    } else {
      OnlyNew(s, a, id);
      NotFadedYet(before, id);
    }
  }

  lemma StaysOpen(s: State, a: Action, id: nat)
    requires id in s.table && id in Step(s, a).table && id < s.nextId
    ensures Step(s, a).table[id].open <==> s.table[id].open && a != Fade(id)
  {
  }
}
