/**
 The WebSocket gateway: a table of connected clients, and an index from users to their
 connections that must stay in step with it. The specification works on the table alone and
 finds a user's connections by scanning it; the class keeps the index.
 */
module Gateway {
  import opened Prelude

  datatype Outgoing = Connected(connId: nat) | Pong | InvalidJson | RoomJoined(roomId: nat) | Platform(event: nat)

  /** What a connection attempt carries; validating the token is a foreign call. */
  datatype Token = Missing | Rejected | Claims(userId: nat)

  /** An incoming message; no room stands for a missing or empty room id. */
  datatype Message = NotJson | Ping | JoinRoom(roomId: Option<nat>) | LeaveRoom(roomId: Option<nat>) | Unknown

  datatype Presence = SetOnline(userId: nat) | SetOffline(userId: nat)

  /** A client as the table shows it; `sent` is what was sent on its socket. */
  datatype Row = Row(userId: nat, rooms: set<nat>, open: bool, sent: seq<Outgoing>)

  datatype State = State(table: map<nat, Row>, nextId: nat, presence: seq<Presence>)

  datatype Action =
    | Connect(token: Token)
    | Receive(connId: nat, message: Message)
    | Fade(connId: nat)
    | Close(connId: nat)
    | ToUser(userId: nat, event: nat)
    | ToRoom(roomId: nat, event: nat)
    | Stop

  // -------------------------------------------------------------------- specification

  function Conns(table: map<nat, Row>, user: nat): set<nat> {
    set id | id in table && table[id].userId == user
  }

  function Users(table: map<nat, Row>): set<nat> {
    set id | id in table :: table[id].userId
  }

  function Sent(row: Row, message: Outgoing): Row {
    if row.open then row.(sent := row.sent + [message]) else row
  }

  function Received(row: Row, message: Message): Row {
    match message
    case NotJson => Sent(row, InvalidJson)
    case Ping => Sent(row, Pong)
    case JoinRoom(Some(room)) => Sent(row.(rooms := row.rooms + {room}), RoomJoined(room))
    case LeaveRoom(Some(room)) => row.(rooms := row.rooms - {room})
    case JoinRoom(None) => row
    case LeaveRoom(None) => row
    case Unknown => row
  }

  /** Sends to a user by looking at every client. */
  function Direct(table: map<nat, Row>, user: nat, event: nat): map<nat, Row> {
    map id | id in table :: if table[id].userId == user then Sent(table[id], Platform(event)) else table[id]
  }

  function Broadcast(table: map<nat, Row>, room: nat, event: nat): map<nat, Row> {
    map id | id in table :: if room in table[id].rooms then Sent(table[id], Platform(event)) else table[id]
  }

  function Step(s: State, a: Action): State {
    match a
    case Connect(Claims(user)) =>
      State(s.table[s.nextId := Row(user, {}, true, [Connected(s.nextId)])], s.nextId + 1, s.presence + [SetOnline(user)])
    case Connect(Missing) => s
    case Connect(Rejected) => s
    case Receive(id, m) => if id in s.table then s.(table := s.table[id := Received(s.table[id], m)]) else s
    case Fade(id) => if id in s.table then s.(table := s.table[id := s.table[id].(open := false)]) else s
    case Close(id) =>
      if id !in s.table then s
      else
        var user := s.table[id].userId;
        var rest := s.table - {id};
        s.(table := rest, presence := s.presence + if user in Users(rest) then [] else [SetOffline(user)])
    case ToUser(user, e) => s.(table := Direct(s.table, user, e))
    case ToRoom(room, e) => s.(table := Broadcast(s.table, room, e))
    case Stop => s.(table := map[])
  }

  const INITIAL := State(map[], 0, [])

  function Run(actions: seq<Action>): State {
    if actions == [] then INITIAL else Step(Run(actions[..|actions| - 1]), actions[|actions| - 1])
  }

  // -------------------------------------------------------------------- presence

  /** The last presence command about the user was to set it online. */
  predicate Online(presence: seq<Presence>, user: nat) {
    presence != [] &&
    var last := presence[|presence| - 1];
    if last.userId == user then last.SetOnline? else Online(presence[..|presence| - 1], user)
  }

  lemma OnlineAfter(presence: seq<Presence>, command: Presence, user: nat)
    ensures Online(presence + [command], user)
       <==> if command.userId == user then command.SetOnline? else Online(presence, user)
  {
    assert (presence + [command])[..|presence|] == presence;
  }

  /** The users who were connected when the server was stopped and did not come back. */
  function Stranded(actions: seq<Action>): set<nat> {
    if actions == [] then {}
    else
      var before := actions[..|actions| - 1];
      match actions[|actions| - 1]
      case Stop => Stranded(before) + Users(Run(before).table)
      case Connect(Claims(user)) => Stranded(before) - {user}
      case _ => Stranded(before)
  }

  /** Unless the server was stopped no one is stranded. */
  lemma {:induction false} NobodyStranded(actions: seq<Action>)
    requires Stop !in actions
    ensures Stranded(actions) == {}
  {
    if actions != [] {
      NobodyStranded(actions[..|actions| - 1]);
    }
  }

  lemma {:induction false} FreshIds(actions: seq<Action>)
    ensures forall id :: id in Run(actions).table ==> id < Run(actions).nextId
  {
    if actions != [] {
      FreshIds(actions[..|actions| - 1]);
    }
  }

  lemma UsersAfterConnect(table: map<nat, Row>, id: nat, row: Row)
    requires id !in table
    ensures Users(table[id := row]) == Users(table) + {row.userId}
  {
    var table' := table[id := row];
    assert table'[id] == row;
    forall u | u in Users(table)
      ensures u in Users(table')
    {
      var i :| i in table && table[i].userId == u;
      assert i in table' && table'[i].userId == u;
    }
  }

  /** Tables with the same connections of the same users have the same users. */
  lemma SameUsers(table: map<nat, Row>, table': map<nat, Row>)
    requires table.Keys == table'.Keys
    requires forall id :: id in table ==> table'[id].userId == table[id].userId
    ensures Users(table) == Users(table')
  {
    forall u
      ensures u in Users(table) <==> u in Users(table')
    {
      if i :| i in table && table[i].userId == u { assert table'[i].userId == u; }
      if i :| i in table' && table'[i].userId == u { assert table[i].userId == u; }
    }
  }

  lemma UsersAfterClose(table: map<nat, Row>, id: nat)
    requires id in table
    ensures Users(table) == Users(table - {id}) + {table[id].userId}
  {
    var rest := table - {id};
    forall u | u in Users(table)
      ensures u in Users(rest) + {table[id].userId}
    {
      var i :| i in table && table[i].userId == u;
      if i != id {
        assert i in rest && rest[i].userId == u;
      }
    }
    forall u | u in Users(rest)
      ensures u in Users(table)
    {
      var i :| i in rest && rest[i].userId == u;
      assert i in table && table[i].userId == u;
    }
  }

  /** Over every run, the last presence command issued for a user is online exactly when the
      user has a connection or was left behind by a stop. */
  lemma {:induction false} PresenceFollowsConnections(actions: seq<Action>, user: nat)
    ensures Online(Run(actions).presence, user) <==> user in Users(Run(actions).table) || user in Stranded(actions)
  {
    if actions != [] {
      var before, a := actions[..|actions| - 1], actions[|actions| - 1];
      var s, s' := Run(before), Run(actions);
      PresenceFollowsConnections(before, user);
      FreshIds(before);
      match a {
        case Connect(token) =>
          if token.Claims? {
            OnlineAfter(s.presence, SetOnline(token.userId), user);
            UsersAfterConnect(s.table, s.nextId, s'.table[s.nextId]);
          }
        case Close(id) =>
          if id in s.table {
            OnlineAfter(s.presence, SetOffline(s.table[id].userId), user);
            UsersAfterClose(s.table, id);
            NotBoth(before, s.table[id].userId);
            assert s.presence + [] == s.presence;
          }
        case Stop =>
        case _ => SameUsers(s.table, s'.table);
      }
    }
  }

  /** A stranded user has no connection: the first one to come takes the user off the list. */
  lemma {:induction false} NotBoth(actions: seq<Action>, user: nat)
    ensures !(user in Users(Run(actions).table) && user in Stranded(actions))
  {
    if actions != [] {
      var before, a := actions[..|actions| - 1], actions[|actions| - 1];
      var s, s' := Run(before), Run(actions);
      NotBoth(before, user);
      FreshIds(before);
      match a {
        case Connect(token) =>
          if token.Claims? {
            UsersAfterConnect(s.table, s.nextId, s'.table[s.nextId]);
          }
        case Close(id) =>
          if id in s.table {
            UsersAfterClose(s.table, id);
          }
        case Stop =>
        case _ => SameUsers(s.table, s'.table);
      }
    }
  }

  lemma ConnectedUsers(table: map<nat, Row>, user: nat)
    ensures user in Users(table) <==> Conns(table, user) != {}
  {
    if user in Users(table) {
      var id :| id in table && table[id].userId == user;
      assert id in Conns(table, user);
    }
    if Conns(table, user) != {} {
      assert exists id :: id in Conns(table, user);
      var id :| id in Conns(table, user);
      assert table[id].userId == user;
    }
  }

  /** Until a stop, online means connected. */
  lemma OnlineMeansConnected(actions: seq<Action>, user: nat)
    requires Stop !in actions
    ensures Online(Run(actions).presence, user) <==> Conns(Run(actions).table, user) != {}
  {
    PresenceFollowsConnections(actions, user);
    NobodyStranded(actions);
    ConnectedUsers(Run(actions).table, user);
  }

  /** A stop leaves everyone who was connected marked as online. */
  lemma StopStrandsTheConnected(actions: seq<Action>, user: nat)
    requires user in Users(Run(actions).table)
    ensures Online(Run(actions + [Stop]).presence, user) && Run(actions + [Stop]).table == map[]
  {
    assert (actions + [Stop])[..|actions|] == actions;
    PresenceFollowsConnections(actions, user);
  }

  // -------------------------------------------------------------------- rooms

  /** The last thing the connection said about the room was to join it. */
  predicate Joined(actions: seq<Action>, id: nat, room: nat) {
    actions != [] &&
    var before := actions[..|actions| - 1];
    match actions[|actions| - 1]
    case Receive(i, JoinRoom(Some(r))) => if i == id && r == room then id in Run(before).table else Joined(before, id, room)
    case Receive(i, LeaveRoom(Some(r))) => !(i == id && r == room) && Joined(before, id, room)
    case _ => Joined(before, id, room)
  }

  lemma {:induction false} UnknownHaveNotJoined(actions: seq<Action>, id: nat, room: nat)
    requires Run(actions).nextId <= id
    ensures !Joined(actions, id, room)
  {
    if actions != [] {
      var before := actions[..|actions| - 1];
      FreshIds(before);
      UnknownHaveNotJoined(before, id, room);
    }
  }

  /** A connection is in a room exactly if it said so last; nothing anyone else does puts it
      into a room or takes it out of one. */
  lemma {:induction false} RoomsAreWhatTheClientSaid(actions: seq<Action>, id: nat, room: nat)
    requires id in Run(actions).table
    ensures room in Run(actions).table[id].rooms <==> Joined(actions, id, room)
  {
    var before, a := actions[..|actions| - 1], actions[|actions| - 1];
    FreshIds(before);
    if id in Run(before).table {
      RoomsAreWhatTheClientSaid(before, id, room);
      var row, row' := Run(before).table[id], Run(actions).table[id];
      match a {
        case Receive(i, m) =>
          if i == id { assert row' == Received(row, m); } else { assert row' == row; }
        case _ => assert row'.rooms == row.rooms;
      }
    } else {
      UnknownHaveNotJoined(before, id, room);
    }
  }

  // -------------------------------------------------------------------- the index

  /** What the index must be: every user with a connection, and all its connections. */
  function Index(table: map<nat, Row>): map<nat, set<nat>> {
    map user | user in Users(table) :: Conns(table, user)
  }

  lemma Indexed(table: map<nat, Row>, user: nat)
    ensures Conns(table, user) == if user in Index(table) then Index(table)[user] else {}
  {
    ConnectedUsers(table, user);
  }

  lemma IndexAfterConnect(table: map<nat, Row>, id: nat, row: Row)
    requires id !in table
    ensures Index(table[id := row]) == Index(table)[row.userId := Conns(table, row.userId) + {id}]
  {
    var table', user := table[id := row], row.userId;
    UsersAfterConnect(table, id, row);
    assert Conns(table', user) == Conns(table, user) + {id};
    forall u | u in Users(table) && u != user
      ensures Conns(table', u) == Conns(table, u)
    {
    }
  }

  lemma IndexAfterClose(table: map<nat, Row>, id: nat)
    requires id in table
    ensures
      var user, left := table[id].userId, Conns(table, table[id].userId) - {id};
      && (left == {} <==> user !in Users(table - {id}))
      && Index(table - {id}) == if left == {} then Index(table) - {user} else Index(table)[user := left]
  {
    var user, rest := table[id].userId, table - {id};
    UsersAfterClose(table, id);
    ConnectedUsers(rest, user);
    assert Conns(rest, user) == Conns(table, user) - {id};
    forall u | u in Users(table) && u != user
      ensures Conns(rest, u) == Conns(table, u)
    {
    }
  }

  /** Takes a connection out of the index, and its user with the last one. */
  function Untracked(index: map<nat, set<nat>>, user: nat, id: nat): map<nat, set<nat>> {
    if user !in index then index
    else if index[user] - {id} == {} then index - {user}
    else index[user := index[user] - {id}]
  }

  lemma IndexWithout(table: map<nat, Row>, user: nat, id: nat)
    requires id in table ==> table[id].userId == user
    ensures Untracked(Index(table), user, id) == Index(table - {id})
    ensures user in Index(table) && Index(table)[user] - {id} == {} <==> id in table && user !in Users(table - {id})
  {
    ConnectedUsers(table, user);
    if id in table {
      IndexAfterClose(table, id);
      assert id in Conns(table, user);
    } else {
      assert table - {id} == table && id !in Conns(table, user);
      if user in Index(table) {
        assert Conns(table, user) - {id} == Conns(table, user);
      }
    }
  }

  lemma SameIndex(table: map<nat, Row>, table': map<nat, Row>)
    requires table.Keys == table'.Keys
    requires forall id :: id in table ==> table'[id].userId == table[id].userId
    ensures Index(table) == Index(table')
  {
    SameUsers(table, table');
    forall u
      ensures Conns(table, u) == Conns(table', u)
    {
    }
  }

  // -------------------------------------------------------------------- the server

  class ConnectedClient {
    const id: nat
    const userId: nat
    var rooms: set<nat>
    var open: bool
    var sent: seq<Outgoing>

    constructor (id: nat, userId: nat)
      ensures this.id == id && Shown() == Row(userId, {}, true, [])
    {
      this.id, this.userId, rooms, open, sent := id, userId, {}, true, [];
    }

    /** The client as a row of the table. */
    ghost function Shown(): Row
      reads this
    {
      Row(userId, rooms, open, sent)
    }

    method Send(message: Outgoing)
      modifies this`sent
      ensures Shown() == Sent(old(Shown()), message)
    {
      if open {
        sent := sent + [message];
      }
    }

    /** The socket leaves the open state; its close event is yet to come. */
    method CloseSocket()
      modifies this`open
      ensures Shown() == old(Shown()).(open := false)
    {
      open := false;
    }

    method HandleMessage(message: Message)
      modifies this
      ensures Shown() == Received(old(Shown()), message)
    {
      match message {
        case NotJson => Send(InvalidJson);
        case Ping => Send(Pong);
        case JoinRoom(room) =>
          if room.Some? {
            rooms := rooms + {room.value};
            Send(RoomJoined(room.value));
          }
        case LeaveRoom(room) =>
          if room.Some? {
            rooms := rooms - {room.value};
          }
        case Unknown =>
      }
    }
  }

  class GatewayServer {
    var clients: map<nat, ConnectedClient>
    var userConnections: map<nat, set<nat>>
    var nextId: nat
    var presence: seq<Presence>

    ghost function Table(): (table: map<nat, Row>)
      reads this, clients.Values
      ensures table.Keys == clients.Keys
      ensures forall id :: id in clients ==> table[id] == clients[id].Shown()
    {
      map id | id in clients :: clients[id].Shown()
    }

    ghost function St(): State
      reads this, clients.Values
    {
      State(Table(), nextId, presence)
    }

    /** The index agrees with the table. */
    ghost predicate Valid()
      reads this, clients.Values
    {
      && (forall id :: id in clients ==> clients[id].id == id && id < nextId)
      && userConnections == Index(Table())
    }

    /** The client was handed out by this server, whether or not it is still in the table. */
    ghost predicate Known(client: ConnectedClient)
      reads this
    {
      client.id < nextId && (client in clients.Values <==> client.id in clients) &&
      (client.id in clients ==> clients[client.id] == client)
    }

    constructor ()
      ensures Valid() && St() == INITIAL && clients == map[]
    {
      clients, userConnections, nextId, presence := map[], map[], 0, [];
    }

    method HandleConnection(token: Token) returns (client: Option<ConnectedClient>, code: Option<nat>)
      requires Valid()
      modifies this
      ensures Valid() && St() == Step(old(St()), Connect(token))
      ensures client.Some? <==> token.Claims?
      ensures client.Some? ==> fresh(client.value) && Known(client.value) && clients == old(clients)[old(nextId) := client.value]
      ensures code == match token case Missing => Some(4001) case Rejected => Some(4003) case Claims(_) => None
    {
      match token {
        case Missing => return None, Some(4001);
        case Rejected => return None, Some(4003);
        case Claims(userId) =>
          var c := Register(userId);
          Acknowledge(c);
          return Some(c), None;
      }
    }

    method Register(userId: nat) returns (c: ConnectedClient)
      requires Valid()
      modifies this
      ensures Valid() && fresh(c) && Known(c) && c.id == old(nextId) && clients == old(clients)[old(nextId) := c]
      ensures presence == old(presence) + [SetOnline(userId)] && nextId == old(nextId) + 1
      ensures Table() == old(Table())[c.id := Row(userId, {}, true, [])]
    {
      ghost var table := Table();
      ConnectedUsers(table, userId);
      c := new ConnectedClient(nextId, userId);
      clients := clients[nextId := c];
      Track(userId, nextId);
      nextId := nextId + 1;
      presence := presence + [SetOnline(userId)];
      IndexAfterConnect(table, c.id, c.Shown());
      assert Table() == table[c.id := c.Shown()];
    }

    method Acknowledge(c: ConnectedClient)
      requires Valid() && c.id in clients && clients[c.id] == c && c.Shown() == Row(c.userId, {}, true, [])
      modifies c
      ensures Valid() && Table() == old(Table())[c.id := Row(c.userId, {}, true, [Connected(c.id)])]
    {
      ghost var table := Table();
      assert forall id :: id in clients && id != c.id ==> clients[id] != c;
      c.Send(Connected(c.id));
      assert c.Shown() == Row(c.userId, {}, true, [Connected(c.id)]);
      SameIndex(table, Table());
      assert Table() == table[c.id := c.Shown()];
    }

    method Track(userId: nat, connId: nat)
      modifies this`userConnections
      ensures userConnections == old(userConnections)[userId :=
        (if userId in old(userConnections) then old(userConnections)[userId] else {}) + {connId}]
    {
      if userId !in userConnections {
        userConnections := userConnections[userId := {}];
      }
      userConnections := userConnections[userId := userConnections[userId] + {connId}];
    }

    method HandleDisconnect(client: ConnectedClient)
      requires Valid() && Known(client)
      modifies this
      ensures Valid() && St() == Step(old(St()), Close(client.id))
      ensures clients == old(clients) - {client.id}
    {
      hide Index, Users;
      ghost var table := Table();
      IndexWithout(table, client.userId, client.id);
      clients := clients - {client.id};
      if client.userId in userConnections {
        var left := userConnections[client.userId] - {client.id};
        userConnections := userConnections[client.userId := left];
        if left == {} {
          userConnections := userConnections - {client.userId};
          presence := presence + [SetOffline(client.userId)];
        }
      }
      assert userConnections == Untracked(Index(table), client.userId, client.id);
      assert Table() == table - {client.id};
    }

    method HandleMessage(client: ConnectedClient, message: Message)
      requires Valid() && Known(client)
      modifies client
      ensures Valid() && St() == Step(old(St()), Receive(client.id, message))
    {
      ghost var table := Table();
      assert forall id :: id in clients && id != client.id ==> clients[id] != client;
      client.HandleMessage(message);
      SameIndex(table, Table());
      assert Table() == if client.id in table then table[client.id := client.Shown()] else table;
    }

    method HandleFade(client: ConnectedClient)
      requires Valid() && Known(client)
      modifies client
      ensures Valid() && St() == Step(old(St()), Fade(client.id))
    {
      ghost var table := Table();
      assert forall id :: id in clients && id != client.id ==> clients[id] != client;
      client.CloseSocket();
      SameIndex(table, Table());
      assert Table() == if client.id in table then table[client.id := client.Shown()] else table;
    }

    method BroadcastToRoom(roomId: nat, event: nat)
      requires Valid()
      modifies clients.Values
      ensures Valid() && St() == Step(old(St()), ToRoom(roomId, event))
    {
      ghost var table := Table();
      var rest := clients.Keys;
      while rest != {}
        invariant rest <= clients.Keys
        invariant forall id :: id in clients ==>
            clients[id].Shown() == if id in rest then table[id] else Broadcast(table, roomId, event)[id]
      {
        var id := PickOne(rest);
        if roomId in clients[id].rooms {
          clients[id].Send(Platform(event));
        }
        rest := rest - {id};
      }
      SameIndex(table, Table());
      assert Table() == Broadcast(table, roomId, event);
    }

    /** Goes through the index instead of the table. */
    method SendToUser(userId: nat, event: nat)
      requires Valid()
      modifies clients.Values
      ensures Valid() && St() == Step(old(St()), ToUser(userId, event))
    {
      hide Users, Index;
      ghost var table := Table();
      var connIds := if userId in userConnections then userConnections[userId] else {};
      Indexed(table, userId);
      var rest := connIds;
      while rest != {}
        invariant rest <= connIds
        invariant forall id :: id in clients ==>
            clients[id].Shown() == if id in rest then table[id] else Direct(table, userId, event)[id]
      {
        var id := PickOne(rest);
        if id in clients {
          clients[id].Send(Platform(event));
        }
        rest := rest - {id};
      }
      SameIndex(table, Table());
      assert Table() == Direct(table, userId, event);
    }

    /** Events from the bus go to a user if they name one, else to a room. */
    method HandlePlatformEvent(userId: Option<nat>, roomId: Option<nat>, event: nat)
      requires Valid()
      modifies clients.Values
      ensures Valid() && St() == if userId.Some? then Step(old(St()), ToUser(userId.value, event))
                                 else if roomId.Some? then Step(old(St()), ToRoom(roomId.value, event))
                                 else old(St())
    {
      if userId.Some? {
        SendToUser(userId.value, event);
      } else if roomId.Some? {
        BroadcastToRoom(roomId.value, event);
      }
    }

    method Stop()
      requires Valid()
      modifies this, clients.Values
      ensures Valid() && St() == Step(old(St()), Action.Stop)
      ensures forall id :: id in old(clients) ==> !old(clients)[id].open && Known(old(clients)[id])
    {
      var rest := clients.Keys;
      while rest != {}
        invariant rest <= clients.Keys && clients == old(clients)
        invariant nextId == old(nextId) && presence == old(presence)
        invariant forall id :: id in clients && id !in rest ==> !clients[id].open
      {
        var id := PickOne(rest);
        clients[id].CloseSocket();
        rest := rest - {id};
      }
      clients, userConnections := map[], map[];
      assert Table() == map[];
    }
  }
}
