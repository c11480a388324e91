/** The authoritative server step of serverGame.ts, as pure transitions over
    one state record: the socket's connections with their timestamps, the
    users and spectators, the entity list, the inbound queue, the outbound
    queues, and what was handed to the socket.

    Not part of this model, and standing in as parameters or contracts:
    - the socket (serverSocket.ts): `sendMessage` and `disconnect` are
      recorded as socket actions, in order; what the socket then does (its
      leave callback included) is not modelled;
    - `+new Date()`: one timestamp `now` per transition, and for the drain a
      predicate `tripped(i)` saying whether the 100 ms budget has run out when
      message `i` comes up;
    - `nextId()` (uuid.ts): the counter `nextId` in the state;
    - the random colour and the clusterer's start position: functions of the
      new entity's id (`Env`);
    - RBushXOnly: its search returns the entries whose x lies in the closed
      query range, in entity-list order;
    - GameLeaderboard: `updateScores()` is the parameter `scores`;
    - ServerPlayerEntity: its `applyInput` runs PlayerEntity.applyInput on
      the server and records the input's sequence number;
    - every entity's `serialize()` is the entity itself, and its realX is a
      field (for a player, its x);
    - every other entity's `postTick` is a parameter. */
module Server {
  import opened Wrappers
  import opened Items
  import GameConstants
  import Player
  import Messages
  import Keyed
  import Drop
  import Seqs

  // ---------------------------------------------------------------------
  // State
  // ---------------------------------------------------------------------

  /** A socket connection and the timestamps the server keeps on it;
      `spectatorJoin` stays undefined until the connection spectates. */
  datatype Connection = Connection(connectionId: int, lastAction: int, lastPing: int, spectatorJoin: Option<int>)

  datatype User = User(connectionId: int, entityId: int, name: string)

  /** What an entity is, as far as the server step can tell. */
  datatype Kind =
    | PlayerKind(player: Player.Player)
    | ShieldKind(ownerId: int, level: ShieldLevel)
    | SpectatorKind
    | OtherKind

  datatype Entity = Entity(entityId: int, kind: Kind, realX: real, markToDestroy: bool)

  /** One entry of a world state: a user's own live model, or an entity's serialization. */
  datatype Snapshot = LiveSnapshot(player: Player.Player) | EntitySnapshot(entity: Entity)

  type OutMessage = Messages.ServerToClientMessage<Player.Player, Snapshot>

  /** ClientToServerMessage. */
  datatype ClientMessage = Join(name: string) | Spectate | Ping | PlayerInput(input: Player.Input)

  datatype Queued = Queued(connectionId: int, message: ClientMessage)

  /** A call on the socket. */
  datatype SocketAction = Send(connectionId: int, messages: seq<OutMessage>) | Disconnect(connectionId: int)

  datatype State = State(
    connections: seq<Connection>,
    users: seq<User>,
    spectators: seq<int>,
    entities: seq<Entity>,
    inbox: seq<Queued>,
    outbox: map<int, seq<OutMessage>>,
    socket: seq<SocketAction>,
    board: seq<int>,
    nextId: int,
    effects: seq<Player.Effect>)

  /** Where a new player's colour and start position come from. */
  datatype Env = Env(color: int -> Player.Color, startX: int -> real)

  const ConnectionKey: Connection -> int := (c: Connection) => c.connectionId
  const UserKey: User -> int := (u: User) => u.connectionId
  const UserEntityKey: User -> int := (u: User) => u.entityId
  const EntityKey: Entity -> int := (e: Entity) => e.entityId
  const Self: int -> int := (k: int) => k

  /** Names longer than this are refused. */
  const MaxNameLength: int := 10

  /** The length JavaScript reports for a string: the number of UTF-16 code
      units, so a character outside the Basic Multilingual Plane counts two. */
  function Utf16Length(s: string): (n: nat)
    ensures |s| <= n <= 2 * |s|
    ensures n == |s| <==> forall i :: 0 <= i < |s| ==> (s[i] as int) < 0x1_0000
  {
    if |s| == 0 then 0
    else (if (s[0] as int) < 0x1_0000 then 1 else 2) + Utf16Length(s[1..])
  }

  /** realX: a player's is its x; any other entity's is kept with it. */
  function RealX(e: Entity): real {
    if e.kind.PlayerKind? then e.kind.player.x else e.realX
  }

  // ---------------------------------------------------------------------
  // Socket callbacks
  // ---------------------------------------------------------------------

  /** onJoin: an empty outbound queue for the new connection. */
  function OnJoin(s: State, cid: int): (r: State)
    ensures r.outbox == s.outbox[cid := []]
    ensures r.(outbox := s.outbox) == s
  {
    s.(outbox := s.outbox[cid := []])
  }

  /** processMessage: queue for the next drain. */
  function ProcessMessage(s: State, cid: int, m: ClientMessage): (r: State)
    ensures |r.inbox| == |s.inbox| + 1 && r.inbox[..|s.inbox|] == s.inbox && r.inbox[|s.inbox|] == Queued(cid, m)
    ensures r.(inbox := s.inbox) == s
  {
    s.(inbox := s.inbox + [Queued(cid, m)])
  }

  /** sendMessageToClient: append to the connection's queue, if it has one. */
  function SendMessageToClient(s: State, cid: int, m: OutMessage): (r: State)
    ensures cid in s.outbox <==> cid in r.outbox
    ensures cid in s.outbox ==> r.outbox[cid] == s.outbox[cid] + [m]
    ensures forall c :: c in s.outbox && c != cid ==> c in r.outbox && r.outbox[c] == s.outbox[c]
    ensures r.outbox.Keys == s.outbox.Keys
    ensures r.(outbox := s.outbox) == s
  {
    if cid in s.outbox then s.(outbox := s.outbox[cid := s.outbox[cid] + [m]]) else s
  }

  // ---------------------------------------------------------------------
  // Join / leave
  // ---------------------------------------------------------------------

  predicate NameTaken(users: seq<User>, name: string) {
    exists j :: 0 <= j < |users| && users[j].name == name
  }

  /** userLeave: no longer a spectator, the user's player dies and the user
      goes, and the outbound queue is deleted. */
  function UserLeave(s: State, cid: int): (r: State)
    ensures !Keyed.Has(r.spectators, Self, cid) && !Keyed.Has(r.users, UserKey, cid)
    ensures cid !in r.outbox
    ensures forall c :: c in s.outbox && c != cid ==> c in r.outbox && r.outbox[c] == s.outbox[c]
    ensures r.connections == s.connections && r.inbox == s.inbox && r.socket == s.socket
    ensures r.nextId == s.nextId && r.board == s.board
  {
    var s1 := s.(spectators := Keyed.Remove(s.spectators, Self, cid));
    match Keyed.Find(s1.users, UserKey, cid)
    case None => s1.(outbox := s1.outbox - {cid})
    case Some(i) =>
      var s2 := Kill(s1, s1.users[i].entityId);
      s2.(users := Keyed.Remove(s2.users, UserKey, cid), outbox := s2.outbox - {cid})
  }

  /** `user.entity.die()`. */
  function Kill(s: State, id: int): (r: State)
    ensures r.(entities := s.entities, effects := s.effects) == s
    ensures |r.entities| == |s.entities|
  {
    match Keyed.Find(s.entities, EntityKey, id)
    case Some(i) =>
      if s.entities[i].kind.PlayerKind? then
        var o := Player.Die(s.entities[i].kind.player);
        s.(entities := s.entities[i := s.entities[i].(kind := PlayerKind(o.player))], effects := s.effects + o.effects)
      else s
    case None => s
  }

  /** The new player, its shield, and the `joined` message. */
  function Admit(s: State, env: Env, rules: Player.Rules, cid: int, name: string): (r: State)
    ensures r.users == s.users + [User(cid, s.nextId, name)]
    ensures r.board == s.board + [s.nextId] && r.nextId == s.nextId + 2
    ensures |r.entities| == |s.entities| + 2 && r.entities[..|s.entities|] == s.entities
    ensures r.entities[|s.entities|].entityId == s.nextId && r.entities[|s.entities|].kind.PlayerKind?
    ensures r.entities[|s.entities| + 1] == Entity(s.nextId + 1, ShieldKind(s.nextId, Small), env.startX(s.nextId), false)
  {
    var id := s.nextId;
    var shieldId := s.nextId + 1;
    var p := Player.NewPlayer(id, env.startX(id), GameConstants.PlayerStartingY as real, rules.startingHealth, env.color(id))
      .(shieldId := Some(shieldId));
    var s1 := s.(nextId := s.nextId + 2, board := s.board + [id], users := s.users + [User(cid, id, name)],
                 entities := s.entities + [Entity(id, PlayerKind(p), p.x, false),
                                           Entity(shieldId, ShieldKind(id, Small), env.startX(id), false)]);
    SendMessageToClient(s1, cid, Messages.Joined(GameConstants.ServerVersion, p))
  }

  /** userJoin. A connection that is gone changes nothing; otherwise the
      connection's lastAction is stamped, it stops spectating, an existing
      user on it leaves, and then: a name over ten UTF-16 code units disconnects,
      a name already in use gets an error straight on the socket, and any
      other name is admitted. */
  function UserJoin(s: State, env: Env, rules: Player.Rules, now: int, cid: int, name: string): (r: State)
    ensures !Keyed.Has(s.connections, ConnectionKey, cid) ==> r == s
  {
    match Keyed.Find(s.connections, ConnectionKey, cid)
    case None => s
    case Some(ci) =>
      var s1 := s.(connections := s.connections[ci := s.connections[ci].(lastAction := now)],
                   spectators := Keyed.Remove(s.spectators, Self, cid));
      var s2 := if Keyed.Has(s1.users, UserKey, cid) then UserLeave(s1, cid) else s1;
      if Utf16Length(name) > MaxNameLength then s2.(socket := s2.socket + [Disconnect(cid)])
      else if NameTaken(s2.users, name) then s2.(socket := s2.socket + [Send(cid, [Messages.Error(Messages.NameInUse)])])
      else Admit(s2, env, rules, cid, name)
  }

  /** spectatorJoin: push the spectator, stamp the connection, queue `spectating`. */
  function SpectatorJoin(s: State, now: int, cid: int): (r: State)
    ensures r.spectators == s.spectators + [cid]
    ensures r.users == s.users && r.entities == s.entities && r.socket == s.socket
  {
    var s1 := s.(spectators := s.spectators + [cid]);
    var s2 := match Keyed.Find(s1.connections, ConnectionKey, cid)
      case Some(ci) => s1.(connections := s1.connections[ci := s1.connections[ci].(spectatorJoin := Some(now))])
      case None => s1;
    SendMessageToClient(s2, cid, Messages.Spectating(GameConstants.ServerVersion))
  }

  // ---------------------------------------------------------------------
  // processInputs
  // ---------------------------------------------------------------------

  /** ServerPlayerEntity.applyInput. */
  function ServerApplyInput(rules: Player.Rules, p: Player.Player, input: Player.Input): (r: Player.Outcome)
    ensures r.player.lastProcessed == input.sequenceNumber
    ensures r.player.aliveTick == p.aliveTick + 1 && r.player.lastInput == Some(input.keys)
    ensures r.player.entityId == p.entityId
  {
    var o := Player.ApplyInput(rules, true, p, input);
    Player.Outcome(o.player.(lastProcessed := input.sequenceNumber), o.effects)
  }

  /** Apply an input to the player entity with this id, if there is one. */
  function ApplyTo(s: State, rules: Player.Rules, id: int, input: Player.Input): (r: State)
    ensures r.(entities := s.entities, effects := s.effects) == s
    ensures |r.entities| == |s.entities|
    ensures forall j :: 0 <= j < |s.entities| ==> r.entities[j].entityId == s.entities[j].entityId
    ensures forall j :: 0 <= j < |s.entities| && s.entities[j].entityId != id ==> r.entities[j] == s.entities[j]
  {
    match Keyed.Find(s.entities, EntityKey, id)
    case Some(i) =>
      if s.entities[i].kind.PlayerKind? then
        var o := ServerApplyInput(rules, s.entities[i].kind.player, input);
        s.(entities := s.entities[i := s.entities[i].(kind := PlayerKind(o.player))], effects := s.effects + o.effects)
      else s
    case None => s
  }

  const NoKeys: Player.Keys := Player.Keys(false, false, false, false, false)

  /** The input a silent user's player gets: no keys, the next sequence
      number, the weapon it holds. */
  function NoInput(p: Player.Player): Player.Input {
    Player.Input(NoKeys, p.lastProcessed + 1, Some(p.selected))
  }

  /** The state the drain carries: the server and the ids still owed an input. */
  datatype Drained = Drained(state: State, pending: seq<int>)

  /** One queued message. */
  function Handle(d: Drained, env: Env, rules: Player.Rules, now: int, q: Queued): (r: Drained)
    ensures q.message.PlayerInput? ==> forall id :: id in r.pending ==> id in d.pending
    ensures !q.message.PlayerInput? ==> r.pending == d.pending
  {
    var s := d.state;
    match q.message
    case Join(name) => Drained(UserJoin(s, env, rules, now, q.connectionId, name), d.pending)
    case Spectate => Drained(SpectatorJoin(s, now, q.connectionId), d.pending)
    case Ping =>
      (match Keyed.Find(s.connections, ConnectionKey, q.connectionId)
       case Some(ci) => Drained(s.(connections := s.connections[ci := s.connections[ci].(lastPing := now)]), d.pending)
       case None => d)
    case PlayerInput(input) =>
      (match (Keyed.Find(s.users, UserKey, q.connectionId), Keyed.Find(s.connections, ConnectionKey, q.connectionId))
       case (Some(ui), Some(ci)) =>
         var id := s.users[ui].entityId;
         var s1 := s.(connections := s.connections[ci := s.connections[ci].(lastAction := now)]);
         Drained(ApplyTo(s1, rules, id, input), Keyed.Remove(d.pending, Self, id))
       case _ => d)
  }

  /** The messages in order, from the left. */
  function DrainAll(d: Drained, env: Env, rules: Player.Rules, now: int, qs: seq<Queued>): Drained
    decreases |qs|
  {
    if |qs| == 0 then d
    else Handle(DrainAll(d, env, rules, now, qs[..|qs| - 1]), env, rules, now, qs[|qs| - 1])
  }

  lemma DrainPrefix(d: Drained, env: Env, rules: Player.Rules, now: int, qs: seq<Queued>, i: nat)
    requires i < |qs|
    ensures DrainAll(d, env, rules, now, qs[..i + 1]) == Handle(DrainAll(d, env, rules, now, qs[..i]), env, rules, now, qs[i])
  {
    assert qs[..i + 1][..i] == qs[..i];
  }

  /** One turn of the drain loop, kept apart so that the loop does not see
      the handlers' definitions. */
  method DrainStep(start: Drained, env: Env, rules: Player.Rules, now: int, qs: seq<Queued>, i: nat, d: Drained)
    returns (d': Drained)
    requires i < |qs| && d == DrainAll(start, env, rules, now, qs[..i])
    ensures d' == DrainAll(start, env, rules, now, qs[..i + 1])
  {
    DrainPrefix(start, env, rules, now, qs, i);
    d' := Handle(d, env, rules, now, qs[i]);
  }

  /** The loop over `noInputThisTick`. */
  function Synthesize(s: State, rules: Player.Rules, ids: seq<int>): State
    decreases |ids|
  {
    if |ids| == 0 then s
    else
      var s1 := match Keyed.Find(s.entities, EntityKey, ids[0])
        case Some(i) =>
          if s.entities[i].kind.PlayerKind? then ApplyTo(s, rules, ids[0], NoInput(s.entities[i].kind.player)) else s
        case None => s;
      Synthesize(s1, rules, ids[1..])
  }

  /** The first message the budget stops at, or the queue length. */
  function FirstTrip(tripped: nat -> bool, n: nat): (k: nat)
    ensures k <= n
    ensures forall j :: 0 <= j < k ==> !tripped(j)
    ensures k < n ==> tripped(k)
  {
    if n == 0 then 0
    else
      var k := FirstTrip(tripped, n - 1);
      if k < n - 1 then k else if tripped(n - 1) then n - 1 else n
  }

  /** The budget check stops at the first message it trips on. */
  lemma FirstTripAt(tripped: nat -> bool, n: nat, i: nat)
    requires i <= n && FirstTrip(tripped, i) == i && (i == n || tripped(i))
    ensures FirstTrip(tripped, n) == i
  {
  }

  /** processInputs: drain the queue until the budget trips, keep what is
      left, then give every user who was there at the start and sent no input
      the no-key input. */
  method ProcessInputs(s: State, env: Env, rules: Player.Rules, now: int, tripped: nat -> bool)
    returns (r: State, stoppedAt: nat)
    ensures stoppedAt == FirstTrip(tripped, |s.inbox|)
    ensures r.inbox == s.inbox[stoppedAt..]
    ensures var d := DrainAll(Drained(s, Seqs.Map(s.users, UserEntityKey)), env, rules, now, s.inbox[..stoppedAt]);
      r == Synthesize(d.state, rules, d.pending).(inbox := s.inbox[stoppedAt..])
  {
    var start := Drained(s, Seqs.Map(s.users, UserEntityKey));
    var d := start;
    var i: nat := 0;
    while i < |s.inbox| && !tripped(i)
      invariant 0 <= i <= |s.inbox|
      invariant FirstTrip(tripped, i) == i
      invariant d == DrainAll(start, env, rules, now, s.inbox[..i])
    {
      d := DrainStep(start, env, rules, now, s.inbox, i, d);
      i := i + 1;
    }
    FirstTripAt(tripped, |s.inbox|, i);
    stoppedAt := i;
    var synthesized := Synthesize(d.state, rules, d.pending);
    r := synthesized.(inbox := s.inbox[i..]);
  }

  // ---------------------------------------------------------------------
  // World state
  // ---------------------------------------------------------------------

  const Half: real := GameConstants.HalfScreenRange as real

  predicate InView(x: real, center: real) {
    center - Half <= x <= center + Half
  }

  /** The bush search around `center`, without the user's own entity. */
  function Nearby(es: seq<Entity>, ownId: int, center: real): (r: seq<Snapshot>)
    ensures |r| <= |es|
    ensures forall j :: 0 <= j < |r| ==> r[j].EntitySnapshot? && r[j].entity in es
  {
    if |es| == 0 then []
    else
      (if InView(RealX(es[0]), center) && es[0].entityId != ownId then [EntitySnapshot(es[0])] else [])
      + Nearby(es[1..], ownId, center)
  }

  /** One user's world state: their own live model first, then the nearby entities. */
  function WorldFor(es: seq<Entity>, p: Player.Player): (r: seq<Snapshot>)
    ensures |r| >= 1 && r[0] == LiveSnapshot(p)
  {
    [LiveSnapshot(p)] + Nearby(es, p.entityId, p.x)
  }

  /** The player entity of a user, when it is there. */
  function PlayerOf(es: seq<Entity>, id: int): Option<Player.Player> {
    match Keyed.Find(es, EntityKey, id)
    case Some(i) => if es[i].kind.PlayerKind? then Some(es[i].kind.player) else None
    case None => None
  }

  function SendWorldTo(s: State, us: seq<User>): (r: State)
    ensures r.(outbox := s.outbox) == s
    ensures r.outbox.Keys == s.outbox.Keys
    decreases |us|
  {
    if |us| == 0 then s
    else
      var s1 := match PlayerOf(s.entities, us[0].entityId)
        case Some(p) => SendMessageToClient(s, us[0].connectionId, Messages.WorldState(WorldFor(s.entities, p)))
        case None => s;
      SendWorldTo(s1, us[1..])
  }

  /** sendWorldState. */
  function SendWorldState(s: State): (r: State)
    ensures r.(outbox := s.outbox) == s
  {
    if |s.users| == 0 then s else SendWorldTo(s, s.users)
  }

  /** The first spectator entity. */
  function SpectatorEntity(es: seq<Entity>): (r: Option<Entity>)
    ensures r.Some? ==> r.value in es && r.value.kind.SpectatorKind?
    ensures r.None? ==> forall j :: 0 <= j < |es| ==> !es[j].kind.SpectatorKind?
  {
    if |es| == 0 then None
    else if es[0].kind.SpectatorKind? then Some(es[0])
    else SpectatorEntity(es[1..])
  }

  /** The entities whose realX lies in the closed box. */
  function InBox(es: seq<Entity>, center: real): (r: seq<Snapshot>)
    ensures |r| <= |es|
  {
    if |es| == 0 then []
    else (if InView(RealX(es[0]), center) then [EntitySnapshot(es[0])] else []) + InBox(es[1..], center)
  }

  function Broadcast(cids: seq<int>, m: OutMessage): (r: seq<SocketAction>)
    ensures |r| == |cids| && forall j :: 0 <= j < |cids| ==> r[j] == Send(cids[j], [m])
  {
    if |cids| == 0 then [] else [Send(cids[0], [m])] + Broadcast(cids[1..], m)
  }

  /** sendSpectatorWorldState: the same world state to every spectator,
      straight on the socket. */
  function SendSpectatorWorldState(s: State): (r: State)
    ensures r.(socket := s.socket) == s
    ensures SpectatorEntity(s.entities).None? ==> r == s
  {
    match SpectatorEntity(s.entities)
    case None => s
    case Some(sp) =>
      s.(socket := s.socket + Broadcast(s.spectators, Messages.WorldState(InBox(s.entities, RealX(sp)))))
  }

  // ---------------------------------------------------------------------
  // Leaderboard
  // ---------------------------------------------------------------------

  function NameOf(users: seq<User>, entityId: int): string {
    match Keyed.Find(users, UserEntityKey, entityId)
    case Some(i) => users[i].name
    case None => ""
  }

  /** The scores with each username filled in from the users ("" if none). */
  function Named(scores: seq<Messages.ScoreRow>, users: seq<User>): (r: seq<Messages.ScoreRow>)
    ensures |r| == |scores|
    ensures forall j :: 0 <= j < |scores| ==> r[j] == scores[j].(username := NameOf(users, scores[j].userId))
  {
    if |scores| == 0 then []
    else [scores[0].(username := NameOf(users, scores[0].userId))] + Named(scores[1..], users)
  }

  function TopTen(rows: seq<Messages.ScoreRow>): (r: seq<Messages.ScoreRow>)
    ensures |r| == if |rows| < 10 then |rows| else 10
  {
    if |rows| <= 10 then rows else rows[..10]
  }

  function FindRow(rows: seq<Messages.ScoreRow>, id: int): Option<nat> {
    Keyed.Find(rows, (row: Messages.ScoreRow) => row.userId, id)
  }

  /** The rows one user is sent: the top ten when they are in it, the top ten
      and their own row when they are further down, nothing when they have
      no row. */
  function BoardFor(rows: seq<Messages.ScoreRow>, id: int): Option<seq<Messages.ScoreRow>> {
    var top := TopTen(rows);
    if FindRow(top, id).Some? then Some(top)
    else match FindRow(rows, id)
      case Some(i) => Some(top + [rows[i]])
      case None => None
  }

  function SendBoardTo(s: State, rows: seq<Messages.ScoreRow>, us: seq<User>): (r: State)
    ensures r.(outbox := s.outbox) == s
    decreases |us|
  {
    if |us| == 0 then s
    else
      var s1 := match BoardFor(rows, us[0].entityId)
        case Some(b) => SendMessageToClient(s, us[0].connectionId, Messages.Leaderboard(b))
        case None => s;
      SendBoardTo(s1, rows, us[1..])
  }

  /** sendLeaderboard, with `scores` the leaderboard's ranking. */
  function SendLeaderboard(s: State, scores: seq<Messages.ScoreRow>): (r: State)
    ensures |s.users| == 0 && |s.spectators| == 0 ==> r == s
    ensures r.(outbox := s.outbox, socket := s.socket) == s
  {
    if |s.users| == 0 && |s.spectators| == 0 then s
    else
      var rows := Named(scores, s.users);
      var s1 := SendBoardTo(s, rows, s.users);
      s1.(socket := s1.socket + Broadcast(s1.spectators, Messages.Leaderboard(TopTen(rows))))
  }

  // ---------------------------------------------------------------------
  // Flushing the outbound queues
  // ---------------------------------------------------------------------

  /** Hand each listed connection's non-empty queue to the socket and empty it. */
  function Flush(s: State, cids: seq<int>): (r: State)
    ensures r.(outbox := s.outbox, socket := s.socket) == s
    ensures r.outbox.Keys == s.outbox.Keys
    ensures forall c :: c in cids && c in r.outbox ==> r.outbox[c] == []
    ensures forall c :: c in s.outbox && c !in cids ==> r.outbox[c] == s.outbox[c]
    ensures forall c :: c in r.outbox ==> r.outbox[c] == [] || r.outbox[c] == s.outbox[c]
    decreases |cids|
  {
    if |cids| == 0 then s
    else
      var c := cids[0];
      var s1 := if c in s.outbox && |s.outbox[c]| > 0
        then s.(socket := s.socket + [Send(c, s.outbox[c])], outbox := s.outbox[c := []])
        else s;
      Flush(s1, cids[1..])
  }

  // ---------------------------------------------------------------------
  // End of tick
  // ---------------------------------------------------------------------

  /** The entities left after the end of the tick, each post-ticked, in order. */
  function Survivors(es: seq<Entity>, post: Entity -> Entity): (r: seq<Entity>)
    ensures |r| <= |es|
  {
    if |es| == 0 then []
    else (if es[0].markToDestroy then [] else [post(es[0])]) + Survivors(es[1..], post)
  }

  /** postTick: the player's rules for a player, `other` for anything else. */
  function PostTickWith(rules: Player.Rules, other: Entity -> Entity): Entity -> Entity {
    (e: Entity) => if e.kind.PlayerKind? then e.(kind := PlayerKind(Player.PostTick(rules, e.kind.player).player)) else other(e)
  }

  /** The loop at the end of serverTick, from the last entity to the first:
      remove the marked ones, post-tick the others. */
  method EndOfTick(es: seq<Entity>, post: Entity -> Entity) returns (r: seq<Entity>)
    ensures r == Survivors(es, post)
  {
    r := [];
    var i := |es|;
    while i > 0
      invariant 0 <= i <= |es|
      invariant r == Survivors(es[i..], post)
    {
      i := i - 1;
      assert es[i..][1..] == es[i + 1..];
      if !es[i].markToDestroy {
        r := [post(es[i])] + r;
      }
    }
  }

  // ---------------------------------------------------------------------
  // Timeout sweep
  // ---------------------------------------------------------------------

  /** The sweep's decision for one connection, in the order the code checks. */
  predicate Expired(s: State, c: Connection, now: int) {
    if Keyed.Has(s.users, UserKey, c.connectionId) && c.lastAction + GameConstants.LastActionTimeout < now then true
    else if Keyed.Has(s.spectators, Self, c.connectionId) && c.spectatorJoin.Some?
            && c.spectatorJoin.value + GameConstants.TotalSpectatorDuration < now then true
    else c.lastPing + GameConstants.LastPingTimeout < now
  }

  /** The connections the sweep disconnects among `cs`, from the last to the first. */
  function SweepOrder(s: State, cs: seq<Connection>, now: int): (r: seq<int>)
    ensures |r| <= |cs|
    decreases |cs|
  {
    if |cs| == 0 then []
    else
      var c := cs[|cs| - 1];
      (if Expired(s, c, now) then [c.connectionId] else []) + SweepOrder(s, cs[..|cs| - 1], now)
  }

  /** The timeout sweep at the end of serverTick. */
  method Sweep(s: State, now: int) returns (r: State)
    ensures r == s.(socket := s.socket + Disconnects(SweepOrder(s, s.connections, now)))
  {
    var cut: seq<int> := [];
    var i := |s.connections|;
    assert s.connections[..i] == s.connections;
    while i > 0
      invariant 0 <= i <= |s.connections|
      invariant cut + SweepOrder(s, s.connections[..i], now) == SweepOrder(s, s.connections, now)
    {
      i := i - 1;
      var c := s.connections[i];
      var here := if Expired(s, c, now) then [c.connectionId] else [];
      SweepPrefix(s, s.connections, i, now);
      Seqs.Assoc(cut, here, SweepOrder(s, s.connections[..i], now));
      cut := cut + here;
    }
    assert s.connections[..0] == [];
    r := s.(socket := s.socket + Disconnects(cut));
  }

  lemma SweepPrefix(s: State, cs: seq<Connection>, i: nat, now: int)
    requires i < |cs|
    ensures SweepOrder(s, cs[..i + 1], now)
         == (if Expired(s, cs[i], now) then [cs[i].connectionId] else []) + SweepOrder(s, cs[..i], now)
  {
    assert cs[..i + 1][..i] == cs[..i];
  }

  function Disconnects(cids: seq<int>): (r: seq<SocketAction>)
    ensures |r| == |cids| && forall j :: 0 <= j < |cids| ==> r[j] == Disconnect(cids[j])
  {
    if |cids| == 0 then [] else [Disconnect(cids[0])] + Disconnects(cids[1..])
  }

  // ---------------------------------------------------------------------
  // Spawning and the tick timer
  // ---------------------------------------------------------------------

  function Min(a: int, b: int): int { if a < b then a else b }
  function Max(a: int, b: int): int { if a < b then b else a }

  /** The swooping enemies a grouping should hold: 1.5 per player, rounded
      up, for at most four players. */
  function EnemyTarget(players: nat): int {
    Drop.Ceiling(Min(players, 4) as real * 1.5)
  }

  /** How many enemies a grouping with these counts gets this tick. */
  function SpawnCount(players: nat, enemies: nat): (r: nat)
    ensures enemies + r >= EnemyTarget(players)
    ensures r > 0 ==> enemies + r == EnemyTarget(players)
  {
    if enemies < EnemyTarget(players) then EnemyTarget(players) - enemies else 0
  }

  /** The delay before the next tick: what is left of the tick rate after
      this tick's work, at least 1 ms and at most the tick rate. */
  function NextTickDelay(tickTime: int): (r: int)
    ensures 1 <= r <= GameConstants.ServerTickRate
  {
    Max(Min(GameConstants.ServerTickRate, GameConstants.ServerTickRate - tickTime), 1)
  }

  // ---------------------------------------------------------------------
  // The end of serverTick
  // ---------------------------------------------------------------------

  /** serverTick after the entities have moved and collided: the leaderboard
      every tenth tick, world states and the users' queues, the spectators'
      world state and queues, removal and postTick, and the timeout sweep. */
  method FinishTick(s: State, rules: Player.Rules, other: Entity -> Entity, scores: seq<Messages.ScoreRow>,
                    tickIndex: int, now: int)
    returns (r: State)
    ensures r.users == s.users && r.spectators == s.spectators && r.connections == s.connections
    ensures r.entities == Survivors(s.entities, PostTickWith(rules, other))
  {
    var s1 := if tickIndex % 10 == 0 then SendLeaderboard(s, scores) else s;
    var s2 := SendWorldState(s1);
    var s3 := Flush(s2, Seqs.Map(s2.users, UserKey));
    var s4 := SendSpectatorWorldState(s3);
    var s5 := Flush(s4, s4.spectators);
    var kept := EndOfTick(s5.entities, PostTickWith(rules, other));
    r := Sweep(s5.(entities := kept), now);
  }
}
