/** What the server step promises: the outcomes of a join and a leave, the
    interest filter of the world states, the leaderboard each user sees, the
    end-of-tick removal, the timeout sweep, the spawn count, and that the
    drain gives each silent user exactly one no-key input. */
module ServerProofs {
  import opened Wrappers
  import opened Items
  import GameConstants
  import Player
  import Messages
  import Keyed
  import Seqs
  import Drop
  import opened Server

  // ---------------------------------------------------------------------
  // Invariant
  // ---------------------------------------------------------------------

  /** One user per connection, one entity per id, no two users with the same
      name, and every id handed out below the counter. */
  predicate Consistent(s: State) {
    && Keyed.UniqueKeys(s.users, UserKey)
    && Keyed.UniqueKeys(s.entities, EntityKey)
    && (forall i, j :: 0 <= i < j < |s.users| ==> s.users[i].name != s.users[j].name)
    && (forall j :: 0 <= j < |s.entities| ==> s.entities[j].entityId < s.nextId)
  }

  lemma {:induction false} RemoveKeepsUnique<T>(xs: seq<T>, key: T -> int, k: int)
    requires Keyed.UniqueKeys(xs, key)
    ensures Keyed.UniqueKeys(Keyed.Remove(xs, key, k), key)
    ensures forall j :: 0 <= j < |Keyed.Remove(xs, key, k)| ==> Keyed.Remove(xs, key, k)[j] in xs
    decreases |xs|
  {
    if |xs| > 0 {
      RemoveKeepsUnique(xs[1..], key, k);
      var tail := Keyed.Remove(xs[1..], key, k);
      if key(xs[0]) != k {
        var r := [xs[0]] + tail;
        forall i, j | 0 <= i < j < |r|
          ensures key(r[i]) != key(r[j])
        {
          if i == 0 {
            assert r[j] == tail[j - 1] && tail[j - 1] in xs[1..];
            var m :| 0 <= m < |xs[1..]| && xs[1..][m] == tail[j - 1];
            assert xs[m + 1] == r[j];
          } else {
            assert r[i] == tail[i - 1] && r[j] == tail[j - 1];
          }
        }
      }
    }
  }

  /** Kill touches one player's state and no entity's id. */
  lemma KillKeepsIds(s: State, id: int)
    ensures forall j :: 0 <= j < |s.entities| ==> Kill(s, id).entities[j].entityId == s.entities[j].entityId
  {
  }

  lemma LeaveKeepsConsistent(s: State, cid: int)
    requires Consistent(s)
    ensures Consistent(UserLeave(s, cid))
  {
    var s1 := s.(spectators := Keyed.Remove(s.spectators, Self, cid));
    match Keyed.Find(s1.users, UserKey, cid)
    case None =>
    case Some(i) =>
      var s2 := Kill(s1, s1.users[i].entityId);
      KillKeepsIds(s1, s1.users[i].entityId);
      RemoveKeepsUnique(s2.users, UserKey, cid);
      var us := Keyed.Remove(s2.users, UserKey, cid);
      forall a, b | 0 <= a < b < |us|
        ensures us[a].name != us[b].name
      {
        assert us[a] in s.users && us[b] in s.users;
        var x :| 0 <= x < |s.users| && s.users[x] == us[a];
        var y :| 0 <= y < |s.users| && s.users[y] == us[b];
        assert x != y;
      }
  }

  // ---------------------------------------------------------------------
  // Join and leave
  // ---------------------------------------------------------------------

  /** A join from a connection the socket no longer has changes nothing. */
  lemma JoinWithoutConnection(s: State, env: Env, rules: Player.Rules, now: int, cid: int, name: string)
    requires !Keyed.Has(s.connections, ConnectionKey, cid)
    ensures UserJoin(s, env, rules, now, cid, name) == s
  {
  }

  /** A name over ten UTF-16 code units ends with the connection being dropped:
      no user, player or message is added. */
  lemma LongNameDisconnects(s: State, env: Env, rules: Player.Rules, now: int, cid: int, name: string)
    requires Keyed.Has(s.connections, ConnectionKey, cid) && !Keyed.Has(s.users, UserKey, cid)
    requires Utf16Length(name) > MaxNameLength
    ensures var r := UserJoin(s, env, rules, now, cid, name);
      && r.socket == s.socket + [Disconnect(cid)]
      && r.users == s.users && r.entities == s.entities && r.outbox == s.outbox
      && r.nextId == s.nextId && r.board == s.board
  {
  }

  /** A name made only of characters outside the Basic Multilingual Plane is
      twice as long to JavaScript as it has characters. */
  lemma {:induction false} AstralLengthDoubles(name: string)
    requires forall i :: 0 <= i < |name| ==> (name[i] as int) >= 0x1_0000
    ensures Utf16Length(name) == 2 * |name|
  {
    if |name| > 0 {
      assert forall i :: 0 <= i < |name[1..]| ==> name[1..][i] == name[i + 1];
      AstralLengthDoubles(name[1..]);
    }
  }

  /** So six emoji are already too long a name: the connection is dropped
      although the name has only six characters. */
  lemma AstralNameDisconnects(s: State, env: Env, rules: Player.Rules, now: int, cid: int, name: string)
    requires Keyed.Has(s.connections, ConnectionKey, cid) && !Keyed.Has(s.users, UserKey, cid)
    requires 6 <= |name| && forall i :: 0 <= i < |name| ==> (name[i] as int) >= 0x1_0000
    ensures UserJoin(s, env, rules, now, cid, name).socket == s.socket + [Disconnect(cid)]
    ensures UserJoin(s, env, rules, now, cid, name).users == s.users
  {
    AstralLengthDoubles(name);
    LongNameDisconnects(s, env, rules, now, cid, name);
  }

  /** A name another user holds gets one `nameInUse` error straight on the
      socket, and adds no user, entity or queued message. */
  lemma NameInUseRejected(s: State, env: Env, rules: Player.Rules, now: int, cid: int, name: string)
    requires Keyed.Has(s.connections, ConnectionKey, cid) && !Keyed.Has(s.users, UserKey, cid)
    requires Utf16Length(name) <= MaxNameLength && NameTaken(s.users, name)
    ensures var r := UserJoin(s, env, rules, now, cid, name);
      && r.socket == s.socket + [Send(cid, [Messages.Error(Messages.NameInUse)])]
      && r.users == s.users && r.entities == s.entities && r.outbox == s.outbox
      && r.nextId == s.nextId && r.board == s.board
  {
  }

  /** A successful join: the connection stops spectating, exactly one user
      is added, with one player entity and one shield entity, a leaderboard
      entry, and one queued `joined` message carrying the server version. */
  lemma JoinAdmits(s: State, env: Env, rules: Player.Rules, now: int, cid: int, name: string)
    requires Keyed.Has(s.connections, ConnectionKey, cid) && !Keyed.Has(s.users, UserKey, cid)
    requires Utf16Length(name) <= MaxNameLength && !NameTaken(s.users, name)
    ensures var r := UserJoin(s, env, rules, now, cid, name);
      && r.users == s.users + [User(cid, s.nextId, name)]
      && !Keyed.Has(r.spectators, Self, cid)
      && |r.entities| == |s.entities| + 2 && r.entities[..|s.entities|] == s.entities
      && r.entities[|s.entities|].kind.PlayerKind? && r.entities[|s.entities|].entityId == s.nextId
      && r.entities[|s.entities| + 1].kind == ShieldKind(s.nextId, Small)
      && r.board == s.board + [s.nextId]
      && r.socket == s.socket
      && (cid in s.outbox ==>
            cid in r.outbox && |r.outbox[cid]| == |s.outbox[cid]| + 1 && r.outbox[cid][..|s.outbox[cid]|] == s.outbox[cid]
            && r.outbox[cid][|s.outbox[cid]|].Joined?
            && r.outbox[cid][|s.outbox[cid]|].serverVersion == GameConstants.ServerVersion)
  {
  }

  /** Joining again on a connection that already plays: the old player
      leaves, the new one is admitted, but the `joined` message is lost,
      because the leave deleted the connection's outbound queue. */
  lemma RejoinLosesJoined(s: State, env: Env, rules: Player.Rules, now: int, cid: int, name: string)
    requires Keyed.Has(s.connections, ConnectionKey, cid) && Keyed.Has(s.users, UserKey, cid)
    requires Utf16Length(name) <= MaxNameLength
    requires var left := UserLeave(s, cid); !NameTaken(left.users, name)
    ensures var r := UserJoin(s, env, rules, now, cid, name);
      && Keyed.Has(r.users, UserKey, cid)
      && cid !in r.outbox
  {
    var r := UserJoin(s, env, rules, now, cid, name);
    var ci := Keyed.Find(s.connections, ConnectionKey, cid).value;
    var s1 := s.(connections := s.connections[ci := s.connections[ci].(lastAction := now)],
                 spectators := Keyed.Remove(s.spectators, Self, cid));
    assert Keyed.Has(s1.users, UserKey, cid);
    var s2 := UserLeave(s1, cid);
    assert s2.users == UserLeave(s, cid).users;
    assert r == Admit(s2, env, rules, cid, name);
    assert r.users[|r.users| - 1].connectionId == cid;
    assert Keyed.Find(r.users, UserKey, cid).Some?;
  }

  /** Joining keeps the state consistent. */
  lemma JoinKeepsConsistent(s: State, env: Env, rules: Player.Rules, now: int, cid: int, name: string)
    requires Consistent(s)
    ensures Consistent(UserJoin(s, env, rules, now, cid, name))
  {
    match Keyed.Find(s.connections, ConnectionKey, cid)
    case None =>
    case Some(ci) =>
      var s1 := s.(connections := s.connections[ci := s.connections[ci].(lastAction := now)],
                   spectators := Keyed.Remove(s.spectators, Self, cid));
      var s2 := if Keyed.Has(s1.users, UserKey, cid) then UserLeave(s1, cid) else s1;
      if Keyed.Has(s1.users, UserKey, cid) {
        LeaveKeepsConsistent(s1, cid);
      }
      if Utf16Length(name) <= MaxNameLength && !NameTaken(s2.users, name) {
        AdmitKeepsConsistent(s2, env, rules, cid, name);
      }
  }

  lemma AdmitKeepsConsistent(s: State, env: Env, rules: Player.Rules, cid: int, name: string)
    requires Consistent(s) && !Keyed.Has(s.users, UserKey, cid) && !NameTaken(s.users, name)
    ensures Consistent(Admit(s, env, rules, cid, name))
  {
    var r := Admit(s, env, rules, cid, name);
    var n := |s.entities|;
    forall i, j | 0 <= i < j < |r.entities|
      ensures r.entities[i].entityId != r.entities[j].entityId
    {
      if j < n {
        assert r.entities[i] == s.entities[i] && r.entities[j] == s.entities[j];
      } else if i < n {
        assert r.entities[i] == s.entities[i];
      }
    }
    forall i, j | 0 <= i < j < |r.users|
      ensures r.users[i].connectionId != r.users[j].connectionId && r.users[i].name != r.users[j].name
    {
      if j == |s.users| {
        assert r.users[i] == s.users[i];
      }
    }
    forall j | 0 <= j < |r.entities|
      ensures r.entities[j].entityId < r.nextId
    {
      if j < n {
        assert r.entities[j] == s.entities[j];
      }
    }
  }

  /** Leaving: the connection is neither a user nor a spectator, its queue is
      gone, and its player is dead. */
  lemma LeaveKillsPlayer(s: State, cid: int, i: nat, k: nat)
    requires Consistent(s)
    requires i < |s.users| && s.users[i].connectionId == cid
    requires k < |s.entities| && s.entities[k].entityId == s.users[i].entityId && s.entities[k].kind.PlayerKind?
    ensures var r := UserLeave(s, cid);
      && !Keyed.Has(r.users, UserKey, cid) && !Keyed.Has(r.spectators, Self, cid) && cid !in r.outbox
      && r.entities[k].kind.PlayerKind? && r.entities[k].kind.player.dead && r.entities[k].kind.player.health == 0
  {
    var s1 := s.(spectators := Keyed.Remove(s.spectators, Self, cid));
    var ui := Keyed.Find(s1.users, UserKey, cid).value;
    assert ui == i;
    var ek := Keyed.Find(s1.entities, EntityKey, s.users[i].entityId).value;
    assert ek == k;
  }

  // ---------------------------------------------------------------------
  // processInputs
  // ---------------------------------------------------------------------

  /** The drain only ever removes ids from the list still owed an input. */
  lemma {:induction false} DrainOnlyRemoves(d: Drained, env: Env, rules: Player.Rules, now: int, qs: seq<Queued>)
    ensures forall id :: id in DrainAll(d, env, rules, now, qs).pending ==> id in d.pending
    ensures Keyed.UniqueKeys(d.pending, Self) ==> Keyed.UniqueKeys(DrainAll(d, env, rules, now, qs).pending, Self)
    decreases |qs|
  {
    if |qs| > 0 {
      var before := DrainAll(d, env, rules, now, qs[..|qs| - 1]);
      DrainOnlyRemoves(d, env, rules, now, qs[..|qs| - 1]);
      if qs[|qs| - 1].message.PlayerInput? && Keyed.UniqueKeys(d.pending, Self) {
        var after := Handle(before, env, rules, now, qs[|qs| - 1]);
        if after.pending != before.pending {
          var id :| after.pending == Keyed.Remove(before.pending, Self, id);
          RemoveKeepsUnique(before.pending, Self, id);
        }
      }
    }
  }

  /** A queue without player inputs leaves everyone owed an input. */
  lemma {:induction false} NoInputsKeepPending(d: Drained, env: Env, rules: Player.Rules, now: int, qs: seq<Queued>)
    requires forall k :: 0 <= k < |qs| ==> !qs[k].message.PlayerInput?
    ensures DrainAll(d, env, rules, now, qs).pending == d.pending
    decreases |qs|
  {
    if |qs| > 0 {
      NoInputsKeepPending(d, env, rules, now, qs[..|qs| - 1]);
    }
  }

  /** Draining two queues one after the other is draining their concatenation. */
  lemma {:induction false} DrainAppend(d: Drained, env: Env, rules: Player.Rules, now: int, a: seq<Queued>, b: seq<Queued>)
    ensures DrainAll(d, env, rules, now, a + b) == DrainAll(DrainAll(d, env, rules, now, a), env, rules, now, b)
    decreases |b|
  {
    if |b| == 0 {
      assert a + b == a;
    } else {
      var b' := b[..|b| - 1];
      DrainAppend(d, env, rules, now, a, b');
      assert (a + b)[..|a + b| - 1] == a + b' && (a + b)[|a + b| - 1] == b[|b| - 1];
    }
  }

  /** An input from a connection that is a user when it is handled takes
      that user's player off the list for the rest of the drain. */
  lemma InputServes(d: Drained, env: Env, rules: Player.Rules, now: int, qs: seq<Queued>, k: nat, ui: nat)
    requires k < |qs| && qs[k].message.PlayerInput?
    requires var before := DrainAll(d, env, rules, now, qs[..k]).state;
      && Keyed.Find(before.users, UserKey, qs[k].connectionId) == Some(ui)
      && Keyed.Has(before.connections, ConnectionKey, qs[k].connectionId)
    ensures DrainAll(d, env, rules, now, qs[..k]).state.users[ui].entityId !in DrainAll(d, env, rules, now, qs).pending
  {
    var before := DrainAll(d, env, rules, now, qs[..k]);
    DrainPrefix(d, env, rules, now, qs, k);
    HandleInput(before, env, rules, now, qs[k], ui);
    OffListStays(d, env, rules, now, qs, k + 1, before.state.users[ui].entityId);
  }

  /** An id off the list after the first `n` messages stays off it to the end. */
  lemma OffListStays(d: Drained, env: Env, rules: Player.Rules, now: int, qs: seq<Queued>, n: nat, id: int)
    requires n <= |qs| && id !in DrainAll(d, env, rules, now, qs[..n]).pending
    ensures id !in DrainAll(d, env, rules, now, qs).pending
  {
    var head, tail := qs[..n], qs[n..];
    assert head + tail == qs;
    DrainAppend(d, env, rules, now, head, tail);
    DrainOnlyRemoves(DrainAll(d, env, rules, now, head), env, rules, now, tail);
  }

  lemma HandleInput(d: Drained, env: Env, rules: Player.Rules, now: int, q: Queued, ui: nat)
    requires q.message.PlayerInput?
    requires Keyed.Find(d.state.users, UserKey, q.connectionId) == Some(ui)
    requires Keyed.Has(d.state.connections, ConnectionKey, q.connectionId)
    ensures d.state.users[ui].entityId !in Handle(d, env, rules, now, q).pending
  {
  }

  /** Applying an input changes the player with that id exactly as the
      player's own `applyInput` does. */
  lemma ApplyToTarget(s: State, rules: Player.Rules, id: int, input: Player.Input, j: nat)
    requires Keyed.UniqueKeys(s.entities, EntityKey)
    requires j < |s.entities| && s.entities[j].entityId == id && s.entities[j].kind.PlayerKind?
    ensures ApplyTo(s, rules, id, input).entities[j]
         == s.entities[j].(kind := PlayerKind(ServerApplyInput(rules, s.entities[j].kind.player, input).player))
  {
    var i := Keyed.Find(s.entities, EntityKey, id).value;
    assert i == j;
  }

  /** The no-key inputs: every listed player gets exactly one, with the next
      sequence number and one more alive tick, and no other entity changes. */
  lemma {:induction false} SynthesizeServesOnce(s: State, rules: Player.Rules, ids: seq<int>)
    requires Keyed.UniqueKeys(s.entities, EntityKey) && Keyed.UniqueKeys(ids, Self)
    ensures var r := Synthesize(s, rules, ids);
      && r.(entities := s.entities, effects := s.effects) == s
      && |r.entities| == |s.entities|
      && (forall j :: 0 <= j < |s.entities| && s.entities[j].entityId !in ids ==> r.entities[j] == s.entities[j])
      && (forall j :: 0 <= j < |s.entities| && s.entities[j].entityId in ids && s.entities[j].kind.PlayerKind? ==>
            var p := s.entities[j].kind.player;
            r.entities[j] == s.entities[j].(kind := PlayerKind(ServerApplyInput(rules, p, NoInput(p)).player)))
    decreases |ids|
  {
    if |ids| > 0 {
      var id := ids[0];
      var s1 := match Keyed.Find(s.entities, EntityKey, id)
        case Some(i) =>
          if s.entities[i].kind.PlayerKind? then ApplyTo(s, rules, id, NoInput(s.entities[i].kind.player)) else s
        case None => s;
      assert Keyed.UniqueKeys(s1.entities, EntityKey) by {
        forall a, b | 0 <= a < b < |s1.entities|
          ensures s1.entities[a].entityId != s1.entities[b].entityId
        {
          assert s1.entities[a].entityId == s.entities[a].entityId && s1.entities[b].entityId == s.entities[b].entityId;
        }
      }
      var rest := ids[1..];
      UniqueTail(ids);
      SynthesizeServesOnce(s1, rules, rest);
      forall j | 0 <= j < |s.entities| && s.entities[j].entityId == id && s.entities[j].kind.PlayerKind?
        ensures var p := s.entities[j].kind.player;
          s1.entities[j] == s.entities[j].(kind := PlayerKind(ServerApplyInput(rules, p, NoInput(p)).player))
      {
        assert Keyed.Find(s.entities, EntityKey, id) == Some(j);
        ApplyToTarget(s, rules, id, NoInput(s.entities[j].kind.player), j);
      }
    }
  }

  /** The rest of a list without repeats has none, and lacks the head. */
  lemma UniqueTail(ids: seq<int>)
    requires |ids| > 0 && Keyed.UniqueKeys(ids, Self)
    ensures Keyed.UniqueKeys(ids[1..], Self) && ids[0] !in ids[1..]
  {
    var rest := ids[1..];
    forall a, b | 0 <= a < b < |rest|
      ensures rest[a] != rest[b]
    {
      assert rest[a] == ids[a + 1] && rest[b] == ids[b + 1];
    }
    forall a | 0 <= a < |rest|
      ensures rest[a] != ids[0]
    {
      assert rest[a] == ids[a + 1];
    }
  }

  // ---------------------------------------------------------------------
  // World state
  // ---------------------------------------------------------------------

  function SnapshotId(sn: Snapshot): int {
    match sn
    case LiveSnapshot(p) => p.entityId
    case EntitySnapshot(e) => e.entityId
  }

  /** The search keeps exactly the other entities in view, in order. */
  lemma {:induction false} NearbyIff(es: seq<Entity>, ownId: int, center: real, e: Entity)
    ensures EntitySnapshot(e) in Nearby(es, ownId, center) <==> e in es && InView(RealX(e), center) && e.entityId != ownId
    decreases |es|
  {
    if |es| > 0 {
      NearbyIff(es[1..], ownId, center, e);
      assert es == [es[0]] + es[1..];
    }
  }

  /** A user's world state starts with their own live model, has it exactly
      once, and everything else in it lies within half the screen range. */
  lemma WorldForShape(es: seq<Entity>, p: Player.Player)
    ensures var w := WorldFor(es, p);
      && w[0] == LiveSnapshot(p)
      && (forall j :: 1 <= j < |w| ==> w[j].EntitySnapshot? && SnapshotId(w[j]) != p.entityId)
      && (forall j :: 1 <= j < |w| ==> InView(RealX(w[j].entity), p.x))
  {
    var w := WorldFor(es, p);
    forall j | 1 <= j < |w|
      ensures w[j].EntitySnapshot? && SnapshotId(w[j]) != p.entityId && InView(RealX(w[j].entity), p.x)
    {
      var n := Nearby(es, p.entityId, p.x);
      assert w[j] == n[j - 1] && n[j - 1] in n;
      NearbyIff(es, p.entityId, p.x, n[j - 1].entity);
    }
  }

  /** Every user whose player is there gets exactly one world state appended
      to their queue (when they have one). */
  lemma {:induction false} SendWorldToEach(s: State, us: seq<User>, u: User)
    requires Keyed.UniqueKeys(us, UserKey) && u in us && u.connectionId in s.outbox
    requires PlayerOf(s.entities, u.entityId).Some?
    ensures var r := SendWorldTo(s, us);
      && u.connectionId in r.outbox
      && r.outbox[u.connectionId]
         == s.outbox[u.connectionId] + [Messages.WorldState(WorldFor(s.entities, PlayerOf(s.entities, u.entityId).value))]
    decreases |us|
  {
    var s1 := match PlayerOf(s.entities, us[0].entityId)
      case Some(p) => SendMessageToClient(s, us[0].connectionId, Messages.WorldState(WorldFor(s.entities, p)))
      case None => s;
    if us[0] == u {
      SendWorldUntouched(s1, us[1..], u.connectionId);
    } else {
      assert us[0].connectionId != u.connectionId by {
        var j :| 0 <= j < |us| && us[j] == u;
        assert j != 0;
      }
      assert Keyed.UniqueKeys(us[1..], UserKey) by {
        forall a, b | 0 <= a < b < |us[1..]|
          ensures us[1..][a].connectionId != us[1..][b].connectionId
        {
          assert us[1..][a] == us[a + 1] && us[1..][b] == us[b + 1];
        }
      }
      assert u in us[1..] by {
        var j :| 0 <= j < |us| && us[j] == u;
        assert us[1..][j - 1] == u;
      }
      SendWorldToEach(s1, us[1..], u);
    }
  }

  /** A connection no listed user holds keeps its queue. */
  lemma {:induction false} SendWorldUntouched(s: State, us: seq<User>, cid: int)
    requires forall j :: 0 <= j < |us| ==> us[j].connectionId != cid
    requires cid in s.outbox
    ensures cid in SendWorldTo(s, us).outbox && SendWorldTo(s, us).outbox[cid] == s.outbox[cid]
    decreases |us|
  {
    if |us| > 0 {
      var s1 := match PlayerOf(s.entities, us[0].entityId)
        case Some(p) => SendMessageToClient(s, us[0].connectionId, Messages.WorldState(WorldFor(s.entities, p)))
        case None => s;
      SendWorldUntouched(s1, us[1..], cid);
    }
  }

  /** The spectators' box holds exactly the entities whose realX is in it. */
  lemma {:induction false} InBoxIff(es: seq<Entity>, center: real, sn: Snapshot)
    ensures sn in InBox(es, center) <==> sn.EntitySnapshot? && sn.entity in es && InView(RealX(sn.entity), center)
    decreases |es|
  {
    if |es| > 0 {
      InBoxIff(es[1..], center, sn);
      assert es == [es[0]] + es[1..];
    }
  }

  /** Every spectator is sent the same world state once, straight on the
      socket, when there is a spectator entity. */
  lemma SpectatorsGetTheBox(s: State, sp: Entity)
    requires SpectatorEntity(s.entities) == Some(sp)
    ensures var r := SendSpectatorWorldState(s);
      && |r.socket| == |s.socket| + |s.spectators| && r.socket[..|s.socket|] == s.socket
      && forall j :: 0 <= j < |s.spectators| ==>
           r.socket[|s.socket| + j] == Send(s.spectators[j], [Messages.WorldState(InBox(s.entities, RealX(sp)))])
  {
  }

  // ---------------------------------------------------------------------
  // Outbound queues
  // ---------------------------------------------------------------------

  /** sendMessageToClient called once per message of `ms`, in order. */
  function SendAll(s: State, cid: int, ms: seq<OutMessage>): (r: State)
    ensures r.outbox.Keys == s.outbox.Keys
    decreases |ms|
  {
    if |ms| == 0 then s else SendMessageToClient(SendAll(s, cid, ms[..|ms| - 1]), cid, ms[|ms| - 1])
  }

  /** Messages for a connection with a queue are appended to it in send order;
      messages for a connection without one are dropped, and nothing else changes. */
  lemma {:induction false} SendAllQueues(s: State, cid: int, ms: seq<OutMessage>)
    ensures cid in s.outbox ==> SendAll(s, cid, ms).outbox[cid] == s.outbox[cid] + ms
    ensures cid !in s.outbox ==> SendAll(s, cid, ms) == s
    ensures forall c :: c in s.outbox && c != cid ==> SendAll(s, cid, ms).outbox[c] == s.outbox[c]
    ensures SendAll(s, cid, ms).(outbox := s.outbox) == s
    decreases |ms|
  {
    if |ms| > 0 {
      SendAllQueues(s, cid, ms[..|ms| - 1]);
      if cid in s.outbox {
        assert ms[..|ms| - 1] + [ms[|ms| - 1]] == ms;
      }
    }
  }

  /** Flushing one connection hands its whole queue to the socket as one batch,
      when the queue is not empty, and leaves the queue empty. */
  lemma FlushOneDelivers(s: State, cid: int)
    requires cid in s.outbox
    ensures Flush(s, [cid]).outbox[cid] == []
    ensures |s.outbox[cid]| > 0 ==> Flush(s, [cid]).socket == s.socket + [Send(cid, s.outbox[cid])]
    ensures |s.outbox[cid]| == 0 ==> Flush(s, [cid]).socket == s.socket
  {
  }

  /** A joined connection receives what was sent to it between two flushes,
      in send order, in one batch; an empty queue puts nothing on the socket. */
  lemma JoinSendFlushDelivers(s: State, cid: int, ms: seq<OutMessage>)
    ensures var r := Flush(SendAll(OnJoin(s, cid), cid, ms), [cid]);
      && r.socket == s.socket + (if |ms| > 0 then [Send(cid, ms)] else [])
      && r.outbox[cid] == []
  {
    var q := SendAll(OnJoin(s, cid), cid, ms);
    SendAllQueues(OnJoin(s, cid), cid, ms);
    assert q.outbox[cid] == ms && q.socket == s.socket;
    FlushOneDelivers(q, cid);
  }

  /** Before onJoin, or after the connection's queue is gone, sending delivers nothing. */
  lemma UnjoinedSendDropped(s: State, cid: int, ms: seq<OutMessage>)
    requires cid !in s.outbox
    ensures Flush(SendAll(s, cid, ms), [cid]) == s
  {
    SendAllQueues(s, cid, ms);
  }

  // ---------------------------------------------------------------------
  // Leaderboard
  // ---------------------------------------------------------------------

  lemma TopTenPrefix(rows: seq<Messages.ScoreRow>)
    ensures TopTen(rows) == rows[..|TopTen(rows)|]
    ensures |TopTen(rows)| < 10 ==> TopTen(rows) == rows
  {
  }

  /** A user is sent the top ten, followed by their own row when it is not
      already among them; a user without a row is sent nothing. */
  lemma BoardForShape(rows: seq<Messages.ScoreRow>, id: int)
    ensures BoardFor(rows, id).None? <==> forall j :: 0 <= j < |rows| ==> rows[j].userId != id
    ensures BoardFor(rows, id).Some? ==>
      var b := BoardFor(rows, id).value;
      && b[..|TopTen(rows)|] == TopTen(rows)
      && |b| <= 11
      && (exists j :: 0 <= j < |b| && b[j].userId == id)
      && (|b| == |TopTen(rows)| <==> exists j :: 0 <= j < |TopTen(rows)| && TopTen(rows)[j].userId == id)
  {
    var top := TopTen(rows);
    TopTenPrefix(rows);
    if FindRow(top, id).Some? {
      var k := FindRow(top, id).value;
      assert rows[k] == top[k];
    } else if FindRow(rows, id).Some? {
      var i := FindRow(rows, id).value;
      var b := top + [rows[i]];
      assert b[|top|].userId == id;
      assert b[..|top|] == top;
    }
  }

  // ---------------------------------------------------------------------
  // End of tick
  // ---------------------------------------------------------------------

  function Unmarked(es: seq<Entity>): (r: seq<Entity>)
    ensures forall j :: 0 <= j < |r| ==> !r[j].markToDestroy && r[j] in es
  {
    if |es| == 0 then []
    else (if es[0].markToDestroy then [] else [es[0]]) + Unmarked(es[1..])
  }

  /** The end of the tick keeps the unmarked entities in order and post-ticks
      each of them exactly once. */
  lemma {:induction false} SurvivorsAreUnmarked(es: seq<Entity>, post: Entity -> Entity)
    ensures Survivors(es, post) == Seqs.Map(Unmarked(es), post)
    decreases |es|
  {
    if |es| > 0 {
      SurvivorsAreUnmarked(es[1..], post);
      if !es[0].markToDestroy {
        assert Seqs.Map([es[0]] + Unmarked(es[1..]), post) == [post(es[0])] + Seqs.Map(Unmarked(es[1..]), post);
      }
    }
  }

  /** An entity survives exactly when it is not marked. */
  lemma {:induction false} UnmarkedIff(es: seq<Entity>, e: Entity)
    ensures e in Unmarked(es) <==> e in es && !e.markToDestroy
    decreases |es|
  {
    if |es| > 0 {
      UnmarkedIff(es[1..], e);
      assert es == [es[0]] + es[1..];
    }
  }

  // ---------------------------------------------------------------------
  // Timeout sweep
  // ---------------------------------------------------------------------

  /** A connection is disconnected exactly when one of the three timeouts ran
      out for it: a user's last action, a spectator's watch time, or any
      connection's last ping. */
  lemma {:induction false} SweepIff(s: State, cs: seq<Connection>, now: int, cid: int)
    ensures cid in SweepOrder(s, cs, now) <==>
      exists j :: 0 <= j < |cs| && cs[j].connectionId == cid && (
        || (Keyed.Has(s.users, UserKey, cid) && cs[j].lastAction + GameConstants.LastActionTimeout < now)
        || (Keyed.Has(s.spectators, Self, cid) && cs[j].spectatorJoin.Some?
            && cs[j].spectatorJoin.value + GameConstants.TotalSpectatorDuration < now)
        || cs[j].lastPing + GameConstants.LastPingTimeout < now)
    decreases |cs|
  {
    if |cs| > 0 {
      var init := cs[..|cs| - 1];
      SweepIff(s, init, now, cid);
      forall j | 0 <= j < |init|
        ensures init[j] == cs[j]
      {
      }
    }
  }

  /** Each connection is disconnected at most once per sweep. */
  lemma {:induction false} SweepOnce(s: State, cs: seq<Connection>, now: int)
    requires Keyed.UniqueKeys(cs, ConnectionKey)
    ensures forall i, j :: 0 <= i < j < |SweepOrder(s, cs, now)| ==> SweepOrder(s, cs, now)[i] != SweepOrder(s, cs, now)[j]
    decreases |cs|
  {
    if |cs| > 0 {
      var init := cs[..|cs| - 1];
      var c := cs[|cs| - 1];
      assert Keyed.UniqueKeys(init, ConnectionKey) by {
        forall a, b | 0 <= a < b < |init|
          ensures init[a].connectionId != init[b].connectionId
        {
          assert init[a] == cs[a] && init[b] == cs[b];
        }
      }
      SweepOnce(s, init, now);
      if Expired(s, c, now) {
        var rest := SweepOrder(s, init, now);
        forall k | 0 <= k < |rest|
          ensures rest[k] != c.connectionId
        {
          SweepIff(s, init, now, rest[k]);
          var j :| 0 <= j < |init| && init[j].connectionId == rest[k] && (
            || (Keyed.Has(s.users, UserKey, rest[k]) && init[j].lastAction + GameConstants.LastActionTimeout < now)
            || (Keyed.Has(s.spectators, Self, rest[k]) && init[j].spectatorJoin.Some?
                && init[j].spectatorJoin.value + GameConstants.TotalSpectatorDuration < now)
            || init[j].lastPing + GameConstants.LastPingTimeout < now);
          assert init[j] == cs[j];
        }
      }
    }
  }

  // ---------------------------------------------------------------------
  // Spawning and the timer
  // ---------------------------------------------------------------------

  /** The enemy target, in whole numbers: 0, 2, 3, 5, then 6 for four or more
      players. */
  lemma EnemyTargets(players: nat)
    ensures EnemyTarget(players) == (3 * Min(players, 4) + 1) / 2
    ensures players >= 4 ==> EnemyTarget(players) == 6
  {
    var m := Min(players, 4);
    var x := m as real * 1.5;
    var c := EnemyTarget(players);
    assert c as real - 1.0 < x <= c as real;
    if m == 0 {
      assert c == 0;
    } else if m == 1 {
      assert c == 2;
    } else if m == 2 {
      assert c == 3;
    } else if m == 3 {
      assert c == 5;
    } else {
      assert c == 6;
    }
  }

  /** The spawn count as the integer formula `max(0, ceil(1.5 min(p, 4)) - e)`. */
  lemma SpawnReference(players: nat, enemies: nat)
    ensures SpawnCount(players, enemies) == Max(0, (3 * Min(players, 4) + 1) / 2 - enemies)
    ensures SpawnCount(players, enemies) <= 6
  {
    EnemyTargets(players);
  }

  /** The delay after a tick that took `tickTime` ms: the full rate after an
      instant (or clock-skewed) tick, the remainder after a short one, 1 ms
      after an overrun. */
  lemma DelayCases(tickTime: int)
    ensures tickTime <= 0 ==> NextTickDelay(tickTime) == GameConstants.ServerTickRate
    ensures 0 <= tickTime < GameConstants.ServerTickRate ==> NextTickDelay(tickTime) == GameConstants.ServerTickRate - tickTime
    ensures tickTime >= GameConstants.ServerTickRate - 1 ==> NextTickDelay(tickTime) == 1
  {
  }
}
