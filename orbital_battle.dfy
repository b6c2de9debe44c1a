/** Turns of a battle: an action is checked, resolved against the arena
    with the round's random draws, and logged as a snapshot; the arena can
    be rebuilt from the logged snapshots alone. */
module OrbitalBattle {
  import opened Wrappers
  import opened OrbitalTime
  import opened OrbitalArena
  import opened OrbitalMatch

  datatype BattleAction = Maneuver(thrust: Vector3) | Fire(target: string, power: nat) | Brace

  /** `BattleEvent`; `BraceEvent` is the `Brace` event. */
  datatype BattleEvent =
    | Movement(actor: string, delta: Vector3)
    | Damage(target: string, amount: int)
    | Miss(target: string)
    | BraceEvent(actor: string, restored: int)

  datatype TurnSnapshot = TurnSnapshot(
    turn: nat,
    actor: string,
    action: BattleAction,
    events: seq<BattleEvent>,
    stateHash: string,
    appliedAt: Instant)

  /** A uniform `f32` sample in [0, 1). */
  type HitRoll(==)

  /** The draws of one round: the hit roll and the damage roll of a
      `Fire`, and the shield a `Brace` restores. */
  datatype Draw = Draw(hitRoll: HitRoll, damageRoll: int, restored: int)

  /** The random generator seeded from a number, and the float comparison
      of a hit roll against the hit chance of an attacker and a defender
      of the given strengths. */
  datatype Dice = Dice(draw: nat -> Draw, hits: (HitRoll, nat, nat) -> bool)

  /** The ranges of `Uniform::new_inclusive(4, 17)` and
      `Uniform::new_inclusive(6, 17)`. */
  ghost predicate FairDice(dice: Dice)
  {
    forall s: nat :: 4 <= dice.draw(s).damageRoll <= 17 && 6 <= dice.draw(s).restored <= 17
  }

  /** What a turn needs from outside the arena: vector arithmetic, the
      dice, and the state digest. */
  datatype Env = Env(physics: Physics, dice: Dice, digest: ArenaState -> string)

  /** A ship's weight in the hit chance: its shield and hull, each counted
      from zero. */
  function Strength(ship: ShipState): nat
  {
    (if ship.shield > 0 then ship.shield else 0) + (if ship.hull > 0 then ship.hull else 0)
  }

  /** A maneuver: the velocity gains 0.6 of the thrust, then the ship moves
      by its new velocity. */
  function Moved(ship: ShipState, thrust: Vector3, physics: Physics): ShipState
  {
    var v := physics.add(ship.velocity, physics.damp(thrust));
    ship.(velocity := v, position := physics.add(ship.position, v))
  }

  /** The arena with one pilot's ship replaced. */
  function WithShip(a: ArenaState, pilot: string, ship: ShipState): ArenaState
  {
    a.(ships := a.ships[pilot := ship])
  }

  /** The checks and the effect of one action, before the round advances:
      the arena afterwards and the events, or the reason it is refused. */
  function Play(a: ArenaState, actor: string, action: BattleAction, env: Env): Result<(ArenaState, seq<BattleEvent>), string>
  {
    if actor !in a.ships then Err("No ship registered for actor " + actor)
    else
      var ship := a.ships[actor];
      if ship.hull <= 0 then Err(actor + " is already destroyed")
      else
        var draw := env.dice.draw(RngSeed(a));
        match action
        case Maneuver(thrust) => Ok((WithShip(a, actor, Moved(ship, thrust, env.physics)), [Movement(actor, thrust)]))
        case Fire(target, power) =>
          if target !in a.ships then Err("Target " + target + " not found")
          else
            var t := a.ships[target];
            if t.hull <= 0 then Err("Target " + target + " is already destroyed")
            else if env.dice.hits(draw.hitRoll, Strength(ship), Strength(t)) then
              var damage := power + draw.damageRoll;
              Ok((WithShip(a, target, Damaged(t, damage)), [Damage(target, damage)]))
            else Ok((a, [Miss(target)]))
        case Brace =>
          Ok((WithShip(a, actor, ship.(shield := ship.shield + draw.restored)), [BraceEvent(actor, draw.restored)]))
  }

  /** `apply_action` on values: the arena after the turn and the snapshot
      it logs, or the error. */
  function Turn(meta: MatchMeta, a: ArenaState, actor: string, action: BattleAction, env: Env, now: Instant)
    : Result<(ArenaState, TurnSnapshot), string>
  {
    if EnsureGuest(meta).Err? then Err(EnsureGuest(meta).error)
    else match Play(a, actor, action, env)
      case Err(e) => Err(e)
      case Ok((played, events)) =>
        var next := Advanced(played);
        Ok((next, TurnSnapshot(next.round, actor, action, events, env.digest(next), now)))
  }

  /** A turn is refused exactly when the match has no guest yet, the actor
      has no ship or a destroyed one, or a shot aims at a pilot without a
      ship or with a destroyed one; each refusal has its message. */
  lemma TurnRefusals(meta: MatchMeta, a: ArenaState, actor: string, action: BattleAction, env: Env, now: Instant)
    ensures var r := Turn(meta, a, actor, action, env, now);
      && (r.Err? <==>
            || meta.guest.None? || meta.guestBlueprint.None?
            || actor !in a.ships || a.ships[actor].hull <= 0
            || (action.Fire? && (action.target !in a.ships || a.ships[action.target].hull <= 0)))
      && (EnsureGuest(meta).Err? ==> r == Err(NotReady))
      && (EnsureGuest(meta).Ok? && actor !in a.ships ==> r == Err("No ship registered for actor " + actor))
      && (EnsureGuest(meta).Ok? && actor in a.ships && a.ships[actor].hull <= 0 ==> r == Err(actor + " is already destroyed"))
      && (EnsureGuest(meta).Ok? && actor in a.ships && a.ships[actor].hull > 0 && action.Fire? ==>
            && (action.target !in a.ships ==> r == Err("Target " + action.target + " not found"))
            && (action.target in a.ships && a.ships[action.target].hull <= 0 ==>
                  r == Err("Target " + action.target + " is already destroyed")))
  {
  }

  /** An accepted turn advances the round by exactly one, logs exactly one
      event under the new round's number, the actor and the action, and
      keeps the seed and the set of pilots. */
  lemma TurnAdvances(meta: MatchMeta, a: ArenaState, actor: string, action: BattleAction, env: Env, now: Instant)
    requires Turn(meta, a, actor, action, env, now).Ok?
    ensures var (next, snap) := Turn(meta, a, actor, action, env, now).value;
      && next.round == a.round + 1 && next.seed == a.seed && next.ships.Keys == a.ships.Keys
      && snap.turn == next.round && snap.actor == actor && snap.action == action
      && |snap.events| == 1 && snap.stateHash == env.digest(next) && snap.appliedAt == now
  {
  }

  /** With fair dice a hit deals the shot's power plus 4 to 17 through
      `apply_damage` on the target, a miss changes no ship, and a brace
      adds 6 to 17 to the actor's shield. */
  lemma TurnEffects(meta: MatchMeta, a: ArenaState, actor: string, action: BattleAction, env: Env, now: Instant)
    requires FairDice(env.dice)
    requires Turn(meta, a, actor, action, env, now).Ok?
    ensures var (next, snap) := Turn(meta, a, actor, action, env, now).value;
      var event := snap.events[0];
      && (action.Fire? && event.Damage? ==>
            && event.target == action.target
            && action.power + 4 <= event.amount <= action.power + 17
            && next.ships == a.ships[action.target := Damaged(a.ships[action.target], event.amount)])
      && (action.Fire? && !event.Damage? ==> event == Miss(action.target) && next.ships == a.ships)
      && (action.Brace? ==>
            && event.BraceEvent? && event.actor == actor && 6 <= event.restored <= 17
            && next.ships == a.ships[actor := a.ships[actor].(shield := a.ships[actor].shield + event.restored)])
  {
    var draw := env.dice.draw(RngSeed(a));
    assert 4 <= draw.damageRoll <= 17 && 6 <= draw.restored <= 17;
  }

  /** Replaying the events of a shot: every `Damage` event's amount goes
      to the target, in order. */
  function DamageAll(ship: ShipState, events: seq<BattleEvent>): ShipState
  {
    if events == [] then ship
    else
      var before := DamageAll(ship, events[..|events| - 1]);
      var e := events[|events| - 1];
      if e.Damage? then Damaged(before, e.amount) else before
  }

  /** Replaying the events of a brace: every `Brace` event's amount is
      added to the shield, in order. */
  function RestoreAll(ship: ShipState, events: seq<BattleEvent>): ShipState
  {
    if events == [] then ship
    else
      var before := RestoreAll(ship, events[..|events| - 1]);
      var e := events[|events| - 1];
      if e.BraceEvent? then before.(shield := before.shield + e.restored) else before
  }

  /** `apply_action_inner` on values: the recorded events are applied, and
      no new draws are made. */
  function ReplayTurn(a: ArenaState, turn: TurnSnapshot, physics: Physics): Result<ArenaState, string>
  {
    if turn.actor !in a.ships then Err("Unknown ship " + turn.actor + " during replay")
    else
      var ship := a.ships[turn.actor];
      match turn.action
      case Maneuver(thrust) => Ok(WithShip(a, turn.actor, Moved(ship, thrust, physics)))
      case Fire(target, _) =>
        if target in a.ships then Ok(WithShip(a, target, DamageAll(a.ships[target], turn.events))) else Ok(a)
      case Brace => Ok(WithShip(a, turn.actor, RestoreAll(ship, turn.events)))
  }

  /** The replay of `turns` from `start`: each turn is applied, then the
      round advances. */
  function Replay(start: ArenaState, turns: seq<TurnSnapshot>, physics: Physics): Result<ArenaState, string>
  {
    if turns == [] then Ok(start)
    else match Replay(start, turns[..|turns| - 1], physics)
      case Err(e) => Err(e)
      case Ok(a) =>
        match ReplayTurn(a, turns[|turns| - 1], physics)
        case Err(e) => Err(e)
        case Ok(b) => Ok(Advanced(b))
  }

  /** A successful replay ends with the round advanced once per turn and
      the seed unchanged. */
  lemma {:induction false} ReplayRound(start: ArenaState, turns: seq<TurnSnapshot>, physics: Physics)
    requires Replay(start, turns, physics).Ok?
    ensures Replay(start, turns, physics).value.round == start.round + |turns|
    ensures Replay(start, turns, physics).value.seed == start.seed
  {
    if turns != [] {
      ReplayRound(start, turns[..|turns| - 1], physics);
    }
  }

  /** Once a prefix fails to replay, the whole log fails with its error. */
  lemma {:induction false} ReplayFailureSticks(start: ArenaState, turns: seq<TurnSnapshot>, i: nat, physics: Physics)
    requires i <= |turns| && Replay(start, turns[..i], physics).Err?
    ensures Replay(start, turns, physics) == Replay(start, turns[..i], physics)
    decreases |turns| - i
  {
    if i < |turns| {
      assert turns[..i + 1][..i] == turns[..i];
      ReplayFailureSticks(start, turns, i + 1, physics);
    } else {
      assert turns[..i] == turns;
    }
  }

  /** Replaying the snapshot of an accepted action reproduces the arena
      the action produced: the live game and its replay agree. */
  lemma PlayThenReplay(a: ArenaState, actor: string, action: BattleAction, env: Env, snap: TurnSnapshot)
    requires Play(a, actor, action, env).Ok?
    requires snap.actor == actor && snap.action == action && snap.events == Play(a, actor, action, env).value.1
    ensures ReplayTurn(a, snap, env.physics) == Ok(Play(a, actor, action, env).value.0)
  {
    var events := snap.events;
    assert events[..0] == [];
    match action
    case Maneuver(_) =>
    case Fire(target, _) =>
      var t := a.ships[target];
      var draw := env.dice.draw(RngSeed(a));
      if env.dice.hits(draw.hitRoll, Strength(a.ships[actor]), Strength(t)) {
        assert events == [Damage(target, action.power + draw.damageRoll)];
        assert DamageAll(t, events) == Damaged(DamageAll(t, events[..0]), action.power + draw.damageRoll);
      } else {
        assert events == [Miss(target)];
        assert DamageAll(t, events) == DamageAll(t, events[..0]);
        assert a.ships[target := t] == a.ships;
        assert WithShip(a, target, t) == a;
      }
    case Brace =>
      var restored := env.dice.draw(RngSeed(a)).restored;
      var ship := a.ships[actor];
      assert events == [BraceEvent(actor, restored)];
      assert RestoreAll(ship, events) == RestoreAll(ship, events[..0]).(shield := ship.shield + restored);
  }

  /** An accepted turn keeps the log replayable: if the log replays to the
      current arena, the log with the new snapshot replays to the arena
      after the turn. */
  lemma TurnKeepsReplay(meta: MatchMeta, a: ArenaState, turns: seq<TurnSnapshot>, actor: string, action: BattleAction, env: Env, now: Instant)
    requires Replay(ArenaStateOf(meta, env.physics), turns, env.physics) == Ok(a)
    requires Turn(meta, a, actor, action, env, now).Ok?
    ensures var (next, snap) := Turn(meta, a, actor, action, env, now).value;
      Replay(ArenaStateOf(meta, env.physics), turns + [snap], env.physics) == Ok(next)
  {
    var (next, snap) := Turn(meta, a, actor, action, env, now).value;
    PlayThenReplay(a, actor, action, env, snap);
    assert (turns + [snap])[..|turns|] == turns;
  }

  /** `MatchState`: the metadata, the live arena, and the turn log. */
  class MatchState {
    var meta: MatchMeta
    var arena: ArenaState
    var turns: seq<TurnSnapshot>

    /** The log replays from the match's starting arena to the live one. */
    ghost predicate Replays(physics: Physics)
      reads this
    {
      Replay(ArenaStateOf(meta, physics), turns, physics) == Ok(arena)
    }

    /** `MatchState::new`. */
    constructor (meta: MatchMeta, arena: ArenaState)
      ensures this.meta == meta && this.arena == arena && turns == []
    {
      this.meta := meta;
      this.arena := arena;
      turns := [];
    }

    /** `latest_turn`: the last logged snapshot. */
    function LatestTurn(): (r: Option<TurnSnapshot>)
      reads this
      ensures r.None? <==> turns == []
      ensures r.Some? ==> r.value == turns[|turns| - 1]
    {
      if turns == [] then None else Some(turns[|turns| - 1])
    }

    /** `apply_action`: a refused action changes nothing; an accepted one
        updates the arena, advances the round and logs the snapshot. The
        clock reading is `now`. */
    method ApplyAction(actor: string, action: BattleAction, env: Env, now: Instant) returns (r: Result<TurnSnapshot, string>)
      modifies this
      ensures meta == old(meta)
      ensures var expected := Turn(old(meta), old(arena), actor, action, env, now);
        && (expected.Err? ==> r == Err(expected.error) && arena == old(arena) && turns == old(turns))
        && (expected.Ok? ==> r == Ok(expected.value.1) && arena == expected.value.0 && turns == old(turns) + [r.value])
      ensures old(Replays(env.physics)) ==> Replays(env.physics)
    {
      ghost var before := arena;
      var ready := EnsureGuest(meta);
      if ready.Err? {
        return Err(ready.error);
      }
      var seed := RngSeed(arena);
      if actor !in arena.ships {
        return Err("No ship registered for actor " + actor);
      }
      var ship := arena.ships[actor];
      if ship.hull <= 0 {
        return Err(actor + " is already destroyed");
      }
      var events: seq<BattleEvent> := [];
      match action {
        case Maneuver(thrust) =>
          arena := WithShip(arena, actor, Moved(ship, thrust, env.physics));
          events := events + [Movement(actor, thrust)];
          assert events == [Movement(actor, thrust)];
        case Fire(target, power) =>
          if target !in arena.ships {
            return Err("Target " + target + " not found");
          }
          var targetShip := arena.ships[target];
          if targetShip.hull <= 0 {
            return Err("Target " + target + " is already destroyed");
          }
          var draw := env.dice.draw(seed);
          if env.dice.hits(draw.hitRoll, Strength(ship), Strength(targetShip)) {
            var damage := power + draw.damageRoll;
            arena := WithShip(arena, target, Damaged(targetShip, damage));
            events := events + [Damage(target, damage)];
            assert events == [Damage(target, damage)];
          } else {
            events := events + [Miss(target)];
            assert events == [Miss(target)];
          }
        case Brace =>
          var restored := env.dice.draw(seed).restored;
          arena := WithShip(arena, actor, ship.(shield := ship.shield + restored));
          events := events + [BraceEvent(actor, restored)];
          assert events == [BraceEvent(actor, restored)];
      }
      assert Play(before, actor, action, env) == Ok((arena, events));
      arena := Advanced(arena);
      var snapshot := TurnSnapshot(arena.round, actor, action, events, env.digest(arena), now);
      if old(Replays(env.physics)) {
        TurnKeepsReplay(meta, before, turns, actor, action, env, now);
      }
      turns := turns + [snapshot];
      r := Ok(snapshot);
    }

    /** `apply_action_inner`: one logged turn replayed onto `a`. */
    method ApplyActionInner(a: ArenaState, turn: TurnSnapshot, physics: Physics) returns (r: Result<ArenaState, string>)
      ensures r == ReplayTurn(a, turn, physics)
    {
      if turn.actor !in a.ships {
        return Err("Unknown ship " + turn.actor + " during replay");
      }
      var ship := a.ships[turn.actor];
      match turn.action {
        case Maneuver(thrust) =>
          r := Ok(WithShip(a, turn.actor, Moved(ship, thrust, physics)));
        case Fire(target, _) =>
          if target in a.ships {
            var targetShip := a.ships[target];
            var i := 0;
            while i < |turn.events|
              invariant 0 <= i <= |turn.events|
              invariant targetShip == DamageAll(a.ships[target], turn.events[..i])
            {
              assert turn.events[..i + 1][..i] == turn.events[..i];
              if turn.events[i].Damage? {
                targetShip := Damaged(targetShip, turn.events[i].amount);
              }
              i := i + 1;
            }
            assert turn.events[..i] == turn.events;
            r := Ok(WithShip(a, target, targetShip));
          } else {
            r := Ok(a);
          }
        case Brace =>
          var i := 0;
          while i < |turn.events|
            invariant 0 <= i <= |turn.events|
            invariant ship == RestoreAll(a.ships[turn.actor], turn.events[..i])
          {
            assert turn.events[..i + 1][..i] == turn.events[..i];
            if turn.events[i].BraceEvent? {
              ship := ship.(shield := ship.shield + turn.events[i].restored);
            }
            i := i + 1;
          }
          assert turn.events[..i] == turn.events;
          r := Ok(WithShip(a, turn.actor, ship));
      }
    }

    /** `rebuild_arena`: the log is replayed from the match's starting
        arena; on success the result becomes the live arena, on failure
        the live arena is kept. */
    method RebuildArena(physics: Physics) returns (r: Result<(), string>)
      modifies this
      ensures meta == old(meta) && turns == old(turns)
      ensures var replayed := Replay(ArenaStateOf(old(meta), physics), old(turns), physics);
        && (replayed.Ok? ==> r.Ok? && arena == replayed.value)
        && (replayed.Err? ==> r == Err(replayed.error) && arena == old(arena))
    {
      var start := ArenaStateOf(meta, physics);
      var a := start;
      var i := 0;
      while i < |turns|
        invariant 0 <= i <= |turns|
        invariant Replay(start, turns[..i], physics) == Ok(a)
        invariant meta == old(meta) && turns == old(turns) && arena == old(arena)
      {
        var step := ApplyActionInner(a, turns[i], physics);
        assert turns[..i + 1][..i] == turns[..i];
        if step.Err? {
          ReplayFailureSticks(start, turns, i + 1, physics);
          return Err(step.error);
        }
        a := Advanced(step.value);
        i := i + 1;
      }
      assert turns[..i] == turns;
      arena := a;
      r := Ok(());
    }
  }

  /** A match whose log replays to its live arena is left as it is by a
      rebuild, and a rebuilt arena stands at the round of the last turn. */
  lemma RebuildKeepsLiveArena(meta: MatchMeta, a: ArenaState, turns: seq<TurnSnapshot>, physics: Physics)
    requires Replay(ArenaStateOf(meta, physics), turns, physics) == Ok(a)
    ensures a.round == |turns| && a.seed == meta.seed
  {
    ReplayRound(ArenaStateOf(meta, physics), turns, physics);
  }
}
