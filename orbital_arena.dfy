/** The arena of a match: each pilot's ship state, the round counter and
    the seed the round's random draws come from. */
module OrbitalArena {
  import opened OrbitalShip

  /** A three-component `f32` vector; its arithmetic is supplied by
      `Physics`. */
  type Vector3(==, !new)

  /** The vector arithmetic the arena uses: the zero vector, addition, and
      the scaling of a thrust by 0.6. */
  datatype Physics = Physics(zero: Vector3, add: (Vector3, Vector3) -> Vector3, damp: Vector3 -> Vector3)

  /** A ship in play. The random id and the blueprint signature, which
      only feed the state digest, are not part of the model. */
  datatype ShipState = ShipState(position: Vector3, velocity: Vector3, hull: int, shield: int)

  const TwoTo31: int := 0x8000_0000
  const TwoTo32: int := 0x1_0000_0000

  /** A `u32` sum, wrapped as an unchecked sum wraps, then cast `as i32`. */
  function WrapI32(n: nat): (r: int)
    ensures -TwoTo31 <= r < TwoTo31
    ensures n < TwoTo31 ==> r == n
  {
    var m := n % TwoTo32;
    if m < TwoTo31 then m else m - TwoTo32
  }

  /** `ShipState::from_blueprint`: at rest at the origin, with the
      blueprint's hull integrity as hull and a third of its mass as
      shield. */
  function FromBlueprint(b: ShipBlueprint, physics: Physics): (s: ShipState)
    ensures s.position == physics.zero && s.velocity == physics.zero
    ensures HullIntegrity(b.modules) < TwoTo31 ==> s.hull == HullIntegrity(b.modules)
    ensures TotalMass(b) < TwoTo32 ==> s.shield == TotalMass(b) / 3
    ensures s.shield >= 0
  {
    ShipState(physics.zero, physics.zero, WrapI32(HullIntegrity(b.modules)), (TotalMass(b) % TwoTo32) / 3)
  }

  /** `apply_damage`: a positive shield absorbs as much of the damage as it
      can, and the hull takes whatever remains if that is positive. */
  function Damaged(ship: ShipState, damage: int): ShipState
  {
    var absorbed := if ship.shield > 0 then (if ship.shield <= damage then ship.shield else damage) else 0;
    var remaining := damage - absorbed;
    ship.(shield := ship.shield - absorbed, hull := if remaining > 0 then ship.hull - remaining else ship.hull)
  }

  /** A positive shield gives up min(shield, damage) and the hull loses
      only the positive rest; with no shield the hull takes the damage.
      For non-negative damage on a non-negative shield nothing is lost or
      created: shield and hull together drop by exactly the damage, the
      shield stays non-negative, and the hull drops only once the shield
      is gone. */
  lemma DamageFacts(ship: ShipState, damage: int)
    ensures var r := Damaged(ship, damage);
      var absorbed := if ship.shield <= damage then ship.shield else damage;
      && r.position == ship.position && r.velocity == ship.velocity
      && (ship.shield > 0 ==>
            && r.shield == ship.shield - absorbed
            && r.hull == ship.hull - (if damage - absorbed > 0 then damage - absorbed else 0))
      && (ship.shield <= 0 ==> r.shield == ship.shield && r.hull == ship.hull - (if damage > 0 then damage else 0))
      && (damage >= 0 && ship.shield >= 0 ==>
            && r.shield >= 0
            && r.shield + r.hull == ship.shield + ship.hull - damage
            && r.hull <= ship.hull
            && (r.hull < ship.hull ==> r.shield == 0))
  {
  }

  /** Shield 50 and hull 100 hit for 60 end at shield 0 and hull 90. */
  lemma ShieldsTakeDamageFirst(position: Vector3, velocity: Vector3)
    ensures Damaged(ShipState(position, velocity, 100, 50), 60) == ShipState(position, velocity, 90, 0)
  {
  }

  /** `ArenaState`. The pilots' insertion order only matters to the state
      digest, so the ships are a map from pilot label. */
  datatype ArenaState = ArenaState(seed: nat, round: nat, ships: map<string, ShipState>)

  /** `ArenaState::new`. */
  function NewArena(seed: nat, ships: map<string, ShipState>): (a: ArenaState)
    ensures a.round == 0 && a.seed == seed && a.ships == ships
  {
    ArenaState(seed, 0, ships)
  }

  /** The pilots whose ship still has hull. */
  function AlivePilots(a: ArenaState): set<string>
  {
    set p | p in a.ships && a.ships[p].hull > 0
  }

  /** `alive_ships`. */
  function AliveShips(a: ArenaState): nat
  {
    |AlivePilots(a)|
  }

  /** `is_match_over`. */
  predicate IsMatchOver(a: ArenaState)
  {
    AliveShips(a) <= 1
  }

  /** The match is over exactly when no two different pilots both still
      have hull. */
  lemma MatchOverIff(a: ArenaState)
    ensures IsMatchOver(a) <==>
      forall p, q :: p in a.ships && q in a.ships && a.ships[p].hull > 0 && a.ships[q].hull > 0 ==> p == q
  {
    var alive := AlivePilots(a);
    assert forall q :: q in a.ships && a.ships[q].hull > 0 ==> q in alive;
    if !IsMatchOver(a) {
      var p :| p in alive;
      assert |alive - {p}| == |alive| - 1;
      assert alive - {p} != {};
      var q :| q in alive - {p};
      assert p != q && p in a.ships && q in a.ships && a.ships[p].hull > 0 && a.ships[q].hull > 0;
    } else if alive != {} {
      var p :| p in alive;
      assert |alive - {p}| == 0;
      assert alive - {p} == {};
      assert forall q :: q in alive ==> q == p;
    }
  }

  /** Damage that is not negative never brings a ship back: the pilots
      still alive afterwards were alive before. */
  lemma DamageKillsOnly(a: ArenaState, target: string, damage: int)
    requires target in a.ships && damage >= 0
    ensures var after := a.(ships := a.ships[target := Damaged(a.ships[target], damage)]);
      && AlivePilots(after) <= AlivePilots(a)
      && AliveShips(after) <= AliveShips(a)
  {
    var after := a.(ships := a.ships[target := Damaged(a.ships[target], damage)]);
    DamageFacts(a.ships[target], damage);
    if a.ships[target].shield < 0 {
      assert Damaged(a.ships[target], damage).hull <= a.ships[target].hull;
    }
    assert AlivePilots(after) <= AlivePilots(a);
    SubsetCard(AlivePilots(after), AlivePilots(a));
  }

  lemma SubsetCard(s: set<string>, t: set<string>)
    requires s <= t
    ensures |s| <= |t|
  {
    if s != {} {
      var x :| x in s;
      SubsetCard(s - {x}, t - {x});
    }
  }

  /** `roll_rng`: the seed of the round's random draws. It depends on the
      arena seed and the round, and on nothing else. */
  function RngSeed(a: ArenaState): nat
  {
    a.seed + a.round
  }

  /** `advance_round`. */
  function Advanced(a: ArenaState): (r: ArenaState)
    ensures r.round == a.round + 1 && r.seed == a.seed && r.ships == a.ships
  {
    a.(round := a.round + 1)
  }

  /** Two arenas with the same seed and round draw the same numbers,
      whatever their ships; each round draws from a fresh seed. */
  lemma RngSeedFacts(a: ArenaState, b: ArenaState)
    ensures a.seed == b.seed && a.round == b.round ==> RngSeed(a) == RngSeed(b)
    ensures RngSeed(Advanced(a)) == RngSeed(a) + 1
  {
  }
}
