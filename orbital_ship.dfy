/** Ship blueprints of Orbital Sovereigns: the modules a ship is built
    from, its mass and its hull integrity. */
module OrbitalShip {
  import opened Wrappers

  datatype ModuleKind = Hull | Reactor | Thruster | Cannon | Shield | Hangar

  /** A module; its id, grid position and facing only feed the blueprint
      signature, which is not part of the model. */
  datatype ShipModule = ShipModule(kind: ModuleKind, power: nat, mass: nat)

  datatype ShipBlueprint = ShipBlueprint(name: string, modules: seq<ShipModule>, crew: nat, massOverride: Option<nat>)

  /** The sum of the modules' masses. */
  function ModuleMass(modules: seq<ShipModule>): nat
  {
    if modules == [] then 0 else ModuleMass(modules[..|modules| - 1]) + modules[|modules| - 1].mass
  }

  /** `total_mass`: the override when there is one, otherwise the sum of
      the module masses. */
  function TotalMass(b: ShipBlueprint): (m: nat)
    ensures b.massOverride.Some? ==> m == b.massOverride.value
    ensures b.massOverride.None? ==> m == ModuleMass(b.modules)
  {
    match b.massOverride
    case Some(m) => m
    case None => ModuleMass(b.modules)
  }

  /** Whether a module adds to hull integrity. */
  predicate Armours(m: ShipModule)
  {
    m.kind == Hull || m.kind == Shield
  }

  /** What one armouring module adds: three times its power, counting a
      power of zero as one. */
  function ArmourOf(m: ShipModule): nat
  {
    3 * (if m.power < 1 then 1 else m.power)
  }

  /** `hull_integrity`: the sum of `ArmourOf` over the Hull and Shield
      modules. */
  function HullIntegrity(modules: seq<ShipModule>): nat
  {
    if modules == [] then 0
    else
      var last := modules[|modules| - 1];
      HullIntegrity(modules[..|modules| - 1]) + (if Armours(last) then ArmourOf(last) else 0)
  }

  /** The Hull and Shield modules, in order. */
  function Armouring(modules: seq<ShipModule>): (r: seq<ShipModule>)
    ensures forall i :: 0 <= i < |r| ==> Armours(r[i])
    ensures |r| <= |modules|
  {
    if modules == [] then []
    else
      var last := modules[|modules| - 1];
      Armouring(modules[..|modules| - 1]) + (if Armours(last) then [last] else [])
  }

  /** The sum of `ArmourOf` over all the given modules. */
  function ArmourSum(modules: seq<ShipModule>): nat
  {
    if modules == [] then 0 else ArmourSum(modules[..|modules| - 1]) + ArmourOf(modules[|modules| - 1])
  }

  lemma {:induction false} ArmourSumAppend(a: seq<ShipModule>, b: seq<ShipModule>)
    ensures ArmourSum(a + b) == ArmourSum(a) + ArmourSum(b)
    decreases |b|
  {
    if b == [] {
      assert a + b == a;
    } else {
      assert (a + b)[..|a + b| - 1] == a + b[..|b| - 1];
      ArmourSumAppend(a, b[..|b| - 1]);
    }
  }

  /** Hull integrity counts exactly the Hull and Shield modules: it is the
      armour sum of those modules and nothing else, and at least three per
      such module. */
  lemma {:induction false} HullIntegrityOfArmouring(modules: seq<ShipModule>)
    ensures HullIntegrity(modules) == ArmourSum(Armouring(modules))
    ensures HullIntegrity(modules) >= 3 * |Armouring(modules)|
  {
    if modules != [] {
      var front := modules[..|modules| - 1];
      var last := modules[|modules| - 1];
      HullIntegrityOfArmouring(front);
      if Armours(last) {
        ArmourSumAppend(Armouring(front), [last]);
        assert [last][..0] == [];
      } else {
        assert Armouring(modules) == Armouring(front) + [];
        assert Armouring(front) + [] == Armouring(front);
      }
    }
  }

  /** Adding a module of any kind other than Hull or Shield leaves hull
      integrity as it is; adding one of those kinds adds its armour. */
  lemma AddModule(modules: seq<ShipModule>, m: ShipModule)
    ensures HullIntegrity(modules + [m]) == HullIntegrity(modules) + (if Armours(m) then ArmourOf(m) else 0)
  {
    assert (modules + [m])[..|modules|] == modules;
  }

  /** The module masses add up over a concatenation. */
  lemma {:induction false} ModuleMassAppend(a: seq<ShipModule>, b: seq<ShipModule>)
    ensures ModuleMass(a + b) == ModuleMass(a) + ModuleMass(b)
    decreases |b|
  {
    if b == [] {
      assert a + b == a;
    } else {
      assert (a + b)[..|a + b| - 1] == a + b[..|b| - 1];
      ModuleMassAppend(a, b[..|b| - 1]);
    }
  }
}
