/** The combat formula (option-b/internal/engine/combat.go). */
module Combat {
  import opened Config
  import opened State
  import opened Sums

  datatype CombatResult = CombatResult(attackerWon: bool, damage: int, attackerPower: int, defenderPower: int)

  function TerrainBonus(terrain: Terrain): int {
    match terrain
    case Fortress => 2
    case Mountains => 1
    case OtherTerrain => 0
  }

  // ----- power of a list of units --------------------------------------------

  /** What a leader adds to each ally; the code never counts a negative bonus. */
  function Boost(cfg: UnitConfig): nat {
    if cfg.leadership && cfg.leadershipBonus > 0 then cfg.leadershipBonus else 0
  }

  /** The best boost that the unit `id` of `side` gets out of a list of allies. */
  function BestBoost(id: string, side: Faction, allies: seq<Unit>, cfgs: seq<UnitConfig>): nat
    requires |allies| == |cfgs|
  {
    if allies == [] then 0
    else
      var n := |allies| - 1;
      var best := BestBoost(id, side, allies[..n], cfgs[..n]);
      if allies[n].id != id && cfgs[n].side == side && Boost(cfgs[n]) > best then Boost(cfgs[n]) else best
  }

  method EffectiveStrength(unit: Unit, unitCfg: UnitConfig, allies: seq<Unit>, cfgs: seq<UnitConfig>) returns (eff: int)
    requires |allies| == |cfgs|
    ensures eff == unit.strength + BestBoost(unit.id, unitCfg.side, allies, cfgs)
  {
    var base := unit.strength;
    var bonus := 0;
    for i := 0 to |allies|
      invariant bonus == BestBoost(unit.id, unitCfg.side, allies[..i], cfgs[..i])
    {
      assert allies[..i + 1][..i] == allies[..i] && cfgs[..i + 1][..i] == cfgs[..i];
      if allies[i].id == unit.id {
        continue;
      }
      var cfg := cfgs[i];
      if cfg.leadership && cfg.side == unitCfg.side {
        if cfg.leadershipBonus > bonus {
          bonus := cfg.leadershipBonus;
        }
      }
    }
    assert allies[..|allies|] == allies && cfgs[..|cfgs|] == cfgs;
    eff := base + bonus;
  }

  /** The power of the first units of an army whose members are `allies`. */
  function ListPower(units: seq<Unit>, cfgs: seq<UnitConfig>, allies: seq<Unit>, allyCfgs: seq<UnitConfig>): int
    requires |units| == |cfgs| && |allies| == |allyCfgs|
  {
    if units == [] then 0
    else
      var n := |units| - 1;
      ListPower(units[..n], cfgs[..n], allies, allyCfgs)
      + units[n].strength + BestBoost(units[n].id, cfgs[n].side, allies, allyCfgs)
  }

  method TotalPower(units: seq<Unit>, cfgs: seq<UnitConfig>) returns (power: int)
    requires |units| == |cfgs|
    ensures power == ListPower(units, cfgs, units, cfgs)
  {
    power := 0;
    for i := 0 to |units|
      invariant power == ListPower(units[..i], cfgs[..i], units, cfgs)
    {
      assert units[..i + 1][..i] == units[..i] && cfgs[..i + 1][..i] == cfgs[..i];
      var eff := EffectiveStrength(units[i], cfgs[i], units, cfgs);
      power := power + eff;
    }
    assert units[..|units|] == units && cfgs[..|cfgs|] == cfgs;
  }

  predicate AnyIgnoresFortress(cfgs: seq<UnitConfig>) {
    exists i :: 0 <= i < |cfgs| && cfgs[i].ignoresFortress
  }

  /** What ground and walls add to the defence. */
  function Entrenchment(ignoresFortress: bool, terrain: Terrain, fortified: bool): int {
    (if ignoresFortress then 0 else TerrainBonus(terrain)) + (if fortified then 2 else 0)
  }

  /** What the comment beside the code says instead: only at a fortress, and only
      if all attackers ignore it. */
  function CommentedEntrenchment(cfgs: seq<UnitConfig>, terrain: Terrain, fortified: bool): int {
    Entrenchment(terrain == Fortress && AllIgnoreFortress(cfgs), terrain, fortified)
  }

  predicate AllIgnoreFortress(cfgs: seq<UnitConfig>) {
    forall i | 0 <= i < |cfgs| :: cfgs[i].ignoresFortress
  }

  /** Exactly when the code does what its comment says. */
  lemma CommentHoldsIf(cfgs: seq<UnitConfig>, terrain: Terrain, fortified: bool)
    ensures var some := AnyIgnoresFortress(cfgs);
            Entrenchment(some, terrain, fortified) == CommentedEntrenchment(cfgs, terrain, fortified)
            <==> || terrain == OtherTerrain
                 || (terrain == Mountains && !some)
                 || (terrain == Fortress && (some <==> AllIgnoreFortress(cfgs)))
  {}

  /** It does not for one of two attackers at a fortress, nor for one in the mountains. */
  lemma CommentFails()
    ensures var one, two := [ZERO_UNIT.(ignoresFortress := true)], [ZERO_UNIT.(ignoresFortress := true), ZERO_UNIT];
            && Entrenchment(AnyIgnoresFortress(two), Fortress, false) == 0
            && CommentedEntrenchment(two, Fortress, false) == 2
            && Entrenchment(AnyIgnoresFortress(one), Mountains, false) == 0
            && CommentedEntrenchment(one, Mountains, false) == 1
  {
    var one, two := [ZERO_UNIT.(ignoresFortress := true)], [ZERO_UNIT.(ignoresFortress := true), ZERO_UNIT];
    assert one[0].ignoresFortress && two[0].ignoresFortress && !two[1].ignoresFortress;
  }

  method ResolveAttack(
      attackers: seq<Unit>, attackerCfgs: seq<UnitConfig>, defenders: seq<Unit>, defenderCfgs: seq<UnitConfig>,
      defenderRegion: Region, regionCfg: RegionConfig)
    returns (r: CombatResult)
    requires |attackers| == |attackerCfgs| && |defenders| == |defenderCfgs|
    ensures r.attackerPower == ListPower(attackers, attackerCfgs, attackers, attackerCfgs)
    ensures r.defenderPower == ListPower(defenders, defenderCfgs, defenders, defenderCfgs)
              + Entrenchment(AnyIgnoresFortress(attackerCfgs), regionCfg.terrain, defenderRegion.fortified)
    ensures r.attackerWon <==> r.attackerPower > r.defenderPower
    ensures r.damage == if r.attackerWon then r.attackerPower - r.defenderPower else 0
  {
    var attackerPower := TotalPower(attackers, attackerCfgs);
    var defenderPower := TotalPower(defenders, defenderCfgs);
    var anyIgnoresFortress := false;
    for i := 0 to |attackerCfgs|
      invariant !anyIgnoresFortress && forall k | 0 <= k < i :: !attackerCfgs[k].ignoresFortress
    {
      if attackerCfgs[i].ignoresFortress {
        anyIgnoresFortress := true;
        break;
      }
    }
    if !anyIgnoresFortress {
      defenderPower := defenderPower + TerrainBonus(regionCfg.terrain);
    }
    if defenderRegion.fortified {
      defenderPower := defenderPower + 2;
    }
    if attackerPower > defenderPower {
      return CombatResult(true, attackerPower - defenderPower, attackerPower, defenderPower);
    }
    r := CombatResult(false, 0, attackerPower, defenderPower);
  }

  // ----- power of an army, whatever the order of its list --------------------

  predicate DistinctIds(units: seq<Unit>) {
    forall i, j | 0 <= i < j < |units| :: units[i].id != units[j].id
  }

  predicate OneSide(cfgs: seq<UnitConfig>, side: Faction) {
    forall c | c in cfgs :: c.side == side
  }

  function StrengthsOf(units: seq<Unit>): map<string, int> {
    if units == [] then map[]
    else StrengthsOf(units[..|units| - 1])[units[|units| - 1].id := units[|units| - 1].strength]
  }

  function BoostsOf(units: seq<Unit>, cfgs: seq<UnitConfig>): map<string, int>
    requires |units| == |cfgs|
  {
    if units == [] then map[]
    else
      var n := |units| - 1;
      BoostsOf(units[..n], cfgs[..n])[units[n].id := Boost(cfgs[n])]
  }

  /** Everyone fights with his own strength and the best boost of somebody else. */
  ghost function ArmyPower(strengths: map<string, int>, boosts: map<string, int>): int {
    Sum(strengths) + Sum(TopsWithoutOne(boosts))
  }

  lemma {:induction false} KeysOf(units: seq<Unit>, cfgs: seq<UnitConfig>)
    requires |units| == |cfgs|
    ensures forall id :: id in StrengthsOf(units) <==> exists i :: 0 <= i < |units| && units[i].id == id
    ensures BoostsOf(units, cfgs).Keys == StrengthsOf(units).Keys
    ensures forall id | id in BoostsOf(units, cfgs) :: BoostsOf(units, cfgs)[id] >= 0
  {
    if units != [] {
      var n := |units| - 1;
      KeysOf(units[..n], cfgs[..n]);
      forall id ensures id in StrengthsOf(units) <==> exists i :: 0 <= i < |units| && units[i].id == id {
        if i :| 0 <= i < n && units[i].id == id { assert units[..n][i].id == id; }
      }
    }
  }

  lemma {:induction false} BestBoostIsTop(id: string, side: Faction, units: seq<Unit>, cfgs: seq<UnitConfig>)
    requires |units| == |cfgs| && DistinctIds(units) && OneSide(cfgs, side)
    ensures IsTop(BoostsOf(units, cfgs) - {id}, BestBoost(id, side, units, cfgs))
  {
    if units != [] {
      var n := |units| - 1;
      var init, initCfgs := units[..n], cfgs[..n];
      BestBoostIsTop(id, side, init, initCfgs);
      KeysOf(init, initCfgs);
      var before := BoostsOf(init, initCfgs) - {id};
      var after := BoostsOf(units, cfgs) - {id};
      assert cfgs[n] in cfgs;
      assert units[n].id !in before;
      if units[n].id == id {
        assert after == before;
      } else {
        assert after == before[units[n].id := Boost(cfgs[n])];
        TopAdd(before, units[n].id, Boost(cfgs[n]), BestBoost(id, side, init, initCfgs));
      }
    }
  }

  lemma TopAdd(m: map<string, int>, k: string, x: nat, t: int)
    requires IsTop(m, t) && k !in m
    ensures IsTop(m[k := x], if x > t then x else t)
  {
    var m' := m[k := x];
    assert k in m' && m'[k] == x;
    if t > x {
      var j :| j in m && m[j] == t;
      assert j in m' && m'[j] == t;
    }
  }

  ghost function TopsFor(ids: set<string>, boosts: map<string, int>): map<string, int> {
    map id | id in ids :: Top(boosts - {id})
  }

  /** What the code adds up unit by unit is the power of the army. */
  lemma ListPowerIsArmyPower(units: seq<Unit>, cfgs: seq<UnitConfig>, side: Faction)
    requires |units| == |cfgs| && DistinctIds(units) && OneSide(cfgs, side)
    ensures ListPower(units, cfgs, units, cfgs) == ArmyPower(StrengthsOf(units), BoostsOf(units, cfgs))
  {
    var boosts := BoostsOf(units, cfgs);
    KeysOf(units, cfgs);
    PrefixPower(units, cfgs, side, |units|);
    assert units[..|units|] == units && cfgs[..|cfgs|] == cfgs;
    assert TopsFor(StrengthsOf(units).Keys, boosts) == TopsWithoutOne(boosts);
  }

  lemma {:induction false} PrefixPower(units: seq<Unit>, cfgs: seq<UnitConfig>, side: Faction, n: nat)
    requires |units| == |cfgs| && DistinctIds(units) && OneSide(cfgs, side)
    requires n <= |units|
    ensures var boosts := BoostsOf(units, cfgs);
            var first := StrengthsOf(units[..n]);
            ListPower(units[..n], cfgs[..n], units, cfgs) == Sum(first) + Sum(TopsFor(first.Keys, boosts))
  {
    hide Sum, Top, IsTop, BestBoost;
    if n == 0 {
      SumOfNothing<string>();
      assert TopsFor({}, BoostsOf(units, cfgs)) == map[];
    } else {
      PrefixPower(units, cfgs, side, n - 1);
      var boosts := BoostsOf(units, cfgs);
      var u := units[n - 1];
      var init := StrengthsOf(units[..n - 1]);
      assert units[..n][..n - 1] == units[..n - 1] && cfgs[..n][..n - 1] == cfgs[..n - 1];
      KeysOf(units[..n - 1], cfgs[..n - 1]);
      assert u.id !in init;
      assert StrengthsOf(units[..n]) == init[u.id := u.strength];
      SumAdd(init, u.id, u.strength);
      TopsForAdd(init.Keys, boosts, u.id);
      assert init[u.id := u.strength].Keys == init.Keys + {u.id};
      assert cfgs[n - 1] in cfgs;
      BestBoostIsTop(u.id, side, units, cfgs);
      TopIsUnique(boosts - {u.id}, BestBoost(u.id, side, units, cfgs));
    }
  }

  lemma TopsForAdd(ids: set<string>, boosts: map<string, int>, id: string)
    requires id !in ids
    ensures Sum(TopsFor(ids + {id}, boosts)) == Sum(TopsFor(ids, boosts)) + Top(boosts - {id})
  {
    hide Sum, Top;
    SumAdd(TopsFor(ids, boosts), id, Top(boosts - {id}));
    assert TopsFor(ids + {id}, boosts) == TopsFor(ids, boosts)[id := Top(boosts - {id})];
  }

  lemma TopIsUnique(m: map<string, int>, t: int)
    requires IsTop(m, t)
    ensures Top(m) == t
  {}

  /** The closed form: strengths, the best boost for all but its owner, and the
      second best for the owner. */
  lemma ArmyPowerClosedForm(strengths: map<string, int>, boosts: map<string, int>)
    requires strengths.Keys == boosts.Keys && boosts != map[]
    requires forall id | id in boosts :: boosts[id] >= 0
    ensures ArmyPower(strengths, boosts) == Sum(strengths) + (|boosts| - 1) * Top(boosts) + Second(boosts)
  {
    SumOfTopsWithoutOne(boosts);
  }

  /** Closed form of what the code computes for n units of one side. */
  lemma CombatPowerClosedForm(units: seq<Unit>, cfgs: seq<UnitConfig>, side: Faction)
    requires |units| == |cfgs| >= 1 && DistinctIds(units) && OneSide(cfgs, side)
    ensures var boosts := BoostsOf(units, cfgs);
            ListPower(units, cfgs, units, cfgs)
            == Sum(StrengthsOf(units)) + (|units| - 1) * Top(boosts) + Second(boosts)
  {
    hide Sum, Top, Second, ListPower;
    var boosts := BoostsOf(units, cfgs);
    KeysOf(units, cfgs);
    ListPowerIsArmyPower(units, cfgs, side);
    assert units[0].id in StrengthsOf(units);
    ArmyPowerClosedForm(StrengthsOf(units), boosts);
    SizeOf(units, cfgs);
  }

  lemma {:induction false} SizeOf(units: seq<Unit>, cfgs: seq<UnitConfig>)
    requires |units| == |cfgs| && DistinctIds(units)
    ensures |BoostsOf(units, cfgs)| == |units|
  {
    if units != [] {
      var n := |units| - 1;
      SizeOf(units[..n], cfgs[..n]);
      KeysOf(units[..n], cfgs[..n]);
      assert units[n].id !in BoostsOf(units[..n], cfgs[..n]);
    }
  }

  /** Reordering the units, with their configurations, does not change the power. */
  lemma PowerIgnoresOrder(a: seq<Unit>, aCfgs: seq<UnitConfig>, b: seq<Unit>, bCfgs: seq<UnitConfig>, side: Faction)
    requires |a| == |aCfgs| && DistinctIds(a) && OneSide(aCfgs, side)
    requires |b| == |bCfgs| && DistinctIds(b) && OneSide(bCfgs, side)
    requires forall u, c :: Listed(u, c, a, aCfgs) <==> Listed(u, c, b, bCfgs)
    ensures ListPower(a, aCfgs, a, aCfgs) == ListPower(b, bCfgs, b, bCfgs)
  {
    hide ListPower, Sum, Listed, DistinctIds;
    ListPowerIsArmyPower(a, aCfgs, side);
    ListPowerIsArmyPower(b, bCfgs, side);
    MusterIn(a, aCfgs, b, bCfgs);
    MusterIn(b, bCfgs, a, aCfgs);
    assert StrengthsOf(a) == StrengthsOf(b) && BoostsOf(a, aCfgs) == BoostsOf(b, bCfgs);
  }

  lemma MusterIn(a: seq<Unit>, aCfgs: seq<UnitConfig>, b: seq<Unit>, bCfgs: seq<UnitConfig>)
    requires |a| == |aCfgs| && DistinctIds(a)
    requires |b| == |bCfgs| && DistinctIds(b)
    requires forall u, c :: Listed(u, c, a, aCfgs) ==> Listed(u, c, b, bCfgs)
    ensures forall id | id in StrengthsOf(a) :: id in StrengthsOf(b) && StrengthsOf(a)[id] == StrengthsOf(b)[id]
    ensures forall id | id in BoostsOf(a, aCfgs) ::
              id in BoostsOf(b, bCfgs) && BoostsOf(a, aCfgs)[id] == BoostsOf(b, bCfgs)[id]
  {
    KeysOf(a, aCfgs);
    forall id | id in StrengthsOf(a)
      ensures id in StrengthsOf(b) && StrengthsOf(a)[id] == StrengthsOf(b)[id]
      ensures id in BoostsOf(b, bCfgs) && BoostsOf(a, aCfgs)[id] == BoostsOf(b, bCfgs)[id]
    {
      var i :| 0 <= i < |a| && a[i].id == id;
      assert Listed(a[i], aCfgs[i], a, aCfgs);
      var j :| 0 <= j < |b| && b[j] == a[i] && bCfgs[j] == aCfgs[i];
      ValuesAt(a, aCfgs, i);
      ValuesAt(b, bCfgs, j);
    }
  }

  ghost predicate Listed(u: Unit, c: UnitConfig, units: seq<Unit>, cfgs: seq<UnitConfig>)
    requires |units| == |cfgs|
  {
    exists i :: 0 <= i < |units| && units[i] == u && cfgs[i] == c
  }

  lemma {:induction false} ValuesAt(units: seq<Unit>, cfgs: seq<UnitConfig>, i: nat)
    requires |units| == |cfgs| && DistinctIds(units) && i < |units|
    ensures units[i].id in StrengthsOf(units) && StrengthsOf(units)[units[i].id] == units[i].strength
    ensures units[i].id in BoostsOf(units, cfgs) && BoostsOf(units, cfgs)[units[i].id] == Boost(cfgs[i])
  {
    var n := |units| - 1;
    if i < n {
      ValuesAt(units[..n], cfgs[..n], i);
    }
  }

  /** An ally of non-negative strength never lowers the power. */
  lemma ReinforcementNeverHurts(
      strengths: map<string, int>, boosts: map<string, int>, id: string, strength: nat, boost: nat)
    requires strengths.Keys == boosts.Keys && id !in boosts
    ensures ArmyPower(strengths[id := strength], boosts[id := boost]) >= ArmyPower(strengths, boosts)
  {
    var boosts' := boosts[id := boost];
    SumAdd(strengths, id, strength);
    var tops, tops' := TopsWithoutOne(boosts), TopsWithoutOne(boosts');
    SumRemove(tops', id);
    forall k | k in tops ensures tops[k] <= (tops' - {id})[k] {
      TopMonotone(boosts - {k}, boosts' - {k});
    }
    SumMonotone(tops, tops' - {id});
  }

  /** The same for the list the code adds up: one more unit of the same side. */
  lemma ReinforcedListIsNoWeaker(units: seq<Unit>, cfgs: seq<UnitConfig>, side: Faction, u: Unit, cfg: UnitConfig)
    requires |units| == |cfgs| && DistinctIds(units + [u]) && OneSide(cfgs + [cfg], side)
    requires u.strength >= 0
    ensures ListPower(units + [u], cfgs + [cfg], units + [u], cfgs + [cfg]) >= ListPower(units, cfgs, units, cfgs)
  {
    hide ListPower, ArmyPower, StrengthsOf, BoostsOf, DistinctIds;
    OneMoreListed(units, cfgs, side, u, cfg);
    ListPowerIsArmyPower(units, cfgs, side);
    ListPowerIsArmyPower(units + [u], cfgs + [cfg], side);
    ReinforcementNeverHurts(StrengthsOf(units), BoostsOf(units, cfgs), u.id, u.strength, Boost(cfg));
  }

  lemma OneMoreListed(units: seq<Unit>, cfgs: seq<UnitConfig>, side: Faction, u: Unit, cfg: UnitConfig)
    requires |units| == |cfgs| && DistinctIds(units + [u]) && OneSide(cfgs + [cfg], side)
    ensures DistinctIds(units) && OneSide(cfgs, side)
    ensures StrengthsOf(units + [u]) == StrengthsOf(units)[u.id := u.strength]
    ensures BoostsOf(units + [u], cfgs + [cfg]) == BoostsOf(units, cfgs)[u.id := Boost(cfg)]
    ensures StrengthsOf(units).Keys == BoostsOf(units, cfgs).Keys && u.id !in BoostsOf(units, cfgs)
  {
    var more, moreCfgs := units + [u], cfgs + [cfg];
    assert more[..|units|] == units && moreCfgs[..|cfgs|] == cfgs;
    forall i | 0 <= i < |units| ensures more[i] == units[i] && more[i].id != more[|units|].id {}
    forall c | c in cfgs ensures c in moreCfgs {}
    KeysOf(units, cfgs);
  }

  // ----- damage --------------------------------------------------------------

  /** Damage to one unit: the indestructible stay standing with at least 1,
      the others fall at 0, either to return later or for good. */
  function ApplyDamage(u: Unit, cfg: UnitConfig, damage: int): (r: Unit)
    ensures r.id == u.id && r.cooldown == u.cooldown && r.route == u.route && r.routeIdx == u.routeIdx
    ensures cfg.indestructible ==> r.status == Active && r.strength >= 1
    ensures u.strength >= 1 && u.status == Active && damage >= 0 ==>
              (r.status == Active ==> 1 <= r.strength <= u.strength) && (r.status != Active ==> r.strength == 0)
    ensures !cfg.indestructible && damage < u.strength ==> r == u.(strength := u.strength - damage)
    ensures !cfg.indestructible && damage >= u.strength ==>
              && r.strength == 0 && r.status == (if cfg.respawns then Respawning else Destroyed)
              && (cfg.respawns ==> r.respawnTurns == cfg.respawnTurns && r.region == "")
              && (!cfg.respawns ==> r.respawnTurns == u.respawnTurns && r.region == u.region)
  {
    var raw := u.strength - damage;
    if cfg.indestructible then
      u.(strength := if raw < 1 then 1 else raw, status := Active)
    else if raw <= 0 then
      if cfg.respawns then
        u.(strength := 0, status := Respawning, respawnTurns := cfg.respawnTurns, region := "")
      else
        u.(strength := 0, status := Destroyed)
    else
      u.(strength := raw)
  }
}
