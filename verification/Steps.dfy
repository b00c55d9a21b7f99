/** What each step of a turn does to the game state, as functions of the state
    and the orders (option-b/internal/engine/turn_processor.go and detection.go).

    None of these functions has a place for the order in which Go's maps are
    traversed. Module Processor shows that the loops, which take the keys in
    any order, compute exactly these functions. */
module Steps {
  import opened Walks
  import opened Config
  import opened State
  import opened Combat
  import opened Maia

  /** Everything a turn reads but never writes. */
  datatype Rules = Rules(g: GameConfig, m: MapConfig, adj: Adjacency)

  // ----- step 2: routes ------------------------------------------------------

  predicate IsRouteOrder(o: Order) { o.kind == AssignRoute || o.kind == RedirectUnit }

  predicate IsRingBearer(g: GameConfig, id: string) { UnitCfg(g, id).class_ == RingBearer }

  function RouteOrder(g: GameConfig, units: Units, rb: RingBearerState, o: Order): (Units, RingBearerState) {
    if IsRouteOrder(o) && o.unit in units && units[o.unit].status == Active then
      ( units[o.unit := units[o.unit].(route := o.pathIds, routeIdx := 0, travelPath := "", travelLeft := 0)],
        if IsRingBearer(g, o.unit)
        then rb.(route := o.pathIds, routeIdx := 0, travelPath := "", travelLeft := 0) else rb )
    else (units, rb)
  }

  function RouteOrders(g: GameConfig, units: Units, rb: RingBearerState, orders: seq<Order>): (Units, RingBearerState) {
    if orders == [] then (units, rb)
    else
      var (us, r) := RouteOrders(g, units, rb, orders[..|orders| - 1]);
      RouteOrder(g, us, r, orders[|orders| - 1])
  }

  // ----- step 3: blocking and searching --------------------------------------

  predicate IsGuard(g: GameConfig, units: Units, id: string, p: PathConfig, blockerSide: Faction)
    requires id in units
  {
    && units[id].status == Active
    && id in g.units && g.units[id].side != blockerSide && g.units[id].class_ == FellowshipGuard
    && AtEndpoint(units[id].region, p)
  }

  predicate Guarded(g: GameConfig, units: Units, p: PathConfig, blockerSide: Faction) {
    exists id :: id in units && IsGuard(g, units, id, p, blockerSide)
  }

  function StatusFromSurveillance(p: Path): PathStatus {
    if p.surveillance > 0 then Threatened else Open
  }

  function BlockPathOrder(g: GameConfig, m: MapConfig, units: Units, p: Path, o: Order): Path {
    var pc := PathCfg(m, o.targetPath);
    if AtEndpoint(UnitAt(units, o.unit).region, pc) && !Guarded(g, units, pc, UnitCfg(g, o.unit).side)
    then p.(status := Blocked, blockedBy := o.unit) else p
  }

  function SearchPathOrder(p: Path): Path {
    var level := if p.surveillance < 3 then p.surveillance + 1 else p.surveillance;
    p.(surveillance := level, status := if p.status == Open && level > 0 then Threatened else p.status)
  }

  function PathOrder(g: GameConfig, m: MapConfig, units: Units, paths: Paths, o: Order): Paths {
    if o.targetPath !in paths then paths
    else if o.kind == BlockPath then paths[o.targetPath := BlockPathOrder(g, m, units, paths[o.targetPath], o)]
    else if o.kind == SearchPath then paths[o.targetPath := SearchPathOrder(paths[o.targetPath])]
    else paths
  }

  function PathOrders(g: GameConfig, m: MapConfig, units: Units, paths: Paths, orders: seq<Order>): Paths {
    if orders == [] then paths
    else PathOrder(g, m, units, PathOrders(g, m, units, paths, orders[..|orders| - 1]), orders[|orders| - 1])
  }

  /** A blocked path opens again once its blocker stands at neither end. */
  function ReleasePath(m: MapConfig, units: Units, id: string, p: Path): Path {
    if p.status == Blocked && p.blockedBy != ""
       && (p.blockedBy !in units || !AtEndpoint(units[p.blockedBy].region, PathCfg(m, id)))
    then p.(status := StatusFromSurveillance(p), blockedBy := "") else p
  }

  function ReleasePaths(m: MapConfig, units: Units, paths: Paths): Paths {
    map id | id in paths :: ReleasePath(m, units, id, paths[id])
  }

  function BlockAndSearch(g: GameConfig, m: MapConfig, units: Units, paths: Paths, orders: seq<Order>): Paths {
    ReleasePaths(m, units, PathOrders(g, m, units, paths, orders))
  }

  // ----- step 4: reinforcing and deploying -----------------------------------

  predicate Adjacent(adj: Adjacency, from: string, to: string) {
    exists e :: e in EdgesFrom(adj, from) && e.to == to
  }

  function MoveTo(u: Unit, region: string): Unit {
    u.(region := region, travelPath := "", travelLeft := 0)
  }

  function MoveOrder(g: GameConfig, adj: Adjacency, units: Units, o: Order): Units {
    if o.unit !in units then units
    else if || (o.kind == ReinforceRegion && Adjacent(adj, units[o.unit].region, o.targetRegion))
            || (o.kind == DeployNazgul && UnitCfg(g, o.unit).detectionRange > 0)
    then units[o.unit := MoveTo(units[o.unit], o.targetRegion)]
    else units
  }

  function MoveOrders(g: GameConfig, adj: Adjacency, units: Units, orders: seq<Order>): Units {
    if orders == [] then units
    else MoveOrder(g, adj, MoveOrders(g, adj, units, orders[..|orders| - 1]), orders[|orders| - 1])
  }

  // ----- step 5: fortifying --------------------------------------------------

  function FortifyOrder(g: GameConfig, units: Units, regions: Regions, o: Order): Regions {
    var at := UnitAt(units, o.unit).region;
    if o.kind == FortifyRegion && UnitCfg(g, o.unit).canFortify && at in regions
    then regions[at := regions[at].(fortified := true, fortifyTurns := 2)]
    else regions
  }

  function FortifyOrders(g: GameConfig, units: Units, regions: Regions, orders: seq<Order>): Regions {
    if orders == [] then regions
    else FortifyOrder(g, units, FortifyOrders(g, units, regions, orders[..|orders| - 1]), orders[|orders| - 1])
  }

  // ----- step 6: Maia abilities ----------------------------------------------

  predicate IsCorruptPathMaia(g: GameConfig, id: string) {
    id in g.units && g.units[id].maia && g.units[id].maiaAbilityPaths != []
  }

  function CorruptPathMaias(g: GameConfig): set<string> {
    set id | id in g.units && IsCorruptPathMaia(g, id)
  }

  /** The dispatch of the Maia order `o` in the given state. */
  function MaiaOutcome(
      g: GameConfig, m: MapConfig, units: Units, paths: Paths, disabled: set<string>, o: Order): MaiaResult
    requires o.unit in units && o.targetPath in paths
  {
    DispatchMaiaAbility(
      units[o.unit], UnitCfg(g, o.unit), o.targetPath, paths[o.targetPath], PathCfg(m, o.targetPath),
      IsCorruptPathMaia(g, o.unit) && o.unit in disabled)
  }

  predicate MaiaSucceeds(g: GameConfig, m: MapConfig, units: Units, paths: Paths, disabled: set<string>, o: Order) {
    && o.kind == MaiaAbility && o.unit in units && o.targetPath in paths
    && MaiaOutcome(g, m, units, paths, disabled, o).Applied?
  }

  function MaiaPath(effect: MaiaEffect, p: Path): Path {
    match effect
    case OpenPath => p.(status := TemporarilyOpen, tempOpenTurns := 2)
    case CorruptPath => p.(surveillance := 3)
  }

  function MaiaOrder(
      g: GameConfig, m: MapConfig, units: Units, paths: Paths, disabled: set<string>, o: Order): (Units, Paths)
  {
    if MaiaSucceeds(g, m, units, paths, disabled, o) then
      ( units[o.unit := units[o.unit].(cooldown := UnitCfg(g, o.unit).cooldown)],
        paths[o.targetPath := MaiaPath(MaiaOutcome(g, m, units, paths, disabled, o).effect, paths[o.targetPath])] )
    else (units, paths)
  }

  function MaiaOrders(
      g: GameConfig, m: MapConfig, units: Units, paths: Paths, disabled: set<string>, orders: seq<Order>)
    : (Units, Paths)
  {
    if orders == [] then (units, paths)
    else
      var (us, ps) := MaiaOrders(g, m, units, paths, disabled, orders[..|orders| - 1]);
      MaiaOrder(g, m, us, ps, disabled, orders[|orders| - 1])
  }

  // ----- step 7: travelling --------------------------------------------------

  /** A traveller: where he is, his route, and the long path he is under way on. */
  datatype Traveller = Traveller(region: string, route: seq<string>, idx: int, path: string, left: int)

  predicate UnderWay(t: Traveller) { 0 <= t.idx < |t.route| }

  function Arrive(m: MapConfig, t: Traveller): Traveller
    requires UnderWay(t)
  {
    t.(region := OtherEnd(t.region, PathCfg(m, t.route[t.idx])), idx := t.idx + 1)
  }

  /** One turn of travel. A path of cost c takes c turns, and at least one; once
      started it is completed even if the path is blocked meanwhile. */
  function Travel(m: MapConfig, paths: Paths, t: Traveller): Traveller {
    if !UnderWay(t) || t.route[t.idx] !in paths then t
    else
      var next := t.route[t.idx];
      if t.path == next && t.left > 0 then
        if t.left == 1 then Arrive(m, t).(path := "", left := 0) else t.(left := t.left - 1)
      else if paths[next].status == Blocked then t
      else if PathCfg(m, next).cost <= 1 then Arrive(m, t)
      else t.(path := next, left := PathCfg(m, next).cost - 1)
  }

  function UnitTraveller(u: Unit): Traveller {
    Traveller(u.region, u.route, u.routeIdx, u.travelPath, u.travelLeft)
  }

  function AdvanceUnit(m: MapConfig, paths: Paths, u: Unit): Unit {
    if u.status != Active then u
    else
      var t := Travel(m, paths, UnitTraveller(u));
      u.(region := t.region, routeIdx := t.idx, travelPath := t.path, travelLeft := t.left)
  }

  function AdvanceUnits(m: MapConfig, paths: Paths, units: Units): Units {
    map id | id in units :: AdvanceUnit(m, paths, units[id])
  }

  datatype Event =
    | Spotted(path: string, turn: int)
    | Moved(region: string, turn: int)
    | Detected(region: string, turn: int)
    | WorldState(turn: int)
    | SessionTurn(turn: int)
    | GameOver(winner: Winner, turn: int)
    | SessionOver(winner: Winner, turn: int)

  predicate ExposedBySurveillance(p: Path, turn: int, hiddenUntil: int) {
    turn > hiddenUntil && p.surveillance >= 1
  }

  function RbTraveller(rb: RingBearerState): Traveller {
    Traveller(rb.trueRegion, rb.route, rb.routeIdx, rb.travelPath, rb.travelLeft)
  }

  /** The Ring Bearer travels like any unit, but crossing a watched path shows him. */
  function AdvanceRingBearer(
      g: GameConfig, m: MapConfig, paths: Paths, rb: RingBearerState, turn: int): (RingBearerState, seq<Event>)
  {
    var before := RbTraveller(rb);
    var t := Travel(m, paths, before);
    var moved := rb.(trueRegion := t.region, routeIdx := t.idx, travelPath := t.path, travelLeft := t.left);
    if t.idx == before.idx then (moved, [])
    else
      var spotted := ExposedBySurveillance(paths[before.route[before.idx]], turn, g.hiddenUntilTurn);
      ( moved.(exposed := rb.exposed || spotted),
        (if spotted then [Spotted(before.route[before.idx], turn)] else []) + [Moved(t.region, turn)] )
  }

  // ----- step 8: combat ------------------------------------------------------

  function Friends(g: GameConfig, units: Units, region: string, side: Faction): set<string> {
    set id | id in units && units[id].status == Active && units[id].region == region && UnitCfg(g, id).side == side
  }

  function Foes(g: GameConfig, units: Units, region: string, side: Faction): set<string> {
    set id | id in units && units[id].status == Active && units[id].region == region && UnitCfg(g, id).side != side
  }

  function Strengths(units: Units, ids: set<string>): map<string, int> {
    map id | id in ids && id in units :: units[id].strength
  }

  function Boosts(g: GameConfig, ids: set<string>): map<string, int> {
    map id | id in ids :: Boost(UnitCfg(g, id))
  }

  ghost function PowerOf(g: GameConfig, units: Units, ids: set<string>): int {
    ArmyPower(Strengths(units, ids), Boosts(g, ids))
  }

  predicate SomeIgnoreFortress(g: GameConfig, ids: set<string>) {
    exists id :: id in ids && UnitCfg(g, id).ignoresFortress
  }

  /** Who attacks whom in an attack order, and with what power on either side. */
  datatype Battle = Battle(side: Faction, attackers: set<string>, defenders: set<string>, attack: int, defence: int) {
    predicate Won() { attack > defence }
  }

  ghost function BattleOf(g: GameConfig, m: MapConfig, units: Units, region: Region, o: Order): Battle {
    var side := UnitCfg(g, o.unit).side;
    var attackers := Friends(g, units, UnitAt(units, o.unit).region, side);
    var defenders := Foes(g, units, o.targetRegion, side);
    Battle(side, attackers, defenders,
           PowerOf(g, units, attackers),
           PowerOf(g, units, defenders)
           + Entrenchment(SomeIgnoreFortress(g, attackers), RegionCfg(m, o.targetRegion).terrain, region.fortified))
  }

  function AfterBattle(g: GameConfig, b: Battle, target: string, id: string, u: Unit): Unit {
    if b.Won() then
      if id in b.attackers then MoveTo(u, target)
      else if id in b.defenders then ApplyDamage(u, UnitCfg(g, id), b.attack - b.defence)
      else u
    else if id in b.attackers then ApplyDamage(u, UnitCfg(g, id), 1)
    else u
  }

  datatype Front = Front(units: Units, regions: Regions, disabled: set<string>)

  ghost function AttackOrder(g: GameConfig, m: MapConfig, f: Front, o: Order): Front {
    if o.kind != AttackRegion || o.targetRegion !in f.regions then f
    else
      var region := f.regions[o.targetRegion];
      var b := BattleOf(g, m, f.units, region, o);
      Front(
        map id | id in f.units :: AfterBattle(g, b, o.targetRegion, id, f.units[id]),
        f.regions[o.targetRegion := if b.Won() then region.(controlledBy := b.side) else region],
        if b.Won() && o.targetRegion == ISENGARD && b.side == FreePeoples
        then f.disabled + CorruptPathMaias(g) else f.disabled)
  }

  ghost function AttackOrders(g: GameConfig, m: MapConfig, f: Front, orders: seq<Order>): Front {
    if orders == [] then f
    else AttackOrder(g, m, AttackOrders(g, m, f, orders[..|orders| - 1]), orders[|orders| - 1])
  }

  // ----- steps 9 to 11: timers -----------------------------------------------

  function TickPath(p: Path): Path {
    if p.status != TemporarilyOpen then p
    else if p.tempOpenTurns - 1 <= 0 then
      p.(status := if p.blockedBy != "" then Blocked else StatusFromSurveillance(p), tempOpenTurns := 0)
    else p.(tempOpenTurns := p.tempOpenTurns - 1)
  }

  function TickPaths(paths: Paths): Paths {
    map id | id in paths :: TickPath(paths[id])
  }

  function TickRegion(r: Region): Region {
    if !r.fortified then r
    else r.(fortifyTurns := r.fortifyTurns - 1, fortified := r.fortifyTurns - 1 > 0)
  }

  function TickRegions(regions: Regions): Regions {
    map id | id in regions :: TickRegion(regions[id])
  }

  function TickRespawn(cfg: UnitConfig, u: Unit): Unit {
    if u.status != Respawning then u
    else if u.respawnTurns - 1 <= 0 then
      u.(status := Active, strength := cfg.strength, region := cfg.startRegion, respawnTurns := 0,
         travelPath := "", travelLeft := 0)
    else u.(respawnTurns := u.respawnTurns - 1)
  }

  function TickUnit(cfg: UnitConfig, u: Unit): Unit {
    var v := TickRespawn(cfg, u);
    if v.cooldown > 0 then v.(cooldown := v.cooldown - 1) else v
  }

  function TickUnits(g: GameConfig, units: Units): Units {
    map id | id in units :: TickUnit(UnitCfg(g, id), units[id])
  }

  // ----- step 12: detection --------------------------------------------------

  predicate EyeOpen(g: GameConfig, units: Units) {
    exists id :: id in units && IsEye(g, units, id)
  }

  predicate IsEye(g: GameConfig, units: Units, id: string)
    requires id in units
  {
    && units[id].status == Active
    && id in g.units && g.units[id].maia && g.units[id].startRegion == MORDOR
    && units[id].region == MORDOR
  }

  function EffectiveRange(g: GameConfig, units: Units, id: string): int {
    UnitCfg(g, id).detectionRange + if EyeOpen(g, units) then 1 else 0
  }

  ghost predicate Detects(g: GameConfig, adj: Adjacency, units: Units, id: string, region: string)
    requires id in units
  {
    && units[id].status == Active
    && id in g.units && g.units[id].detectionRange > 0
    && 0 <= MinHops(adj, units[id].region, region) <= EffectiveRange(g, units, id)
  }

  ghost predicate RingBearerDetected(r: Rules, units: Units, region: string, turn: int) {
    turn > r.g.hiddenUntilTurn && exists id :: id in units && Detects(r.g, r.adj, units, id, region)
  }

  // ----- step 13: winning ----------------------------------------------------

  predicate IsShadowAt(g: GameConfig, units: Units, id: string, region: string)
    requires id in units
  {
    units[id].region == region && UnitCfg(g, id).side == Shadow && units[id].status == Active
  }

  predicate ShadowHolds(g: GameConfig, units: Units, region: string) {
    exists id :: id in units && IsShadowAt(g, units, id, region)
  }

  predicate DestroyRequested(orders: seq<Order>) {
    exists o :: o in orders && o.kind == DestroyRing
  }

  predicate IsHunterAt(g: GameConfig, units: Units, id: string, region: string)
    requires id in units
  {
    UnitCfg(g, id).detectionRange > 0 && units[id].status == Active && units[id].region == region
  }

  predicate HunterAt(g: GameConfig, units: Units, region: string) {
    exists id :: id in units && IsHunterAt(g, units, id, region)
  }

  predicate LightWins(g: GameConfig, units: Units, rb: RingBearerState, orders: seq<Order>) {
    rb.trueRegion == MOUNT_DOOM && DestroyRequested(orders) && !ShadowHolds(g, units, MOUNT_DOOM)
  }

  function WinnerOf(g: GameConfig, units: Units, rb: RingBearerState, orders: seq<Order>): Winner {
    if LightWins(g, units, rb, orders) then RingDestroyed
    else if rb.exposed && HunterAt(g, units, rb.trueRegion) then RingBearerCaught
    else NoWinner
  }
}
