/** In-memory game state (option-b/internal/game/types.go). */
module State {
  import opened Config

  datatype UnitStatus = Active | Destroyed | Respawning | NoStatus

  datatype PathStatus = Open | Threatened | Blocked | TemporarilyOpen

  datatype Unit = Unit(
    id: string,
    region: string,
    strength: int,
    status: UnitStatus,
    respawnTurns: int,
    route: seq<string>,
    routeIdx: int,
    travelPath: string,
    travelLeft: int,
    cooldown: int)

  datatype Path = Path(status: PathStatus, surveillance: int, tempOpenTurns: int, blockedBy: string)

  datatype Region = Region(controlledBy: Faction, threatLevel: int, fortified: bool, fortifyTurns: int)

  datatype RingBearerState = RingBearerState(
    trueRegion: string,
    exposed: bool,
    route: seq<string>,
    routeIdx: int,
    travelPath: string,
    travelLeft: int,
    lastDetectedTurn: int,
    lastDetectedRegion: string)

  datatype LightView = LightView(ringBearerRegion: string, assignedRoute: seq<string>, routeIdx: int)

  datatype Session = Session(gameOver: bool, winner: Winner, turn: int)

  datatype Winner = NoWinner | RingDestroyed | RingBearerCaught | Draw

  type Units = map<string, Unit>
  type Paths = map<string, Path>
  type Regions = map<string, Region>

  const ZERO_UNIT_STATE := Unit("", "", 0, NoStatus, 0, [], 0, "", 0, 0)
  const NO_SESSION := Session(false, NoWinner, 0)

  function UnitAt(units: Units, id: string): Unit {
    if id in units then units[id] else ZERO_UNIT_STATE
  }

  datatype OrderType =
    | AssignRoute | RedirectUnit | BlockPath | SearchPath | ReinforceRegion | DeployNazgul
    | FortifyRegion | MaiaAbility | AttackRegion | DestroyRing | UnknownType | MissingType

  /** A validated order as the engine keeps it. */
  datatype Order = Order(
    kind: OrderType,
    unit: string,
    turn: int,
    pathIds: seq<string>,
    targetPath: string,
    targetRegion: string)
}
