/** Dispatch of Maia abilities (option-b/internal/engine/maia.go). */
module Maia {
  import opened Config
  import opened State

  datatype MaiaEffect = OpenPath | CorruptPath

  datatype MaiaError = AbilityOnCooldown | MaiaDisabled | InvalidPath | UnitNotAdjacent | PathNotBlocked

  datatype MaiaResult = Applied(effect: MaiaEffect) | Refused(error: MaiaError)

  /** The configuration alone decides which effect a Maia has: one without a
      list of paths opens a blocked path, one with a list corrupts a listed path. */
  function DispatchMaiaAbility(
      u: Unit, cfg: UnitConfig, targetPath: string, path: Path, pathCfg: PathConfig, disabled: bool): (r: MaiaResult)
    ensures r.Applied? <==>
              && cfg.maia && u.cooldown <= 0 && !disabled && AtEndpoint(u.region, pathCfg)
              && if cfg.maiaAbilityPaths == [] then path.status == Blocked
                 else targetPath in cfg.maiaAbilityPaths && path.status != TemporarilyOpen
    ensures r.Applied? ==> r.effect == if cfg.maiaAbilityPaths == [] then OpenPath else CorruptPath
    ensures r == Refused(AbilityOnCooldown) <==> cfg.maia && u.cooldown > 0
    ensures r == Refused(MaiaDisabled) <==> !cfg.maia || (u.cooldown <= 0 && disabled)
    ensures r == Refused(UnitNotAdjacent) <==>
              cfg.maia && u.cooldown <= 0 && !disabled && !AtEndpoint(u.region, pathCfg)
    ensures r == Refused(PathNotBlocked) ==> cfg.maiaAbilityPaths == []
    ensures r == Refused(InvalidPath) ==> cfg.maiaAbilityPaths != []
  {
    if !cfg.maia then Refused(MaiaDisabled)
    else if u.cooldown > 0 then Refused(AbilityOnCooldown)
    else if disabled then Refused(MaiaDisabled)
    else if !AtEndpoint(u.region, pathCfg) then Refused(UnitNotAdjacent)
    else if cfg.maiaAbilityPaths == [] then ApplyOpenPath(path)
    else ApplyCorruptPath(cfg, targetPath, path)
  }

  function ApplyOpenPath(path: Path): MaiaResult {
    if path.status != Blocked then Refused(PathNotBlocked) else Applied(OpenPath)
  }

  function ApplyCorruptPath(cfg: UnitConfig, targetPath: string, path: Path): MaiaResult {
    if targetPath !in cfg.maiaAbilityPaths then Refused(InvalidPath)
    else if path.status == TemporarilyOpen then Refused(InvalidPath)
    else Applied(CorruptPath)
  }
}
