/**
 * The data shapes of the card (src/types.ts, src/ha-extended.ts) and the
 * typed readers the card and the editor use on a configuration object.
 */
module Types {
  import opened Wrappers

  /** An action descriptor as the host defines it; the card only passes it on. */
  datatype ActionConfig = ActionConfig(action: string, params: map<string, string>)

  /**
   * The value stored under one key of a configuration object: a string
   * (entity ids, names, icons), an action descriptor, or an explicitly
   * present `undefined`/`null`.
   */
  datatype Value = Str(s: string) | Act(a: ActionConfig) | Nullish

  /**
   * A card configuration (RoomCardConfig): a flat JSON-like object. Keys the
   * card does not know are kept, as a JavaScript object keeps them.
   */
  type Config = map<string, Value>

  /** A recognised user gesture, as the action handler reports it. */
  datatype Gesture = Tap | Hold | DoubleTap

  /** The part of a host entity state that the card reads. */
  datatype EntityState = EntityState(
    state: string,
    currentPosition: Option<int>,
    unitOfMeasurement: Option<string>)

  /** The part of a host area registry entry that the card reads. */
  datatype Area = Area(name: string, icon: Option<string>)

  datatype Themes = Themes(darkMode: bool)

  /** The host object handed to the card (ExtendedHomeAssistant). */
  datatype Hass = Hass(
    states: map<string, EntityState>,
    themes: Option<Themes>,
    areas: Option<map<string, Area>>)

  /** Property access `cfg[key]`: a missing key reads as `undefined`. */
  function Get(cfg: Config, key: string): Value
  {
    if key in cfg then cfg[key] else Nullish
  }

  /** JavaScript truthiness of a configuration value. */
  predicate Truthy(v: Value)
  {
    match v
    case Str(s) => s != ""
    case Act(_) => true
    case Nullish => false
  }

  /** The string stored under `key`, if any (the `??` view: "" counts as set). */
  function Text(cfg: Config, key: string): Option<string>
  {
    match Get(cfg, key)
    case Str(s) => Some(s)
    case _ => None
  }

  /** The entity id stored under `key` when it is a truthy string (the `cfg.x ? … : …` view). */
  function EntityId(cfg: Config, key: string): (r: Option<string>)
    ensures r.Some? <==> Text(cfg, key).Some? && Text(cfg, key).value != ""
    ensures r.Some? ==> r == Text(cfg, key) && Truthy(Get(cfg, key))
  {
    match Get(cfg, key)
    case Str(s) => if s != "" then Some(s) else None
    case _ => None
  }

  /** The action descriptor stored under `key`, if any. */
  function ActionOf(cfg: Config, key: string): Option<ActionConfig>
  {
    match Get(cfg, key)
    case Act(a) => Some(a)
    case _ => None
  }

  /** `cfg.key ? states[cfg.key] : undefined`: the state of the entity bound to `key`. */
  function BoundState(cfg: Config, states: map<string, EntityState>, key: string): (r: Option<EntityState>)
    ensures r.Some? <==> EntityId(cfg, key).Some? && EntityId(cfg, key).value in states
    ensures r.Some? ==> r.value == states[EntityId(cfg, key).value]
  {
    match EntityId(cfg, key)
    case Some(id) => if id in states then Some(states[id]) else None
    case None => None
  }
}
