/**
 * The decision logic of the room card (src/room-card.ts): the values the
 * card draws, derived from its configuration, the host's entity states, the
 * area registry and the theme; the default icon-tap action of an entity;
 * and the action configurations handed to the host's action dispatcher.
 */
module Card {
  import opened Wrappers
  import opened Types
  import opened Helpers
  import Utils

  // ---------------------------------------------------------------------
  // Default icon-tap action

  /** Domains whose entities get a toggle icon action besides the toggleable ones. */
  const PressableDomains: set<string> := {"button", "input_button", "scene"}

  /**
   * `getEntityDefaultTileIconAction(entityId)`: "toggle" for an entity whose
   * domain is toggleable (`toggleDomains` stands for the library's
   * DOMAINS_TOGGLE) or is a button, input button or scene; "none" otherwise.
   */
  function DefaultTileIconAction(entityId: string, toggleDomains: set<string>): (r: string)
    ensures r == "toggle" || r == "none"
    ensures r == "toggle" <==> ComputeDomain(entityId) in toggleDomains + PressableDomains
  {
    var domain := ComputeDomain(entityId);
    var supportsIconAction := domain in toggleDomains || domain in ["button", "input_button", "scene"];
    if supportsIconAction then "toggle" else "none"
  }

  /** For an id `domain.objectId` the default depends on `domain` alone. */
  lemma DefaultTileIconActionByDomain(domain: string, objectId: string, toggleDomains: set<string>)
    requires '.' !in domain
    ensures DefaultTileIconAction(domain + "." + objectId, toggleDomains)
      == if domain in toggleDomains || domain in PressableDomains then "toggle" else "none"
  {
    DomainOfJoined(domain, objectId);
  }

  /** A switch gets "toggle" (with "switch" among the toggleable domains). */
  lemma SwitchDefaultsToToggle(toggleDomains: set<string>)
    requires "switch" in toggleDomains
    ensures DefaultTileIconAction("switch.lamp", toggleDomains) == "toggle"
  {
    assert "switch.lamp" == "switch" + "." + "lamp" && '.' !in "switch";
    DefaultTileIconActionByDomain("switch", "lamp", toggleDomains);
  }

  /** A sensor gets "none" (with "sensor" not among the toggleable domains). */
  lemma SensorDefaultsToNone(toggleDomains: set<string>)
    requires "sensor" !in toggleDomains
    ensures DefaultTileIconAction("sensor.outdoor", toggleDomains) == "none"
  {
    assert "sensor.outdoor" == "sensor" + "." + "outdoor" && '.' !in "sensor";
    assert "sensor" !in PressableDomains by {
      assert "sensor"[0] != "button"[0] && "sensor"[0] != "input_button"[0] && |"sensor"| != |"scene"|;
    }
    DefaultTileIconActionByDomain("sensor", "outdoor", toggleDomains);
  }

  /** A scene gets "toggle" whatever the toggleable domains are. */
  lemma SceneDefaultsToToggle(toggleDomains: set<string>)
    ensures DefaultTileIconAction("scene.evening", toggleDomains) == "toggle"
  {
    assert "scene.evening" == "scene" + "." + "evening" && '.' !in "scene";
    DefaultTileIconActionByDomain("scene", "evening", toggleDomains);
  }

  // ---------------------------------------------------------------------
  // Cover

  /** The five shutter icons, from open (index 0) to closed (index 4). */
  const ShutterIcons: seq<string> :=
    ["cil:shutter-0", "cil:shutter-1", "cil:shutter-2", "cil:shutter-3", "cil:shutter-4"]

  /**
   * `_getCoverIcon(cover)`: no icon without a position; otherwise the shutter
   * icon of the band the position falls in.
   */
  function CoverIcon(cover: EntityState): (r: Option<string>)
    ensures r.None? <==> cover.currentPosition.None?
    ensures r.Some? ==> r.value in ShutterIcons
  {
    match cover.currentPosition
    case None => None
    case Some(pos) =>
      if pos > 90 then Some("cil:shutter-0")
      else if pos > 70 then Some("cil:shutter-1")
      else if pos > 40 then Some("cil:shutter-2")
      else if pos > 10 then Some("cil:shutter-3")
      else Some("cil:shutter-4")
  }

  function Count(b: bool): nat { if b then 1 else 0 }

  /** The shutter tier of a position: 4 less the number of thresholds (10, 40, 70, 90) strictly exceeded. */
  function CoverTier(pos: int): (t: nat)
    ensures t <= 4
  {
    4 - (Count(pos > 10) + Count(pos > 40) + Count(pos > 70) + Count(pos > 90))
  }

  /** The icon of a present position is the shutter icon of its tier. */
  lemma CoverIconIsTier(cover: EntityState)
    requires cover.currentPosition.Some?
    ensures CoverIcon(cover) == Some(ShutterIcons[CoverTier(cover.currentPosition.value)])
  {
  }

  /** Bands are strict: 100 and 91 give tier 0, 90 tier 1, 11 tier 3, 10 and 0 tier 4. */
  lemma CoverTierBands(pos: int)
    ensures CoverTier(pos) == 0 <==> 90 < pos
    ensures CoverTier(pos) == 1 <==> 70 < pos <= 90
    ensures CoverTier(pos) == 2 <==> 40 < pos <= 70
    ensures CoverTier(pos) == 3 <==> 10 < pos <= 40
    ensures CoverTier(pos) == 4 <==> pos <= 10
  {
  }

  /** A more open position never gives a higher (more closed) tier. */
  lemma CoverTierMonotone(p: int, q: int)
    requires p <= q
    ensures CoverTier(q) <= CoverTier(p)
  {
  }

  /** `coverPosition === 0 ? "LimeGreen" : "Orange"`. */
  function CoverColor(pos: Option<int>): (c: string)
    ensures c == "LimeGreen" || c == "Orange"
    ensures c == "LimeGreen" <==> pos == Some(0)
  {
    if pos == Some(0) then "LimeGreen" else "Orange"
  }

  // ---------------------------------------------------------------------
  // Light and main icon

  /** `light?.state === "on"` for the entity bound to `light`. */
  function LightOn(cfg: Config, states: map<string, EntityState>): (on: bool)
    ensures on <==> EntityId(cfg, "light").Some? && EntityId(cfg, "light").value in states
                    && states[EntityId(cfg, "light").value].state == "on"
  {
    var light := BoundState(cfg, states, "light");
    light.Some? && light.value.state == "on"
  }

  function IconColorOn(isDark: bool): string
  {
    if isDark then "rgb(255, 193, 7)" else "Orange"
  }

  function IconColorOff(isDark: bool): (c: string)
    ensures c != IconColorOn(isDark) && c != IconColorOn(!isDark)
  {
    if isDark then "rgba(255, 255, 255, 0.6)" else "rgba(0,0,0,0.45)"
  }

  /** The main icon's colour: chosen by the light and the theme only. */
  function IconColor(cfg: Config, states: map<string, EntityState>, isDark: bool): (c: string)
    ensures c == IconColorOn(isDark) || c == IconColorOff(isDark)
    ensures LightOn(cfg, states) ==> c == IconColorOn(isDark)
    ensures !LightOn(cfg, states) ==> c == IconColorOff(isDark)
  {
    if LightOn(cfg, states) then IconColorOn(isDark) else IconColorOff(isDark)
  }

  const FallbackIcon := "mdi:home"

  /** The icon of the area the configuration names, when that area exists and has one. */
  function AreaIcon(cfg: Config, areas: map<string, Area>): (r: Option<string>)
    ensures r.Some? ==> EntityId(cfg, "area").Some? && EntityId(cfg, "area").value in areas
                        && areas[EntityId(cfg, "area").value].icon == r
    ensures EntityId(cfg, "area").Some? && EntityId(cfg, "area").value in areas ==>
              r == areas[EntityId(cfg, "area").value].icon
  {
    match EntityId(cfg, "area")
    case Some(id) => if id in areas then areas[id].icon else None
    case None => None
  }

  /** `cfg.icon ?? areaIcon ?? "mdi:home"`: the first that is set wins. */
  function CardIcon(cfg: Config, areas: map<string, Area>): (icon: string)
    ensures Text(cfg, "icon").Some? ==> icon == Text(cfg, "icon").value
    ensures Text(cfg, "icon").None? && AreaIcon(cfg, areas).Some? ==> icon == AreaIcon(cfg, areas).value
    ensures Text(cfg, "icon").None? && AreaIcon(cfg, areas).None? ==> icon == FallbackIcon
  {
    match Text(cfg, "icon")
    case Some(i) => i
    case None =>
      match AreaIcon(cfg, areas)
      case Some(a) => a
      case None => FallbackIcon
  }

  /**
   * With no icon configured, the card shows the fallback icon unless the
   * configured area is a known area with an icon: an unset or unknown area
   * is no error.
   */
  lemma CardIconFallback(cfg: Config, areas: map<string, Area>)
    requires Text(cfg, "icon").None?
    requires var area := Get(cfg, "area");
      area.Str? && area.s != "" ==> area.s !in areas || areas[area.s].icon.None?
    ensures CardIcon(cfg, areas) == FallbackIcon
  {
  }

  // ---------------------------------------------------------------------
  // Sensor rows

  /** One icon of the sensors row. */
  datatype Row = Row(icon: string, color: string)

  const LockedRow := Row("mdi:lock", "LimeGreen")
  const UnlockedRow := Row("mdi:lock-open-variant", "red")
  const WindowOpenRow := Row("mdi:window-open-variant", "red")
  const MotionRow := Row("mdi:motion-sensor", "DeepSkyBlue")

  /** The light row: shown whenever the light entity exists, coloured like the main icon. */
  function LightRow(cfg: Config, states: map<string, EntityState>, isDark: bool): (r: Option<Row>)
    ensures r.Some? <==> BoundState(cfg, states, "light").Some?
    ensures r.Some? ==> r.value.icon == "mdi:lightbulb" && r.value.color == IconColor(cfg, states, isDark)
  {
    if BoundState(cfg, states, "light").Some? then
      Some(Row("mdi:lightbulb", if LightOn(cfg, states) then IconColorOn(isDark) else IconColorOff(isDark)))
    else None
  }

  /** The lock row: shown whenever the lock entity exists; open and red only when "unlocked". */
  function LockRow(cfg: Config, states: map<string, EntityState>): (r: Option<Row>)
    ensures r.Some? <==> BoundState(cfg, states, "lock").Some?
    ensures r.Some? ==> (r.value == UnlockedRow <==> BoundState(cfg, states, "lock").value.state == "unlocked")
    ensures r.Some? ==> (r.value == LockedRow <==> BoundState(cfg, states, "lock").value.state != "unlocked")
  {
    match BoundState(cfg, states, "lock")
    case None => None
    case Some(lock) =>
      Some(Row(if lock.state == "unlocked" then "mdi:lock-open-variant" else "mdi:lock",
               if lock.state == "unlocked" then "red" else "LimeGreen"))
  }

  /** `entity?.state === "on"` for the entity bound to `key`. */
  predicate StateIsOn(cfg: Config, states: map<string, EntityState>, key: string)
  {
    var s := BoundState(cfg, states, key);
    s.Some? && s.value.state == "on"
  }

  /** The window row: shown only for an open window (state "on"). */
  function WindowRow(cfg: Config, states: map<string, EntityState>): (r: Option<Row>)
    ensures r.Some? <==> EntityId(cfg, "window").Some? && EntityId(cfg, "window").value in states
                         && states[EntityId(cfg, "window").value].state == "on"
    ensures r.Some? ==> r.value == WindowOpenRow
  {
    if StateIsOn(cfg, states, "window") then Some(WindowOpenRow) else None
  }

  /** The motion row: shown only while motion is detected (state "on"). */
  function MotionSensorRow(cfg: Config, states: map<string, EntityState>): (r: Option<Row>)
    ensures r.Some? <==> EntityId(cfg, "motion").Some? && EntityId(cfg, "motion").value in states
                         && states[EntityId(cfg, "motion").value].state == "on"
    ensures r.Some? ==> r.value == MotionRow
  {
    if StateIsOn(cfg, states, "motion") then Some(MotionRow) else None
  }

  /** The cover row: shown when the cover exists and reports a position. */
  function CoverRow(cfg: Config, states: map<string, EntityState>): (r: Option<Row>)
    ensures r.Some? <==> BoundState(cfg, states, "cover").Some? && BoundState(cfg, states, "cover").value.currentPosition.Some?
    ensures r.Some? ==>
      var pos := BoundState(cfg, states, "cover").value.currentPosition.value;
      r.value == Row(ShutterIcons[CoverTier(pos)], if pos == 0 then "LimeGreen" else "Orange")
  {
    var cover := BoundState(cfg, states, "cover");
    var coverIcon := if cover.Some? then CoverIcon(cover.value) else None;
    var coverPosition := if cover.Some? then cover.value.currentPosition else None;
    match coverIcon
    case None => None
    case Some(icon) =>
      CoverIconIsTier(cover.value);
      Some(Row(icon, CoverColor(coverPosition)))
  }

  // ---------------------------------------------------------------------
  // Everything the card draws

  datatype Presentation = Presentation(
    dark: bool,
    lightOn: bool,
    icon: string,
    iconColor: string,
    title: Option<string>,
    temperature: Option<string>,
    humidityShown: bool,
    lightRow: Option<Row>,
    windowRow: Option<Row>,
    coverRow: Option<Row>,
    lockRow: Option<Row>,
    motionRow: Option<Row>)

  /** The configuration keys the card reads while rendering. */
  const RenderedKeys: set<string> :=
    {"name", "area", "icon", "light", "temperature", "humidity", "window", "cover", "lock", "motion"}

  /** The derived constants of `render` and the conditions of its rows. */
  function Derive(cfg: Config, states: map<string, EntityState>, areas: map<string, Area>, isDark: bool): (p: Presentation)
    ensures p.temperature.Some? <==> BoundState(cfg, states, "temperature").Some?
    ensures p.temperature.Some? ==> p.temperature == Utils.FormatTemperature(states, EntityId(cfg, "temperature"))
    ensures p.humidityShown <==> BoundState(cfg, states, "humidity").Some?
    ensures p.title == Text(cfg, "name")
    ensures p.iconColor == (if p.lightOn then IconColorOn(isDark) else IconColorOff(isDark))
    ensures p.lightRow.Some? ==> p.lightRow.value.color == p.iconColor
  {
    var temperature := BoundState(cfg, states, "temperature");
    Presentation(
      isDark,
      LightOn(cfg, states),
      CardIcon(cfg, areas),
      IconColor(cfg, states, isDark),
      Text(cfg, "name"),
      if temperature.Some? then Utils.FormatTemperature(states, Text(cfg, "temperature")) else None,
      BoundState(cfg, states, "humidity").Some?,
      LightRow(cfg, states, isDark),
      WindowRow(cfg, states),
      CoverRow(cfg, states),
      LockRow(cfg, states),
      MotionSensorRow(cfg, states))
  }

  /**
   * Rendering reads only the keys in RenderedKeys: in particular the
   * configured `icon_color_on`/`icon_color_off` change nothing.
   */
  lemma DeriveReadsOnlyRenderedKeys(cfg: Config, key: string, v: Value,
                                    states: map<string, EntityState>, areas: map<string, Area>, isDark: bool)
    requires key !in RenderedKeys
    ensures Derive(cfg[key := v], states, areas, isDark) == Derive(cfg, states, areas, isDark)
  {
    var cfg' := cfg[key := v];
    forall k | k in RenderedKeys
      ensures Get(cfg', k) == Get(cfg, k)
      ensures Text(cfg', k) == Text(cfg, k) && EntityId(cfg', k) == EntityId(cfg, k)
      ensures BoundState(cfg', states, k) == BoundState(cfg, states, k)
    {
    }
    assert LightOn(cfg', states) == LightOn(cfg, states);
    assert CardIcon(cfg', areas) == CardIcon(cfg, areas);
    assert LightRow(cfg', states, isDark) == LightRow(cfg, states, isDark);
    assert WindowRow(cfg', states) == WindowRow(cfg, states);
    assert CoverRow(cfg', states) == CoverRow(cfg, states);
    assert LockRow(cfg', states) == LockRow(cfg, states);
    assert MotionSensorRow(cfg', states) == MotionSensorRow(cfg, states);
  }

  lemma IconColorSettingsIgnored(cfg: Config, on: string, off: string,
                                 states: map<string, EntityState>, areas: map<string, Area>, isDark: bool)
    ensures Derive(cfg["icon_color_on" := Str(on)]["icon_color_off" := Str(off)], states, areas, isDark)
         == Derive(cfg, states, areas, isDark)
  {
    DeriveReadsOnlyRenderedKeys(cfg["icon_color_on" := Str(on)], "icon_color_off", Str(off), states, areas, isDark);
    DeriveReadsOnlyRenderedKeys(cfg, "icon_color_on", Str(on), states, areas, isDark);
  }

  /** A kitchen light that is on lights the main icon in the on-colour. */
  lemma KitchenLightOn(isDark: bool, areas: map<string, Area>)
    ensures var p := Derive(map["light" := Str("light.kitchen")],
                            map["light.kitchen" := EntityState("on", None, None)], areas, isDark);
      p.lightOn && p.iconColor == IconColorOn(isDark) && p.lightRow == Some(Row("mdi:lightbulb", IconColorOn(isDark)))
  {
  }

  /** Cover positions 0, 45 and 100. */
  lemma CoverExamples(cfg: Config, states: map<string, EntityState>)
    requires cfg == map["cover" := Str("cover.blind")]
    ensures CoverRow(cfg, states["cover.blind" := EntityState("open", Some(0), None)])
         == Some(Row("cil:shutter-4", "LimeGreen"))
    ensures CoverRow(cfg, states["cover.blind" := EntityState("open", Some(45), None)])
         == Some(Row("cil:shutter-2", "Orange"))
    ensures CoverRow(cfg, states["cover.blind" := EntityState("open", Some(100), None)])
         == Some(Row("cil:shutter-0", "Orange"))
    ensures CoverRow(cfg, states["cover.blind" := EntityState("open", None, None)]) == None
  {
  }

  // ---------------------------------------------------------------------
  // Actions

  /** The configuration key of a gesture on the icon: `icon_tap_action`, … */
  function IconKey(g: Gesture): (k: string)
    ensures k == "icon_" + GestureKey(g)
  {
    match g
    case Tap => "icon_tap_action"
    case Hold => "icon_hold_action"
    case DoubleTap => "icon_double_tap_action"
  }

  /** The configuration `_handleIconAction` hands to the dispatcher. */
  function IconActionConfig(cfg: Config): (h: Config)
    ensures h.Keys == {"entity", "tap_action", "hold_action", "double_tap_action"}
  {
    map[
      "entity" := Get(cfg, "light"),
      "tap_action" := Get(cfg, "icon_tap_action"),
      "hold_action" := Get(cfg, "icon_hold_action"),
      "double_tap_action" := Get(cfg, "icon_double_tap_action")]
  }

  /**
   * On the icon every gesture reaches the action bound to its `icon_*` key, on
   * the light entity; nothing else of the configuration is passed on.
   */
  lemma IconActionRouting(cfg: Config, g: Gesture)
    ensures BoundAction(IconActionConfig(cfg), g) == ActionOf(cfg, IconKey(g))
    ensures Get(IconActionConfig(cfg), "entity") == Get(cfg, "light")
  {
  }

  /** One call of the host's `handleAction`: the configuration and the gesture. */
  datatype Dispatch = Dispatch(handlerConfig: Config, gesture: Gesture)

  /** `getStubConfig()`: a new card with every card gesture bound to "none". */
  function StubConfig(): (cfg: Config)
    ensures Get(cfg, "type") == Str("custom:room-card")
    ensures forall g :: BoundAction(cfg, g) == Some(ActionConfig("none", map[]))
  {
    map[
      "type" := Str("custom:room-card"),
      "tap_action" := Act(ActionConfig("none", map[])),
      "hold_action" := Act(ActionConfig("none", map[])),
      "double_tap_action" := Act(ActionConfig("none", map[]))]
  }

  /** A stub card shows the fallback icon, off, with no title and no sensor rows. */
  lemma StubShowsOnlyHomeIcon(states: map<string, EntityState>, areas: map<string, Area>, isDark: bool)
    ensures Derive(StubConfig(), states, areas, isDark)
         == Presentation(isDark, false, FallbackIcon, IconColorOff(isDark), None, None, false,
                         None, None, None, None, None)
  {
    var cfg := StubConfig();
    assert forall k :: k in RenderedKeys ==> Get(cfg, k) == Nullish;
  }

  /** `hass.themes ? hass.themes.darkMode : undefined`, read as a condition. */
  function IsDark(hass: Hass): bool
  {
    hass.themes.Some? && hass.themes.value.darkMode
  }

  /** `hass.areas` where an absent registry behaves as an empty one. */
  function AreasOf(hass: Hass): map<string, Area>
  {
    if hass.areas.Some? then hass.areas.value else map[]
  }

  /** The card element: the host assigns `hass`; `setConfig` assigns `config`. */
  class RoomCard {
    var hass: Option<Hass>
    var config: Option<Config>

    constructor()
      ensures hass.None? && config.None?
    {
      hass := None;
      config := None;
    }

    /** `setConfig(config)`: rejects a missing configuration, otherwise stores a copy. */
    method SetConfig(c: Option<Config>) returns (r: Result<(), string>)
      modifies this`config
      ensures c.None? ==> r == Err("Invalid config") && config == old(config)
      ensures c.Some? ==> r == Ok(()) && config == c
    {
      if c.None? {
        return Err("Invalid config");
      }
      config := Some(c.value);
      r := Ok(());
    }

    /** `render()`: nothing until both the host and a configuration are present. */
    function Render(): (p: Option<Presentation>)
      reads this
      ensures p.Some? <==> hass.Some? && config.Some?
      ensures p.Some? ==> p.value == Derive(config.value, hass.value.states, AreasOf(hass.value), IsDark(hass.value))
      ensures p.Some? ==> p.value.dark == IsDark(hass.value) && p.value.icon == CardIcon(config.value, AreasOf(hass.value))
    {
      if hass.None? || config.None? then None
      else Some(Derive(config.value, hass.value.states, AreasOf(hass.value), IsDark(hass.value)))
    }

    /** `_handleAction(ev)`: a card gesture dispatches the whole configuration, unchanged. */
    method HandleAction(action: Option<Gesture>) returns (d: Option<Dispatch>)
      ensures d.Some? <==> hass.Some? && config.Some? && action.Some?
      ensures d.Some? ==> d.value == Dispatch(config.value, action.value)
      ensures d.Some? ==> BoundAction(d.value.handlerConfig, d.value.gesture) == ActionOf(config.value, GestureKey(action.value))
    {
      if hass.Some? && config.Some? && action.Some? {
        d := Some(Dispatch(config.value, action.value));
      } else {
        d := None;
      }
    }

    /** `_handleIconAction(ev)`: an icon gesture dispatches the `icon_*` actions on the light. */
    method HandleIconAction(action: Gesture) returns (d: Dispatch)
      requires config.Some?
      ensures d.gesture == action
      ensures BoundAction(d.handlerConfig, action) == ActionOf(config.value, IconKey(action))
      ensures d.handlerConfig.Keys == {"entity", "tap_action", "hold_action", "double_tap_action"}
      ensures Get(d.handlerConfig, "entity") == Get(config.value, "light")
    {
      var handlerConfig := IconActionConfig(config.value);
      IconActionRouting(config.value, action);
      d := Dispatch(handlerConfig, action);
    }
  }
}
