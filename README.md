# Room card: a Dafny model of its decision logic

The room card is a Home Assistant dashboard card. It shows one room: a main
icon that lights up with the room's light, the room name, the temperature,
and a row of small sensor icons for the light, an open window, a cover, a
lock and detected motion. Taps, holds and double taps on the card, and
separately on its icon, go to the host's action dispatcher. A companion
editor builds the card's configuration form and merges each form change into
the configuration. When an area is picked and the name is still blank, the
editor fills in the area's name.

This project models the decision logic under the templates and the CSS:

- `types.dfy` (module `Types`) holds the data shapes. A configuration is a
  flat JSON-like object, `map<string, Value>`. Its values are strings, action
  descriptors or an explicitly present `undefined`/`null`. Keys the card does
  not know are kept. Typed readers give the `??` view (`Text`) and the truthy
  view (`EntityId`, `BoundState`) of a key.
- `helpers.dfy` (module `Helpers`) holds what the card takes from
  `custom-card-helpers`: `computeDomain`, and the configuration key that
  `handleAction` reads for each gesture.
- `jsstring.dfy` (module `JsString`) holds JavaScript's `trim`. It proves that
  `s.trim() === ""` holds exactly when `s` is all whitespace.
- `utils.dfy` (module `Utils`) holds `formatTemperature` and `isDefined`.
- `room_card.dfy` (module `Card`) holds everything the card draws, as the
  function `Derive`, built from one function per derived value. It also holds
  the default icon-tap action of an entity, the shutter tier of a cover, the
  action configuration built for the icon, and the card element itself
  (`RoomCard`: `setConfig`, `render`, the two action handlers).
- `editor.dfy` (module `Editor`) holds the label and helper tables, the form
  schema with its default actions, the merge of a form change with the
  area-name autofill, and the editor element (`RoomCardEditor`).

Assumptions about code outside the repository:

- `computeDomain(id)` is `id.substr(0, id.indexOf("."))`. That is the text
  before the first `.`, or `""` when there is no `.`.
- `DOMAINS_TOGGLE` is a parameter, `toggleDomains: set<string>`.
- `handleAction` runs the action under `tap_action`, `hold_action` or
  `double_tap_action` for a tap, a hold or a double tap.

Three behaviours of the code a reader might not expect:

- The icon colours are chosen by the light and the dark-mode flag alone. The
  configured `icon_color_on`/`icon_color_off` are never read
  (`Card.IconColorSettingsIgnored`).
- `formatTemperature` passes the raw state string through, with no parsing
  and no rounding (`Utils.FormatTemperatureRoundTrip`).
- A cover at position 0 gets the most closed icon, `cil:shutter-4`. It is
  coloured LimeGreen.

Two behaviours of the code are recorded as they are:

- The helper texts for `temperature_entity`, `humidity_entity` and
  `light_entity` never match a form field. The fields are called
  `temperature`, `humidity` and `light`, so only the three card actions get a
  helper text (`Editor.FormSchemaHelpers`).
- Re-applying the same form change is not always idempotent. It is
  idempotent when the change carries no `name` (`Editor.MergeIdempotent`). It
  is not when the change carries a name and picks a known area
  (`Editor.MergeRepeatedWithNameDiffers`,
  `Editor.MergeRepeatedBlankingNameDiffers`).

## Model

| member | source | states |
|---|---|---|
| `Types.EntityId` | src/room-card.ts:66-71 | a key yields an entity id exactly when it holds a non-empty string, which is then truthy |
| `Types.BoundState` | src/room-card.ts:66-71 | the state of a bound entity is present exactly when the key holds a truthy id that the host knows, and is that entity's state |
| `Helpers.ComputeDomain` | src/room-card.ts:18 | the domain holds no `.`, is `""` for an id with no `.`, and is followed in the id by its first `.` |
| `Helpers.DomainOfJoined` | src/room-card.ts:18 | the domain of `d + "." + rest` is `d` whenever `d` holds no `.` |
| `Helpers.GestureKey` | src/room-card.ts:199 | a gesture selects one of the three keys `tap_action`, `hold_action`, `double_tap_action` |
| `JsString.Trim` | src/editor.ts:51 | the trimmed text is no longer than the input and neither begins nor ends with JavaScript whitespace |
| `JsString.TrimEmptyIffAllWhitespace` | src/editor.ts:51 | `s.trim() === ""` exactly when every character of `s` is JavaScript whitespace |
| `Utils.FormatTemperature` | src/utils.ts:3-13 | null exactly when the id is absent, empty or unknown; otherwise the raw state, a space and the unit, with `°C` when the entity has no unit |
| `Utils.FormatTemperatureRoundTrip` | src/utils.ts:12 | splitting the text at its last space gives back the raw state and the unit (for a unit without spaces): no parsing or rounding happens |
| `Utils.IsDefined` | src/utils.ts:15-17 | true exactly for a value that is neither undefined nor null |
| `Card.DefaultTileIconAction` | src/room-card.ts:17-24 | only "toggle" or "none"; "toggle" exactly when the domain is toggleable or is button, input_button or scene |
| `Card.DefaultTileIconActionByDomain` | src/room-card.ts:17-24 | for an id `domain.objectId` the result depends on the domain alone |
| `Card.SwitchDefaultsToToggle` | src/room-card.ts:17-24 | a switch gets "toggle" |
| `Card.SensorDefaultsToNone` | src/room-card.ts:17-24 | a sensor outside the toggleable domains gets "none" |
| `Card.SceneDefaultsToToggle` | src/room-card.ts:17-24 | a scene gets "toggle" whatever the toggleable domains are |
| `Card.CoverIcon` | src/room-card.ts:177-188 | no icon exactly when the position is missing; otherwise one of the five shutter icons |
| `Card.CoverTier` | src/room-card.ts:182-187 | the tier counts the thresholds 10, 40, 70 and 90 that the position does not exceed; it is at most 4 |
| `Card.CoverIconIsTier` | src/room-card.ts:182-187 | the icon of a present position is the shutter icon of its tier |
| `Card.CoverTierBands` | src/room-card.ts:182-187 | the strict bands: above 90 is tier 0, 71 to 90 tier 1, 41 to 70 tier 2, 11 to 40 tier 3, 10 and below tier 4 |
| `Card.CoverTierMonotone` | src/room-card.ts:182-187 | a larger position never gives a higher tier |
| `Card.CoverColor` | src/room-card.ts:84-85 | LimeGreen exactly when the position is 0, Orange otherwise |
| `Card.LightOn` | src/room-card.ts:69-73 | the light is on exactly when a light id is set, the host knows it and its state is "on" |
| `Card.IconColorOn` | src/room-card.ts:74 | the on-colour of a theme, which `Card.IconColorOff` shows differs from either theme's off-colour |
| `Card.IconColorOff` | src/room-card.ts:75 | the off-colour of a theme differs from the on-colour of either theme, so a lit and an unlit icon never look alike |
| `Card.IconColor` | src/room-card.ts:74-76 | the icon has the theme's on-colour when the light is on and the theme's off-colour otherwise |
| `Card.AreaIcon` | src/room-card.ts:78-79 | an area icon exists only for a truthy area id the registry knows, and is then that area's own icon (possibly none) |
| `Card.CardIcon` | src/room-card.ts:78-80 | first match wins: the configured icon, then the icon of the configured area, then `mdi:home` |
| `Card.CardIconFallback` | src/room-card.ts:78-80 | with no icon configured and no known area with an icon (unset or unknown area included) the icon is `mdi:home` |
| `Card.LightRow` | src/room-card.ts:134-139 | the light row is shown exactly when the light entity exists, as a bulb in the main icon's colour |
| `Card.WindowRow` | src/room-card.ts:141-146 | the window row is shown exactly when the window's state is "on", as a red open window |
| `Card.CoverRow` | src/room-card.ts:82-85 | the cover row is shown exactly when the cover exists and has a position, with its tier's icon, LimeGreen at 0 and Orange otherwise |
| `Card.LockRow` | src/room-card.ts:155-160 | the lock row is shown exactly when the lock exists; an open red lock exactly when "unlocked", a green lock otherwise |
| `Card.MotionSensorRow` | src/room-card.ts:162-167 | the motion row is shown exactly when the motion state is "on" |
| `Card.Derive` | src/room-card.ts:63-121 | the temperature text is present exactly when the temperature entity exists, and is then `formatTemperature` of the configured id; the humidity entry is shown exactly when the humidity entity exists; the title is the configured name; the icon has the on-colour exactly when the light is on, and the bulb row has the icon's colour |
| `Card.DeriveReadsOnlyRenderedKeys` | src/room-card.ts:63-85 | changing any key other than name, area, icon and the seven entity keys leaves the drawn card unchanged |
| `Card.IconColorSettingsIgnored` | src/room-card.ts:74-76 | the configured `icon_color_on`/`icon_color_off` do not change what is drawn |
| `Card.KitchenLightOn` | src/room-card.ts:73-76 | a kitchen light in state "on" lights the icon and the bulb in the on-colour |
| `Card.CoverExamples` | src/room-card.ts:177-188 | position 0 is shutter-4 in LimeGreen, 45 is shutter-2 in Orange, 100 is shutter-0 in Orange, and no position gives no row |
| `Card.IconKey` | src/room-card.ts:194-196 | the icon's key for a gesture is `icon_` followed by the card's key |
| `Card.IconActionConfig` | src/room-card.ts:192-197 | the icon's handler configuration has exactly the keys entity, tap_action, hold_action and double_tap_action |
| `Card.IconActionRouting` | src/room-card.ts:190-200 | on the icon each gesture reaches the action under its `icon_*` key, and the entity is the light |
| `Card.StubConfig` | src/room-card.ts:37-44 | the stub has type `custom:room-card` and binds every card gesture to "none" |
| `Card.StubShowsOnlyHomeIcon` | src/room-card.ts:37-44 | a stub card shows the home icon, unlit, with no title, no temperature and no sensor rows |
| `Card.IsDark` | src/room-card.ts:64 | no contract of its own: dark mode holds only when the host has themes and they say dark; `Card.RoomCard.Render` passes it to `Card.Derive` |
| `Card.AreasOf` | src/room-card.ts:78 | no contract of its own: `hass.areas?.` with an absent registry read as an empty one, so every area lookup misses (`Card.CardIconFallback`) |
| `Card.RoomCard.constructor` | src/room-card.ts:28-29 | a new card has neither host nor configuration |
| `Card.RoomCard.SetConfig` | src/room-card.ts:46-52 | a missing configuration fails with "Invalid config" and leaves the card unchanged; otherwise it is stored |
| `Card.RoomCard.Render` | src/room-card.ts:60-167 | there is something to draw exactly when both the host and a configuration are set; then everything drawn is `Card.Derive` of the configuration, the host's states, its area registry (empty when absent) and its dark-mode flag |
| `Card.RoomCard.HandleAction` | src/room-card.ts:202-206 | a card gesture is dispatched exactly when host, configuration and gesture are present, with the configuration unchanged |
| `Card.RoomCard.HandleIconAction` | src/room-card.ts:190-200 | an icon gesture is dispatched with the `icon_*` action on the light entity and nothing else |
| `Editor.ComputeLabel` | src/editor.ts:160-197 | a label exactly for the 16 names of the label table, that name's label; undefined otherwise |
| `Editor.ComputeHelper` | src/editor.ts:199-216 | a helper text exactly for the 6 names of the helper table, that name's text; undefined otherwise |
| `Editor.IconTapDefault` | src/editor.ts:134-136 | the icon-tap default is "toggle", "none" or "more-info", and "more-info" exactly when no light is configured |
| `Editor.FormSchema` | src/editor.ts:72-158 | no contract of its own: the form for a light; `Editor.FormSchemaNames`, `Editor.FormSchemaLabelled`, `Editor.FormSchemaHelpers` and `Editor.FormSchemaDefaults` state its fields, labels, helpers and defaults |
| `Editor.FormSchemaNames` | src/editor.ts:72-158 | the form holds exactly the 15 fields and groups area through double_tap_action, in that order, whatever the light is |
| `Editor.FormSchemaLabelled` | src/editor.ts:160-197 | every field and group of the form has a label |
| `Editor.FormSchemaHelpers` | src/editor.ts:199-216 | of the form's fields only tap_action, hold_action and double_tap_action get a helper text |
| `Editor.FormSchemaDefaults` | src/editor.ts:122-155 | the defaults are "more-info" for a tap, the light's default action (or "more-info" without a light) for an icon tap, and "none" for hold and double tap |
| `Editor.PlainMerge` | src/editor.ts:42-46 | the spread merge: the keys of both objects plus the type; the type is the current one; any other key takes the form value's value if it has one and keeps the current value otherwise |
| `Editor.NameIsBlank` | src/editor.ts:51 | the current name is blank exactly when it is absent or consists of JavaScript whitespace only |
| `Editor.AutofillArea` | src/editor.ts:49-54 | the autofill applies exactly when the form value names an area, the current name is blank and the area is known; it then uses that area |
| `Editor.Merged` | src/editor.ts:42-60 | the emitted configuration keeps the current type, takes every other key of the form value, keeps every other current key, has the area's name when the autofill applies, and is the plain merge when it does not |
| `Editor.MergeKeepsType` | src/editor.ts:42-46 | the merged configuration always has the current type, whatever the form value holds |
| `Editor.MergeKeyByKey` | src/editor.ts:42-46 | apart from the type and an autofilled name, a key in the form value takes its value and any other key keeps its current value |
| `Editor.MergeKeys` | src/editor.ts:42-59 | the merged keys are those of both objects and the type, plus the name when the autofill applies |
| `Editor.AutofillSetsAreaName` | src/editor.ts:49-59 | picking a known area while the name is absent or whitespace sets the name to the area's name, overriding any name in the form value |
| `Editor.NoAutofillIsPlainMerge` | src/editor.ts:49-60 | without an area in the form value, with a non-blank name, or with an unknown area, the result is the plain merge |
| `Editor.PlainMergeAbsorbs` | src/editor.ts:42-46 | merging a form value into a configuration that already agrees with it changes nothing |
| `Editor.MergeIdempotent` | src/editor.ts:42-60 | applying a form value that carries no name a second time changes nothing |
| `Editor.MergeRepeatedWithNameDiffers` | src/editor.ts:49-59 | when the autofill fires and the form value carries another name, the second pass takes the form value's name |
| `Editor.MergeRepeatedBlankingNameDiffers` | src/editor.ts:49-59 | when the form value blanks a non-blank name and picks a known area, the second pass fills in the area's name |
| `Editor.BedroomScenario` | src/editor.ts:49-59 | an empty name and the area area2 named Bedroom give the name Bedroom |
| `Editor.RoomCardEditor.constructor` | src/editor.ts:10-11 | a new editor has neither host nor configuration |
| `Editor.RoomCardEditor.SetConfig` | src/editor.ts:13-15 | the configuration is stored as given |
| `Editor.RoomCardEditor.Form` | src/editor.ts:17-24 | a form exists exactly when both the host and a configuration are set; it is then the schema for the configured light, so its icon-tap default follows that light, and it holds the schema's 15 fields |
| `Editor.RoomCardEditor.ValueChanged` | src/editor.ts:38-60 | the emitted configuration is the merge with the autofill, and it keeps the current type |

## Left out

- The Lit templates, the CSS and custom-element registration are not modelled. They are user interface, and the values they show are `Card.Derive`'s.
- `getConfigElement` and `getGridOptions` are not modelled. They are module loading and a layout constant.
- `handleAction`, `hasAction` and `actionHandler` are foreign calls. The model produces the configuration and the gesture handed to `handleAction` (`Card.Dispatch`). What the host then does is not modelled, and neither are the `hasHold`/`hasDoubleClick` flags computed by `hasAction`.
- The `stopPropagation` calls are DOM event plumbing and are not modelled. So the rule that an icon gesture does not also reach the card is not shown. The `config-changed` event is not modelled either: `ValueChanged` returns the configuration it would carry.
- `formatHumidity` is imported but not defined in the utilities, so `formatHumidity` is not part of this model. The humidity entry records only whether it is shown.
- src/index.ts (console output, the `window.customCards` list) and vite.config.ts (build, copy over `scp`) are I/O and tooling. They are not part of this model.
- A cover position is an `Option<int>`. Fractional positions and JavaScript's coercion of non-numeric positions are not modelled.
- In this model a string key that holds a non-string reads as absent. In JavaScript, an object under `light` would be looked up as `"[object Object]"`, and an object under `name` would make `trim()` throw. The TypeScript types exclude both cases. Numbers and booleans as configuration values are not represented.
- Lookups in `hass.states` and `hass.areas` are map lookups. Keys inherited from JavaScript's object prototype are not modelled.
- `Card.RoomCard.HandleIconAction`: requires a configuration. The icon exists only after a render with a configuration, so every event reaches a configured card. In JavaScript, reading `this.config.light` with no configuration would throw a TypeError; that error path is not modelled.
- `Editor.RoomCardEditor.ValueChanged`: requires both the host and a configuration. The form, and so the event, exists only after a render with both. In JavaScript, a missing host would only fail when the autofill needs the area registry.
- `Editor.MergeIdempotent`: weaker than idempotence for every form value. It assumes the form value carries no `name`, because the unrestricted claim is false (see the two `MergeRepeated…` lemmas).
