/**
 * The configuration editor of the card (src/editor.ts): the form schema with
 * its default actions, the label and helper tables, and the merge of a form
 * change into the configuration, with the room name filled in from the
 * chosen area.
 */
module Editor {
  import opened Wrappers
  import opened Types
  import opened JsString
  import Card

  // ---------------------------------------------------------------------
  // Labels and helper texts

  /** The label of every field name `computeLabel` knows. */
  const LabelTable: map<string, string> := map[
    "name" := "Room name",
    "area" := "Area",
    "light" := "Main light",
    "sensors" := "Sensors",
    "temperature" := "Temperature",
    "humidity" := "Humidity",
    "window" := "Window",
    "cover" := "Cover",
    "lock" := "Lock",
    "motion" := "Motion",
    "interactions" := "Interactions",
    "optional_actions" := "Optional actions",
    "tap_action" := "Tap action",
    "icon_tap_action" := "Icon Tap action",
    "hold_action" := "Hold action",
    "double_tap_action" := "Double tap action"]

  /** `computeLabel({name})`: the table's label, or undefined for any other name. */
  function ComputeLabel(name: string): (r: Option<string>)
    ensures r.Some? <==> name in LabelTable
    ensures r.Some? ==> r.value == LabelTable[name]
  {
    match name
    case "name" => Some("Room name")
    case "area" => Some("Area")
    case "light" => Some("Main light")
    case "sensors" => Some("Sensors")
    case "temperature" => Some("Temperature")
    case "humidity" => Some("Humidity")
    case "window" => Some("Window")
    case "cover" => Some("Cover")
    case "lock" => Some("Lock")
    case "motion" => Some("Motion")
    case "interactions" => Some("Interactions")
    case "optional_actions" => Some("Optional actions")
    case "tap_action" => Some("Tap action")
    case "icon_tap_action" => Some("Icon Tap action")
    case "hold_action" => Some("Hold action")
    case "double_tap_action" => Some("Double tap action")
    case _ => None
  }

  /** The helper text of every field name `computeHelper` knows. */
  const HelperTable: map<string, string> := map[
    "temperature_entity" := "Select the sensor used to display room temperature",
    "humidity_entity" := "Select the sensor used to display room humidity",
    "light_entity" := "Light or light group controlled by this room",
    "tap_action" := "Action executed when tapping the card",
    "hold_action" := "Action executed on long press",
    "double_tap_action" := "Action executed on double tap"]

  /** `computeHelper({name})`: the table's helper text, or undefined for any other name. */
  function ComputeHelper(name: string): (r: Option<string>)
    ensures r.Some? <==> name in HelperTable
    ensures r.Some? ==> r.value == HelperTable[name]
  {
    match name
    case "temperature_entity" => Some("Select the sensor used to display room temperature")
    case "humidity_entity" => Some("Select the sensor used to display room humidity")
    case "light_entity" => Some("Light or light group controlled by this room")
    case "tap_action" => Some("Action executed when tapping the card")
    case "hold_action" => Some("Action executed on long press")
    case "double_tap_action" => Some("Action executed on double tap")
    case _ => None
  }

  // ---------------------------------------------------------------------
  // Form schema

  /** The selector of a form field. */
  datatype Selector =
    | AreaSelector
    | TextSelector
    | EntitySelector(domain: string, deviceClass: Option<string>)
    | UiActionSelector(defaultAction: string)

  /** A form field, or an expandable group of fields whose values sit flat in the configuration. */
  datatype SchemaItem =
    | Field(name: string, selector: Selector)
    | Expandable(name: string, flatten: bool, items: seq<SchemaItem>)

  const SensorFields: seq<SchemaItem> := [
    Field("temperature", EntitySelector("sensor", Some("temperature"))),
    Field("humidity", EntitySelector("sensor", Some("humidity"))),
    Field("window", EntitySelector("binary_sensor", Some("window"))),
    Field("cover", EntitySelector("cover", None)),
    Field("motion", EntitySelector("binary_sensor", Some("motion"))),
    Field("lock", EntitySelector("lock", None))]

  /** The default icon-tap action the form offers: the light's default, "more-info" without a light. */
  function IconTapDefault(entityId: Option<string>, toggleDomains: set<string>): (r: string)
    ensures r in {"toggle", "none", "more-info"}
    ensures r == "more-info" <==> entityId.None? || entityId.value == ""
  {
    if entityId.Some? && entityId.value != "" then Card.DefaultTileIconAction(entityId.value, toggleDomains)
    else "more-info"
  }

  function InteractionFields(entityId: Option<string>, toggleDomains: set<string>): seq<SchemaItem>
  {
    [Field("tap_action", UiActionSelector("more-info")),
     Field("icon_tap_action", UiActionSelector(IconTapDefault(entityId, toggleDomains))),
     Field("hold_action", UiActionSelector("none")),
     Field("double_tap_action", UiActionSelector("none"))]
  }

  /** The part of the form that does not depend on the light. */
  const TopFields: seq<SchemaItem> := [
    Field("area", AreaSelector),
    Field("name", TextSelector),
    Field("light", EntitySelector("light", None)),
    Expandable("sensors", true, SensorFields)]

  /** `_schema(entityId)`: the form, given the configured light. */
  function FormSchema(entityId: Option<string>, toggleDomains: set<string>): seq<SchemaItem>
  {
    TopFields + [Expandable("interactions", true, InteractionFields(entityId, toggleDomains))]
  }

  /** The name of an item, followed for a group by the names within it. */
  function ItemNames(item: SchemaItem): seq<string>
    decreases item
  {
    match item
    case Field(n, _) => [n]
    case Expandable(n, _, sub) => [n] + Names(sub)
  }

  /** The names of all items, groups included, in form order. */
  function Names(items: seq<SchemaItem>): seq<string>
    decreases items
  {
    if items == [] then [] else ItemNames(items[0]) + Names(items[1..])
  }

  /** The default action of `item` when it is, or holds, the action field called `name`. */
  function ItemDefault(item: SchemaItem, name: string): Option<string>
    decreases item
  {
    match item
    case Field(n, UiActionSelector(d)) => if n == name then Some(d) else None
    case Field(_, _) => None
    case Expandable(_, _, sub) => DefaultAction(sub, name)
  }

  /** The default action of the first action field called `name`, if the form has one. */
  function DefaultAction(items: seq<SchemaItem>, name: string): Option<string>
    decreases items
  {
    if items == [] then None
    else if ItemDefault(items[0], name).Some? then ItemDefault(items[0], name)
    else DefaultAction(items[1..], name)
  }

  const SchemaNames: seq<string> := [
    "area", "name", "light", "sensors", "temperature", "humidity", "window", "cover", "motion", "lock",
    "interactions", "tap_action", "icon_tap_action", "hold_action", "double_tap_action"]

  lemma NamesCons(item: SchemaItem, rest: seq<SchemaItem>)
    ensures Names([item] + rest) == ItemNames(item) + Names(rest)
  {
    assert ([item] + rest)[0] == item && ([item] + rest)[1..] == rest;
  }

  lemma DefaultActionCons(item: SchemaItem, rest: seq<SchemaItem>, name: string)
    ensures DefaultAction([item] + rest, name)
         == if ItemDefault(item, name).Some? then ItemDefault(item, name) else DefaultAction(rest, name)
  {
    assert ([item] + rest)[0] == item && ([item] + rest)[1..] == rest;
  }

  lemma NamesOfFour(a: SchemaItem, b: SchemaItem, c: SchemaItem, d: SchemaItem)
    ensures Names([a, b, c, d]) == ItemNames(a) + ItemNames(b) + ItemNames(c) + ItemNames(d)
  {
    assert Names([d]) == ItemNames(d) by {
      assert [d] == [d] + [];
      NamesCons(d, []);
    }
    assert Names([c, d]) == ItemNames(c) + ItemNames(d) by {
      assert [c, d] == [c] + [d];
      NamesCons(c, [d]);
    }
    assert Names([b, c, d]) == ItemNames(b) + (ItemNames(c) + ItemNames(d)) by {
      assert [b, c, d] == [b] + [c, d];
      NamesCons(b, [c, d]);
    }
    assert Names([a, b, c, d]) == ItemNames(a) + (ItemNames(b) + (ItemNames(c) + ItemNames(d))) by {
      assert [a, b, c, d] == [a] + [b, c, d];
      NamesCons(a, [b, c, d]);
    }
  }

  lemma DefaultOfFour(a: SchemaItem, b: SchemaItem, c: SchemaItem, d: SchemaItem, name: string)
    ensures DefaultAction([a, b, c, d], name)
         == if ItemDefault(a, name).Some? then ItemDefault(a, name)
            else if ItemDefault(b, name).Some? then ItemDefault(b, name)
            else if ItemDefault(c, name).Some? then ItemDefault(c, name)
            else ItemDefault(d, name)
  {
    DefaultActionCons(d, [], name);
    assert [c, d] == [c] + [d];
    DefaultActionCons(c, [d], name);
    assert [b, c, d] == [b] + [c, d];
    DefaultActionCons(b, [c, d], name);
    assert [a, b, c, d] == [a] + [b, c, d];
    DefaultActionCons(a, [b, c, d], name);
  }

  lemma {:induction false} NamesAppend(a: seq<SchemaItem>, b: seq<SchemaItem>)
    ensures Names(a + b) == Names(a) + Names(b)
  {
    if a == [] {
      assert a + b == b;
    } else {
      assert (a + b)[0] == a[0] && (a + b)[1..] == a[1..] + b;
      NamesAppend(a[1..], b);
    }
  }

  lemma {:induction false} DefaultActionAppend(a: seq<SchemaItem>, b: seq<SchemaItem>, name: string)
    ensures DefaultAction(a + b, name)
         == if DefaultAction(a, name).Some? then DefaultAction(a, name) else DefaultAction(b, name)
  {
    if a == [] {
      assert a + b == b;
    } else {
      assert (a + b)[0] == a[0] && (a + b)[1..] == a[1..] + b;
      DefaultActionAppend(a[1..], b, name);
    }
  }

  /** The names of a run of plain fields are the fields' own names. */
  lemma {:induction false} NamesOfFields(items: seq<SchemaItem>)
    requires forall i :: 0 <= i < |items| ==> items[i].Field?
    ensures |Names(items)| == |items|
    ensures forall i :: 0 <= i < |items| ==> Names(items)[i] == items[i].name
  {
    if items != [] {
      NamesOfFields(items[1..]);
      assert Names(items) == [items[0].name] + Names(items[1..]);
    }
  }

  /** A run of fields none of which is an action selector offers no default action. */
  lemma {:induction false} NoDefaultAmongFields(items: seq<SchemaItem>, name: string)
    requires forall i :: 0 <= i < |items| ==> items[i].Field? && !items[i].selector.UiActionSelector?
    ensures DefaultAction(items, name) == None
  {
    if items != [] {
      NoDefaultAmongFields(items[1..], name);
    }
  }

  /** The sensor group holds the six entity fields, in this order. */
  lemma SensorFieldNames()
    ensures Names(SensorFields) == ["temperature", "humidity", "window", "cover", "motion", "lock"]
  {
    NamesOfFields(SensorFields);
  }

  /** The fields before the interaction group, the sensor fields included. */
  lemma TopFieldNames()
    ensures Names(TopFields)
         == ["area", "name", "light", "sensors", "temperature", "humidity", "window", "cover", "motion", "lock"]
  {
    NamesOfFour(TopFields[0], TopFields[1], TopFields[2], TopFields[3]);
    SensorFieldNames();
  }

  /** The interaction group holds the four action fields, whatever the light is. */
  lemma InteractionFieldNames(entityId: Option<string>, toggleDomains: set<string>)
    ensures Names(InteractionFields(entityId, toggleDomains))
         == ["tap_action", "icon_tap_action", "hold_action", "double_tap_action"]
  {
    NamesOfFields(InteractionFields(entityId, toggleDomains));
  }

  /** The form holds exactly these fields and groups, whatever the light is. */
  lemma FormSchemaNames(entityId: Option<string>, toggleDomains: set<string>)
    ensures Names(FormSchema(entityId, toggleDomains)) == SchemaNames
  {
    var inter := InteractionFields(entityId, toggleDomains);
    var last := Expandable("interactions", true, inter);
    assert Names([last]) == ["interactions", "tap_action", "icon_tap_action", "hold_action", "double_tap_action"] by {
      NamesCons(last, []);
      InteractionFieldNames(entityId, toggleDomains);
    }
    TopFieldNames();
    NamesAppend(TopFields, [last]);
  }

  /** Every field and group of the form has a label. */
  lemma FormSchemaLabelled(entityId: Option<string>, toggleDomains: set<string>)
    ensures forall n :: n in Names(FormSchema(entityId, toggleDomains)) ==> ComputeLabel(n).Some?
  {
    FormSchemaNames(entityId, toggleDomains);
  }

  /**
   * Of the form's fields only the three card actions get a helper text; the
   * entity fields and the icon-tap action get none.
   */
  lemma FormSchemaHelpers(entityId: Option<string>, toggleDomains: set<string>)
    ensures forall n :: n in Names(FormSchema(entityId, toggleDomains)) ==>
      (ComputeHelper(n).Some? <==> n in {"tap_action", "hold_action", "double_tap_action"})
  {
    FormSchemaNames(entityId, toggleDomains);
  }

  /**
   * The defaults the form offers: "more-info" for a card tap, the light's
   * default (or "more-info" without a light) for an icon tap, "none" for
   * hold and double tap.
   */
  lemma FormSchemaDefaults(entityId: Option<string>, toggleDomains: set<string>, name: string)
    requires name in {"tap_action", "icon_tap_action", "hold_action", "double_tap_action"}
    ensures DefaultAction(FormSchema(entityId, toggleDomains), name) == Some(
      if name == "tap_action" then "more-info"
      else if name == "icon_tap_action" then
        (if entityId.Some? && entityId.value != "" then Card.DefaultTileIconAction(entityId.value, toggleDomains)
         else "more-info")
      else "none")
  {
    var inter := InteractionFields(entityId, toggleDomains);
    var last := Expandable("interactions", true, inter);
    assert DefaultAction(TopFields, name) == None by {
      NoDefaultAmongFields(SensorFields, name);
      DefaultOfFour(TopFields[0], TopFields[1], TopFields[2], TopFields[3], name);
    }
    assert DefaultAction([last], name) == DefaultAction(inter, name) by {
      DefaultActionCons(last, [], name);
    }
    DefaultOfFour(inter[0], inter[1], inter[2], inter[3], name);
    DefaultActionAppend(TopFields, [last], name);
  }

  // ---------------------------------------------------------------------
  // Merging a form change

  /** `{...this.config, ...value, type: this.config.type}`: the delta wins key by key, the type is the current one. */
  function PlainMerge(current: Config, delta: Config): (r: Config)
    ensures r.Keys == current.Keys + delta.Keys + {"type"}
    ensures r["type"] == Get(current, "type")
    ensures forall k :: k in delta && k != "type" ==> r[k] == delta[k]
    ensures forall k :: k in current && k !in delta && k != "type" ==> r[k] == current[k]
  {
    (current + delta)["type" := Get(current, "type")]
  }

  /** `!this.config.name || this.config.name.trim() === ""`. */
  predicate NameIsBlank(cfg: Config)
    ensures NameIsBlank(cfg) <==> Text(cfg, "name").None? || AllWhitespace(Text(cfg, "name").value)
  {
    match Text(cfg, "name")
    case None => true
    case Some(n) => TrimEmptyIffAllWhitespace(n); Trim(n) == ""
  }

  /** The area whose name the editor copies into the configuration, if the autofill applies. */
  function AutofillArea(current: Config, delta: Config, areas: map<string, Area>): (r: Option<Area>)
    ensures r.Some? <==> EntityId(delta, "area").Some? && NameIsBlank(current) && EntityId(delta, "area").value in areas
    ensures r.Some? ==> r.value == areas[EntityId(delta, "area").value]
  {
    match EntityId(delta, "area")
    case None => None
    case Some(id) => if NameIsBlank(current) && id in areas then Some(areas[id]) else None
  }

  /** The configuration `_valueChanged` emits. */
  function Merged(current: Config, delta: Config, areas: map<string, Area>): (r: Config)
    ensures "type" in r && r["type"] == Get(current, "type")
    ensures forall k :: k in delta && k != "type" && k != "name" ==> k in r && r[k] == delta[k]
    ensures forall k :: k in current && k !in delta && k != "type" && k != "name" ==> k in r && r[k] == current[k]
    ensures AutofillArea(current, delta, areas).Some? ==> "name" in r && r["name"] == Str(AutofillArea(current, delta, areas).value.name)
    ensures AutofillArea(current, delta, areas).None? ==> r == PlainMerge(current, delta)
  {
    match AutofillArea(current, delta, areas)
    case Some(area) => PlainMerge(current, delta)["name" := Str(area.name)]
    case None => PlainMerge(current, delta)
  }

  /** Whatever the delta holds, the merged configuration keeps the current type. */
  lemma MergeKeepsType(current: Config, delta: Config, areas: map<string, Area>)
    ensures Get(Merged(current, delta, areas), "type") == Get(current, "type")
  {
  }

  /**
   * Shallow merge: a key of the delta takes the delta's value, any other key
   * keeps its current value; the type and an autofilled name are the exceptions.
   */
  lemma MergeKeyByKey(current: Config, delta: Config, areas: map<string, Area>, key: string)
    requires key != "type"
    requires key == "name" ==> AutofillArea(current, delta, areas).None?
    ensures key in delta ==> Get(Merged(current, delta, areas), key) == delta[key]
    ensures key !in delta ==> Get(Merged(current, delta, areas), key) == Get(current, key)
  {
  }

  /** The merged configuration has the keys of both, and the type key. */
  lemma MergeKeys(current: Config, delta: Config, areas: map<string, Area>)
    ensures Merged(current, delta, areas).Keys
         == current.Keys + delta.Keys + {"type"} + (if AutofillArea(current, delta, areas).Some? then {"name"} else {})
  {
  }

  /**
   * The autofill: choosing a known area while the current name is blank sets the
   * name to the area's name, whatever name the delta carries.
   */
  lemma AutofillSetsAreaName(current: Config, delta: Config, areas: map<string, Area>, id: string)
    requires Get(delta, "area") == Str(id) && id != ""
    requires Text(current, "name").None? || AllWhitespace(Text(current, "name").value)
    requires id in areas
    ensures Get(Merged(current, delta, areas), "name") == Str(areas[id].name)
  {
    if Text(current, "name").Some? {
      TrimEmptyIffAllWhitespace(Text(current, "name").value);
    }
  }

  /**
   * With no area in the delta, a non-blank current name, or an unknown area, the
   * editor emits the plain merge.
   */
  lemma NoAutofillIsPlainMerge(current: Config, delta: Config, areas: map<string, Area>)
    requires || EntityId(delta, "area").None?
             || (Text(current, "name").Some? && !AllWhitespace(Text(current, "name").value))
             || EntityId(delta, "area").value !in areas
    ensures Merged(current, delta, areas) == PlainMerge(current, delta)
  {
    if Text(current, "name").Some? {
      TrimEmptyIffAllWhitespace(Text(current, "name").value);
    }
  }

  /** Merging a delta into a configuration that already agrees with it changes nothing. */
  lemma PlainMergeAbsorbs(m: Config, delta: Config)
    requires "type" in m
    requires forall k :: k in delta && k != "type" ==> k in m && m[k] == delta[k]
    ensures PlainMerge(m, delta) == m
  {
    var p := PlainMerge(m, delta);
    assert p.Keys == m.Keys;
    forall k | k in m ensures p[k] == m[k] {
    }
  }

  /** Applying a delta that carries no name a second time changes nothing. */
  lemma MergeIdempotent(current: Config, delta: Config, areas: map<string, Area>)
    requires "name" !in delta
    ensures Merged(Merged(current, delta, areas), delta, areas) == Merged(current, delta, areas)
  {
    var once := Merged(current, delta, areas);
    forall k | k in delta && k != "type" ensures k in once && once[k] == delta[k] {
      MergeKeyByKey(current, delta, areas, k);
    }
    PlainMergeAbsorbs(once, delta);
    if AutofillArea(current, delta, areas).None? {
      assert Text(once, "name") == Text(current, "name") by {
        MergeKeyByKey(current, delta, areas, "name");
      }
      assert AutofillArea(once, delta, areas).None?;
    }
  }

  /**
   * Re-applying a delta that carries a name is not idempotent when the
   * autofill fires: the first pass fills in the area's name, the second finds
   * that name non-blank and takes the delta's.
   */
  lemma MergeRepeatedWithNameDiffers(current: Config, delta: Config, areas: map<string, Area>, id: string)
    requires Text(current, "name").None? || AllWhitespace(Text(current, "name").value)
    requires Get(delta, "area") == Str(id) && id != "" && id in areas
    requires !AllWhitespace(areas[id].name)
    requires "name" in delta && delta["name"] != Str(areas[id].name)
    ensures Get(Merged(current, delta, areas), "name") == Str(areas[id].name)
    ensures Get(Merged(Merged(current, delta, areas), delta, areas), "name") == delta["name"]
  {
    AutofillSetsAreaName(current, delta, areas, id);
    var once := Merged(current, delta, areas);
    TrimEmptyIffAllWhitespace(areas[id].name);
    assert !NameIsBlank(once);
    assert Text(once, "name") == Some(areas[id].name);
    NoAutofillIsPlainMerge(once, delta, areas);
    MergeKeyByKey(once, delta, areas, "name");
  }

  /**
   * Nor is re-applying a delta that blanks a non-blank name while choosing a
   * known area: the first pass keeps the blank name, the second fills in the
   * area's.
   */
  lemma MergeRepeatedBlankingNameDiffers(current: Config, delta: Config, areas: map<string, Area>, id: string)
    requires Text(current, "name").Some? && !AllWhitespace(Text(current, "name").value)
    requires Get(delta, "area") == Str(id) && id != "" && id in areas
    requires Get(delta, "name") == Str("")
    ensures Get(Merged(current, delta, areas), "name") == Str("")
    ensures Get(Merged(Merged(current, delta, areas), delta, areas), "name") == Str(areas[id].name)
  {
    NoAutofillIsPlainMerge(current, delta, areas);
    var once := Merged(current, delta, areas);
    assert Get(once, "name") == Str("");
    assert AllWhitespace("");
    AutofillSetsAreaName(once, delta, areas, id);
  }

  /** An empty name and the area "area2" named "Bedroom" give the name "Bedroom". */
  lemma BedroomScenario()
    ensures Get(Merged(map["area" := Str("area1"), "name" := Str("")], map["area" := Str("area2")],
                       map["area2" := Area("Bedroom", None)]), "name") == Str("Bedroom")
  {
  }

  // ---------------------------------------------------------------------
  // The editor element

  /** The part of the host object the editor reads. */
  datatype EditorHass = EditorHass(areas: map<string, Area>)

  class RoomCardEditor {
    var hass: Option<EditorHass>
    var config: Option<Config>

    constructor()
      ensures hass.None? && config.None?
    {
      hass := None;
      config := None;
    }

    /** `setConfig(config)`: stores the configuration as given. */
    method SetConfig(c: Option<Config>)
      modifies this`config
      ensures config == c
    {
      config := c;
    }

    /** `render()`: the form, once both the host and a configuration are present. */
    function Form(toggleDomains: set<string>): (f: Option<seq<SchemaItem>>)
      reads this
      ensures f.Some? <==> hass.Some? && config.Some?
      ensures f.Some? ==> f.value == FormSchema(Text(config.value, "light"), toggleDomains)
      ensures f.Some? ==> Names(f.value) == SchemaNames
    {
      if hass.None? || config.None? then None
      else
        FormSchemaNames(Text(config.value, "light"), toggleDomains);
        Some(FormSchema(Text(config.value, "light"), toggleDomains))
    }

    /**
     * `_valueChanged(ev)`: the configuration to emit for the form value
     * `value`. The form only exists once the host and a configuration are set.
     */
    method ValueChanged(value: Config) returns (newConfig: Config)
      requires hass.Some? && config.Some?
      ensures newConfig == Merged(config.value, value, hass.value.areas)
      ensures Get(newConfig, "type") == Get(config.value, "type")
    {
      var cfg := config.value;
      newConfig := cfg + value;
      newConfig := newConfig["type" := Get(cfg, "type")];
      var area := EntityId(value, "area");
      if area.Some? && NameIsBlank(cfg) {
        var areas := hass.value.areas;
        if area.value in areas {
          newConfig := newConfig["name" := Str(areas[area.value].name)];
        }
      }
    }
  }
}
