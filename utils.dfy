/** The formatting helpers of src/utils.ts. */
module Utils {
  import opened Wrappers
  import opened Types

  /** The unit shown when the entity reports none. */
  const DefaultTemperatureUnit := "°C"

  /**
   * `formatTemperature(hass, entityId)`: the raw state of the entity followed by
   * a space and its unit (Celsius when the entity reports none); null when no
   * id is given, the id is empty, or the host knows no such entity.
   */
  function FormatTemperature(states: map<string, EntityState>, entityId: Option<string>): (r: Option<string>)
    ensures r.None? <==> entityId.None? || entityId.value == "" || entityId.value !in states
    ensures r.Some? ==>
      var st := states[entityId.value];
      r.value == st.state + " " + (if st.unitOfMeasurement.Some? then st.unitOfMeasurement.value else DefaultTemperatureUnit)
  {
    if entityId.None? || entityId.value == "" then None
    else if entityId.value !in states then None
    else
      var stateObj := states[entityId.value];
      var unit := match stateObj.unitOfMeasurement
        case Some(u) => u
        case None => DefaultTemperatureUnit;
      Some(stateObj.state + " " + unit)
  }

  /** `s.lastIndexOf(c)`: the last position of `c` in `s`, or -1. */
  function LastIndexOf(s: string, c: char): (i: int)
    ensures -1 <= i < |s|
    ensures 0 <= i ==> s[i] == c && c !in s[i + 1..]
    ensures i == -1 <==> c !in s
  {
    if s == [] then -1
    else if s[|s| - 1] == c then |s| - 1
    else
      var init := s[..|s| - 1];
      var j := LastIndexOf(init, c);
      assert s == init + [s[|s| - 1]];
      assert j >= 0 ==> s[j + 1..] == init[j + 1..] + [s[|s| - 1]];
      j
  }

  /** Reading a formatted temperature back: the text before and after its last space. */
  function SplitReading(text: string): Option<(string, string)>
  {
    var i := LastIndexOf(text, ' ');
    if i < 0 then None else Some((text[..i], text[i + 1..]))
  }

  lemma LastIndexOfJoined(p: string, c: char, u: string)
    requires c !in u
    ensures LastIndexOf(p + [c] + u, c) == |p|
  {
    var s := p + [c] + u;
    var i := LastIndexOf(s, c);
    assert s[|p|] == c;
  }

  /**
   * The state string goes through `formatTemperature` untouched (no parsing,
   * no rounding): when the unit has no space, splitting the text at its last
   * space gives back the entity's raw state and the unit.
   */
  lemma FormatTemperatureRoundTrip(states: map<string, EntityState>, id: string)
    requires id != "" && id in states
    requires states[id].unitOfMeasurement.Some? ==> ' ' !in states[id].unitOfMeasurement.value
    ensures var st := states[id];
      SplitReading(FormatTemperature(states, Some(id)).value)
        == Some((st.state, if st.unitOfMeasurement.Some? then st.unitOfMeasurement.value else DefaultTemperatureUnit))
  {
    var st := states[id];
    var unit := if st.unitOfMeasurement.Some? then st.unitOfMeasurement.value else DefaultTemperatureUnit;
    var text := FormatTemperature(states, Some(id)).value;
    assert text == st.state + [' '] + unit;
    LastIndexOfJoined(st.state, ' ', unit);
    assert text[..|st.state|] == st.state;
    assert text[|st.state| + 1..] == unit;
  }

  /** A JavaScript value of type `T | undefined | null`. */
  datatype Nullable<T> = Undefined | Null | Defined(value: T)

  /** `isDefined(v)`: `v` is neither undefined nor null. */
  predicate IsDefined<T>(v: Nullable<T>)
    ensures IsDefined(v) <==> v.Defined?
  {
    !v.Undefined? && !v.Null?
  }
}
