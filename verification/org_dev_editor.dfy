/**
 * The organization development editor: for one stat group it finds each
 * stat's head start on the group's development track, shows the points spent
 * beyond it, sums them, and exposes the track's bounds to a range picker.
 */
module OrgDevEditor {
  import opened Wrappers
  import Text
  import Config

  /* Development context. */

  /** A stat's development: points spent, starting track value and specialization offset. */
  datatype Development = Development(points: int, start: int, spec: int)

  /** A stat of the group: its development and its other numeric fields, carried through. */
  datatype Stat = Stat(development: Development, fields: map<string, int>)

  /** One row of the editor: the form field name, the label key, the points shown, and the stat. */
  datatype StatRow = StatRow(name: string, labelKey: string, displayValue: int, stat: Stat)

  datatype DevContext = DevContext(
    statGroup: string,
    stats: seq<StatRow>,
    totalDevPoints: int,
    track: seq<int>,
    length: int,
    min: Option<int>,
    max: Option<int>)

  /** `track.findIndex(x => x === v)`: the first index holding `v`, or -1. */
  function FindIndex(track: seq<int>, v: int): (r: int)
    ensures -1 <= r < |track|
    ensures r >= 0 ==> track[r] == v
    ensures forall j :: 0 <= j < r || (r == -1 && 0 <= j < |track|) ==> track[j] != v
  {
    if |track| == 0 then -1
    else if track[0] == v then 0
    else
      var k := FindIndex(track[1..], v);
      if k == -1 then -1 else k + 1
  }

  /** `FindIndex` is -1 exactly when the value is absent. */
  lemma FindIndexAbsent(track: seq<int>, v: int)
    ensures FindIndex(track, v) == -1 <==> v !in track
  {
  }

  /** The index of the track value a stat starts from (`start + spec`), or -1. */
  function Headstart(track: seq<int>, d: Development): int {
    FindIndex(track, d.start + d.spec)
  }

  /** Points spent beyond the head start. */
  function DisplayValue(track: seq<int>, d: Development): int {
    d.points - Headstart(track, d)
  }

  /** A start value missing from the track shows one point more than spent. */
  lemma DisplayValueWhenAbsent(track: seq<int>, d: Development)
    requires d.start + d.spec !in track
    ensures DisplayValue(track, d) == d.points + 1
  {
    FindIndexAbsent(track, d.start + d.spec);
  }

  function FieldName(group: string, key: string): string {
    "system." + group + "." + key + ".development"
  }

  function LabelKey(group: string, key: string): string {
    if group == "skills" then "KNW.Organization.skills." + key
    else "KNW.Organization.defenses." + key + ".Label"
  }

  /** Sum of the shown points of a sequence of rows. */
  function SumDisplay(rows: seq<StatRow>): int {
    if |rows| == 0 then 0 else SumDisplay(rows[..|rows| - 1]) + rows[|rows| - 1].displayValue
  }

  /** Sum of the points spent over a group's entries. */
  function SumPoints(entries: seq<(string, Stat)>): int {
    if |entries| == 0 then 0
    else SumPoints(entries[..|entries| - 1]) + entries[|entries| - 1].1.development.points
  }

  /** The row of stat `key` of `group`. */
  function Row(group: string, key: string, stat: Stat, track: seq<int>): StatRow {
    StatRow(FieldName(group, key), LabelKey(group, key), DisplayValue(track, stat.development), stat)
  }

  lemma SumDisplayAppend(rows: seq<StatRow>, row: StatRow)
    ensures SumDisplay(rows + [row]) == SumDisplay(rows) + row.displayValue
  {
    assert (rows + [row])[..|rows|] == rows;
  }

  /** One row per stat of the group, in order, and the total of their shown points. */
  method BuildStats(group: string, entries: seq<(string, Stat)>, track: seq<int>)
    returns (stats: seq<StatRow>, total: int)
    ensures |stats| == |entries|
    ensures forall i :: 0 <= i < |stats| ==> stats[i] == Row(group, entries[i].0, entries[i].1, track)
    ensures total == SumDisplay(stats)
  {
    stats := [];
    total := 0;
    var k := 0;
    while k < |entries|
      invariant 0 <= k <= |entries|
      invariant |stats| == k
      invariant forall i :: 0 <= i < k ==> stats[i] == Row(group, entries[i].0, entries[i].1, track)
      invariant total == SumDisplay(stats)
    {
      var row := Row(group, entries[k].0, entries[k].1, track);
      SumDisplayAppend(stats, row);
      total := total + row.displayValue;
      stats := stats + [row];
      k := k + 1;
    }
  }

  /**
   * The total of a group whose start values are all missing from the track is
   * the points spent plus one per stat.
   */
  lemma TotalWhenAllAbsent(entries: seq<(string, Stat)>, track: seq<int>, rows: seq<StatRow>)
    requires |rows| == |entries|
    requires forall i :: 0 <= i < |rows| ==>
      rows[i].displayValue == entries[i].1.development.points - Headstart(track, entries[i].1.development)
    requires forall i :: 0 <= i < |entries| ==>
      entries[i].1.development.start + entries[i].1.development.spec !in track
    ensures SumDisplay(rows) == SumPoints(entries) + |entries|
  {
    forall i | 0 <= i < |rows|
      ensures rows[i].displayValue == entries[i].1.development.points + 1
    {
      DisplayValueWhenAbsent(track, entries[i].1.development);
    }
    SumOfOneMore(entries, rows);
  }

  /** Rows each showing one point more than their stat's points sum to the points plus the count. */
  lemma {:induction false} SumOfOneMore(entries: seq<(string, Stat)>, rows: seq<StatRow>)
    requires |rows| == |entries|
    requires forall i :: 0 <= i < |rows| ==> rows[i].displayValue == entries[i].1.development.points + 1
    ensures SumDisplay(rows) == SumPoints(entries) + |entries|
  {
    if |rows| > 0 {
      var n := |rows| - 1;
      var es, rs := entries[..n], rows[..n];
      assert forall i :: 0 <= i < n ==> es[i] == entries[i] && rs[i] == rows[i];
      SumOfOneMore(es, rs);
    }
  }

  /**
   * The editor's context for a stat group: its rows and total, the track, the
   * picker length (one less than the track's), and the track's first and last
   * values (nothing for an empty track).
   */
  method BuildContext(group: string, entries: seq<(string, Stat)>, track: seq<int>)
    returns (c: DevContext)
    ensures c.statGroup == group && c.track == track
    ensures |c.stats| == |entries| && c.totalDevPoints == SumDisplay(c.stats)
    ensures forall i :: 0 <= i < |c.stats| ==>
      c.stats[i].displayValue == entries[i].1.development.points - Headstart(track, entries[i].1.development)
    ensures forall i :: 0 <= i < |c.stats| ==>
      c.stats[i].name == FieldName(group, entries[i].0) && c.stats[i].stat == entries[i].1
    ensures forall i :: 0 <= i < |c.stats| ==> c.stats[i].labelKey == LabelKey(group, entries[i].0)
    ensures c.length == |track| - 1
    ensures c.min.Some? <==> |track| > 0
    ensures c.max.Some? <==> |track| > 0
    ensures |track| > 0 ==> c.min.value == track[0] && c.max.value == track[|track| - 1]
  {
    var stats, total := BuildStats(group, entries, track);
    var first := if |track| > 0 then Some(track[0]) else None;
    var last := if |track| > 0 then Some(track[|track| - 1]) else None;
    c := DevContext(group, stats, total, track, |track| - 1, first, last);
  }

  /**
   * `_prepareContext` for a configured stat group; nothing for a group without
   * a track, where the track lookup fails. The configured tracks give the
   * bounds -1..4 over 8 steps for skills and 10..18 over 13 steps for defenses.
   */
  method PrepareContext(group: string, entries: seq<(string, Stat)>) returns (r: Option<DevContext>)
    ensures r.Some? <==> group in {"skills", "defenses"}
    ensures r.Some? ==> r.value.statGroup == group && r.value.track == Config.Tracks[group]
    ensures r.Some? ==> r.value.totalDevPoints == SumDisplay(r.value.stats) && |r.value.stats| == |entries|
    ensures r.Some? ==> forall i :: 0 <= i < |r.value.stats| ==>
      r.value.stats[i] == Row(group, entries[i].0, entries[i].1, r.value.track)
    ensures group == "skills" ==> r.Some? && r.value.length == 8 && r.value.min == Some(-1) && r.value.max == Some(4)
    ensures group == "defenses" ==> r.Some? && r.value.length == 13 && r.value.min == Some(10) && r.value.max == Some(18)
  {
    var track := Config.TrackFor(group);
    if track.None? {
      return None;
    }
    Config.SkillsTrackShape();
    Config.DefensesTrackShape();
    var c := BuildContext(group, entries, track.value);
    assert forall i :: 0 <= i < |c.stats| ==> c.stats[i] == Row(group, entries[i].0, entries[i].1, c.track);
    return Some(c);
  }

  /* Range picker. */

  /** A JavaScript value passed as a numeric option. */
  datatype JsValue = Undefined | Null | NaN | Num(n: int)

  /** The picker's options; a missing or null `name` is `None`. */
  datatype PickerOptions = PickerOptions(
    name: Option<string>,
    value: JsValue,
    displayValue: JsValue,
    min: JsValue,
    max: JsValue,
    step: JsValue)

  /** The rendered picker: attribute texts, whether it is marked invalid, and the text shown. */
  datatype Picker = Picker(
    name: string,
    value: string,
    min: string,
    max: string,
    step: string,
    invalid: bool,
    shown: string)

  /** A value as a template literal renders it. */
  function Render(v: JsValue): string {
    match v
    case Undefined => "undefined"
    case Null => "null"
    case NaN => "NaN"
    case Num(n) => Text.IntToDecimal(n)
  }

  /** A rendered number reads back as that number; the other values render as non-empty words. */
  lemma RenderRoundTrip(v: JsValue)
    ensures v.Num? ==> Text.ParseInt(Render(v)) == v.n
    ensures |Render(v)| > 0
  {
    if v.Num? {
      Text.IntToDecimalRoundTrip(v.n);
    }
  }

  /**
   * `rangePicker`: an empty or missing name becomes `range`; a missing, null or
   * NaN value becomes empty; the picker is invalid exactly when the display
   * value is negative; it shows the display value, or the value when there is none.
   */
  function RangePicker(o: PickerOptions): (p: Picker)
    ensures p.name == (if o.name.None? || o.name.value == "" then "range" else o.name.value)
    ensures p.value == "" <==> !o.value.Num?
    ensures o.value.Num? ==> Text.ParseInt(p.value) == o.value.n
    ensures p.invalid <==> (o.displayValue.Num? && o.displayValue.n < 0)
    ensures (o.displayValue.Undefined? || o.displayValue.Null?) ==> p.shown == p.value
    ensures o.displayValue.Num? ==> Text.ParseInt(p.shown) == o.displayValue.n
    ensures o.displayValue.NaN? ==> p.shown == "NaN"
    ensures p.min == Render(o.min) && p.max == Render(o.max) && p.step == Render(o.step)
  {
    var name := if o.name.None? || o.name.value == "" then "range" else o.name.value;
    var value := if o.value.Num? then Text.IntToDecimal(o.value.n) else "";
    RenderRoundTrip(o.value);
    RenderRoundTrip(o.displayValue);
    var invalid := o.displayValue.Num? && o.displayValue.n < 0;
    var shown := if o.displayValue.Undefined? || o.displayValue.Null? then value else Render(o.displayValue);
    Picker(name, value, Render(o.min), Render(o.max), Render(o.step), invalid, shown)
  }
}
