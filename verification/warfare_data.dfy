/**
 * The Warfare unit record: its fields, the defaults and constraints its schema
 * declares, and the values its getters and its stat roll derive from it.
 */
module WarfareData {
  import opened Wrappers
  import Config

  /**
   * Current and maximum casualty capacity. Both are integer number fields that
   * do not switch `nullable` off, so either may be null; nothing relates them.
   */
  datatype Size = Size(max: Option<int>, value: Option<int>)

  /**
   * A unit. `commander` is the id of another actor, with the empty string for
   * no commander; `unitType` is the record's `type` field.
   */
  datatype Unit = Unit(
    commander: string,
    ancestry: string,
    experience: string,
    gear: string,
    unitType: string,
    atk: int,
    def: int,
    pow: int,
    tou: int,
    mor: int,
    com: int,
    attacks: int,
    dmg: int,
    mov: int,
    tier: Option<int>,
    size: Size,
    traitList: string)

  const NoCommander := ""

  /** The record the schema creates when no value is supplied. */
  const DefaultUnit := Unit(
    commander := NoCommander,
    ancestry := "",
    experience := "regular",
    gear := "light",
    unitType := "infantry",
    atk := 0, def := 10, pow := 0, tou := 10, mor := 0, com := 0,
    attacks := 1, dmg := 1, mov := 1,
    tier := Some(1),
    size := Size(Some(6), Some(6)),
    traitList := "")

  /**
   * The schema's constraints beyond the field types: the enumerated strings
   * take one of their configured keys and a non-null tier is a configured
   * tier. The integer statistics are required, non-null integers by type.
   */
  predicate ValidUnit(u: Unit) {
    && u.experience in Config.Experience
    && u.gear in Config.Gear
    && u.unitType in Config.Types
    && (u.tier.Some? ==> u.tier.value in Config.Tiers)
  }

  /** The default record is valid and holds the documented initial values. */
  lemma DefaultUnitShape()
    ensures ValidUnit(DefaultUnit)
    ensures DefaultUnit.atk == 0 && DefaultUnit.pow == 0 && DefaultUnit.mor == 0 && DefaultUnit.com == 0
    ensures DefaultUnit.def == 10 && DefaultUnit.tou == 10
    ensures DefaultUnit.attacks == 1 && DefaultUnit.dmg == 1 && DefaultUnit.mov == 1
    ensures DefaultUnit.tier == Some(1) && DefaultUnit.size == Size(Some(6), Some(6))
    ensures DefaultUnit.traitList == "" && DefaultUnit.commander == NoCommander
    ensures DefaultUnit.experience == "regular" && DefaultUnit.gear == "light" && DefaultUnit.unitType == "infantry"
  {
  }

  /** Validity says nothing about the casualty die against its maximum. */
  lemma SizeUnconstrained(u: Unit, value: int)
    requires ValidUnit(u)
    ensures ValidUnit(u.(size := Size(u.size.max, Some(value))))
  {
  }

  /** Units remaining for a battle. */
  function CasualtyDie(u: Unit): Option<int> {
    u.size.value
  }

  /** The casualty die is the stored `size.value`, unchanged and unaffected by `size.max`. */
  lemma CasualtyDieIsStoredValue(u: Unit, max: Option<int>)
    ensures CasualtyDie(u) == u.size.value
    ensures CasualtyDie(u.(size := Size(max, u.size.value))) == CasualtyDie(u)
  {
  }

  /** The commander's name when the stored id names a known actor. */
  function ResolveCommander(u: Unit, world: map<string, string>): (r: Option<string>)
    ensures r.Some? <==> (u.commander != NoCommander && u.commander in world)
    ensures r.Some? ==> r.value == world[u.commander]
  {
    if u.commander != NoCommander && u.commander in world then Some(world[u.commander]) else None
  }

  /** The commander's name, or the localized "None" label when there is no commander. */
  function CommanderName(u: Unit, world: map<string, string>, noneLabel: string): (r: string)
    ensures ResolveCommander(u, world).Some? ==> r == ResolveCommander(u, world).value
    ensures ResolveCommander(u, world).None? ==> r == noneLabel
  {
    ResolveCommander(u, world).GetOr(noneLabel)
  }

  /**
   * The unit's own property named `key`, as `this[key]` reads it: a number for
   * the integer statistics and the tier, the casualty die through its getter,
   * nothing for any other key.
   */
  function Field(u: Unit, key: string): (r: Option<int>)
    ensures key in {"atk", "def", "pow", "tou", "mor", "com", "attacks", "dmg", "mov"} ==> r.Some?
    ensures key == "tier" ==> r == u.tier
    ensures key == "casualtyDie" ==> r == CasualtyDie(u)
    ensures key !in {"atk", "def", "pow", "tou", "mor", "com", "attacks", "dmg", "mov", "tier", "casualtyDie"} ==> r.None?
  {
    match key
    case "atk" => Some(u.atk)
    case "def" => Some(u.def)
    case "pow" => Some(u.pow)
    case "tou" => Some(u.tou)
    case "mor" => Some(u.mor)
    case "com" => Some(u.com)
    case "attacks" => Some(u.attacks)
    case "dmg" => Some(u.dmg)
    case "mov" => Some(u.mov)
    case "tier" => u.tier
    case "casualtyDie" => CasualtyDie(u)
    case _ => None
  }

  /** The data a stat roll hands to the dice engine. */
  datatype RollRequest = RollRequest(
    parts: seq<string>,
    stat: Option<int>,
    statLabelKey: string,
    flavorActor: string)

  /**
   * Rolling stat `stat`: one term `@stat` bound to the unit's own value of that
   * field, labelled by the stat, with the commander's name (or "") in the flavor.
   */
  function RollStat(u: Unit, stat: string, world: map<string, string>): (r: RollRequest)
    ensures r.parts == ["@stat"]
    ensures r.stat == Field(u, stat)
    ensures r.statLabelKey == "KNW.Warfare.Statistics." + stat + ".long"
    ensures r.flavorActor == CommanderName(u, world, "")
  {
    RollRequest(
      ["@stat"],
      Field(u, stat),
      "KNW.Warfare.Statistics." + stat + ".long",
      match ResolveCommander(u, world)
      case Some(name) => name
      case None => "")
  }

  /** A roll reads the stored value: setting a statistic is what the next roll of it sees. */
  lemma RollSeesStoredValue(u: Unit, v: int, world: map<string, string>)
    ensures RollStat(u.(atk := v), "atk", world).stat == Some(v)
    ensures RollStat(u.(def := v), "def", world).stat == Some(v)
    ensures RollStat(u.(pow := v), "pow", world).stat == Some(v)
    ensures RollStat(u.(tou := v), "tou", world).stat == Some(v)
    ensures RollStat(u.(mor := v), "mor", world).stat == Some(v)
    ensures RollStat(u.(com := v), "com", world).stat == Some(v)
    ensures RollStat(u.(attacks := v), "attacks", world).stat == Some(v)
    ensures RollStat(u.(dmg := v), "dmg", world).stat == Some(v)
    ensures RollStat(u.(mov := v), "mov", world).stat == Some(v)
    ensures RollStat(u.(tier := Some(v)), "tier", world).stat == Some(v)
    ensures RollStat(u.(size := Size(u.size.max, Some(v))), "casualtyDie", world).stat == Some(v)
  {
  }
}
