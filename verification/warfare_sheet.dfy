/**
 * The presentation rules of the Warfare unit sheet: the trait list it shows,
 * the icon it picks, which statistics it offers to roll, and the two updates
 * it makes to the unit's commander.
 */
module WarfareSheet {
  import opened Wrappers
  import Text
  import Config
  import opened WarfareData

  /* Traits. */

  const TraitSeparator := ';'

  /** Each entry with its surrounding whitespace removed, in order. */
  function TrimEach(entries: seq<string>): (r: seq<string>)
    ensures |r| == |entries|
    ensures forall i :: 0 <= i < |entries| ==> r[i] == Text.Trim(entries[i])
  {
    seq(|entries|, i requires 0 <= i < |entries| => Text.Trim(entries[i]))
  }

  /**
   * The traits to display: the trait list split at `;` with each entry trimmed,
   * or nothing when the list is a single blank entry.
   */
  function Traits(traitList: string): (r: Option<seq<string>>)
    ensures r.None? <==> (TraitSeparator !in traitList && Text.AllWhitespace(traitList))
  {
    var entries := TrimEach(Text.Split(traitList, TraitSeparator));
    SplitShape(traitList, TraitSeparator);
    if |entries| == 1 && entries[0] == "" then None else Some(entries)
  }

  /** Without the separator there is one segment, the whole string; with it, at least two. */
  lemma SplitShape(s: string, c: char)
    ensures c !in s ==> Text.Split(s, c) == [s]
    ensures c in s ==> |Text.Split(s, c)| >= 2
  {
    if c !in s {
      Text.SplitSegment(s, c);
    } else {
      SeparatorCounted(s, c);
    }
  }

  lemma {:induction false} SeparatorCounted(s: string, c: char)
    requires c in s
    ensures Text.Occurrences(s, c) > 0
  {
    if s[0] != c {
      SeparatorCounted(s[1..], c);
    }
  }

  /** A non-null trait list holds every `;`-separated segment, trimmed, in order; empty ones are kept. */
  lemma TraitsEntries(traitList: string)
    requires Traits(traitList).Some?
    ensures var parts := Text.Split(traitList, TraitSeparator);
      |Traits(traitList).value| == |parts| &&
      forall i :: 0 <= i < |parts| ==> Traits(traitList).value[i] == Text.Trim(parts[i])
  {
  }

  /** A non-null trait list has one entry more than it has separators. */
  lemma TraitsCount(traitList: string)
    requires Traits(traitList).Some?
    ensures |Traits(traitList).value| == Text.Occurrences(traitList, TraitSeparator) + 1
  {
  }

  /** When no entry had whitespace around it, joining the traits gives back the list. */
  lemma TraitsRoundTrip(traitList: string)
    requires Traits(traitList).Some?
    requires forall i :: 0 <= i < |Text.Split(traitList, TraitSeparator)| ==>
      Text.IsTrimmed(Text.Split(traitList, TraitSeparator)[i])
    ensures Text.Join(Traits(traitList).value, TraitSeparator) == traitList
  {
    var parts := Text.Split(traitList, TraitSeparator);
    var entries := Traits(traitList).value;
    assert |entries| == |parts|;
    forall i | 0 <= i < |parts|
      ensures entries[i] == parts[i]
    {
      assert entries[i] == Text.Trim(parts[i]);
      Text.TrimOfTrimmed(parts[i]);
    }
    assert entries == parts;
  }

  /** Blank lists show no traits. */
  lemma BlankTraits()
    ensures Traits("") == None
    ensures Traits("  ") == None
  {
    assert Text.AllWhitespace("  ");
  }

  /** A lone separator shows two empty traits: empty entries are kept. */
  lemma LoneSeparatorTraits()
    ensures Traits(";") == Some(["", ""])
  {
    assert ";"[0] == ';' && ";"[1..] == "";
    assert Text.Split(";", ';') == ["", ""];
    assert Traits(";").Some?;
    var r := Traits(";").value;
    assert |r| == 2;
    assert Text.Trim("") == "";
    assert r[0] == Text.Trim("") && r[1] == Text.Trim("");
    assert r == ["", ""];
  }

  /** Two separator-free entries around one separator give their two trimmed forms. */
  lemma TwoTraits(a: string, b: string)
    requires TraitSeparator !in a && TraitSeparator !in b
    ensures Traits(a + [TraitSeparator] + b) == Some([Text.Trim(a), Text.Trim(b)])
  {
    var list := a + [TraitSeparator] + b;
    assert list[|a|] == TraitSeparator;
    Text.SplitAfterSegment(a, b, TraitSeparator);
    Text.SplitSegment(b, TraitSeparator);
    var parts := Text.Split(list, TraitSeparator);
    assert parts == [a, b];
    var r := Traits(list).value;
    assert |r| == 2;
    assert r[0] == Text.Trim(a) && r[1] == Text.Trim(b);
    assert r == [Text.Trim(a), Text.Trim(b)];
  }

  /* Type image. */

  const LevyIcon := "modules/knw-actors/assets/icons/levy.png"

  /**
   * The header icon: the levy icon for levy infantry, otherwise the icon of the
   * unit's type; nothing when the type is not configured (the lookup fails).
   */
  function TypeImage(u: Unit): (r: Option<string>)
    ensures r == Some(LevyIcon) <==> (u.unitType == "infantry" && u.experience == "levy")
    ensures r.None? <==> u.unitType !in Config.Types
    ensures r.Some? && r.value != LevyIcon ==> r.value == Config.Types[u.unitType].img
  {
    if u.unitType == "infantry" && u.experience == "levy" then Some(LevyIcon)
    else if u.unitType in Config.Types then Some(Config.Types[u.unitType].img)
    else None
  }

  /** A levy of any type other than infantry shows its type's icon. */
  lemma LevyOfOtherTypeUsesTypeIcon(u: Unit)
    requires u.unitType in Config.Types && u.unitType != "infantry"
    ensures TypeImage(u) == Some(Config.Types[u.unitType].img)
  {
  }

  /* Core statistics. */

  /** How a statistic is shown: with an explicit sign, or as the raw number. */
  datatype Shown = Signed(n: int) | Raw(n: int)

  datatype StatCell = StatCell(key: string, labelKey: string, shown: Shown, rollable: bool)

  const CoreStatKeys: seq<string> := ["atk", "def", "pow", "tou", "mor", "com"]

  /** Statistics the sheet offers to roll, each shown with its sign. */
  const RollableKeys: set<string> := {"atk", "pow", "mor", "com"}

  function Cell(key: string, value: int, editable: bool): StatCell {
    var labelKey := "KNW.Warfare.Statistics." + key + ".abbr";
    if key in RollableKeys then StatCell(key, labelKey, Signed(value), editable)
    else StatCell(key, labelKey, Raw(value), false)
  }

  /**
   * The body's core statistics, in sheet order: attack, power, morale and
   * command are signed and rollable exactly when the sheet is editable;
   * defense and toughness show the raw value and are never rollable.
   */
  function CoreStats(u: Unit, editable: bool): (r: seq<StatCell>)
    ensures |r| == |CoreStatKeys|
    ensures forall i :: 0 <= i < |r| ==> r[i].key == CoreStatKeys[i]
    ensures forall i :: 0 <= i < |r| ==> Field(u, r[i].key) == Some(r[i].shown.n)
    ensures forall i :: 0 <= i < |r| ==> (r[i].rollable <==> editable && r[i].key in RollableKeys)
    ensures forall i :: 0 <= i < |r| ==> (r[i].shown.Raw? <==> r[i].key in {"def", "tou"})
  {
    [ Cell("atk", u.atk, editable), Cell("def", u.def, editable), Cell("pow", u.pow, editable),
      Cell("tou", u.tou, editable), Cell("mor", u.mor, editable), Cell("com", u.com, editable) ]
  }

  /** Rolling a statistic from the sheet rolls the number the sheet shows for it. */
  lemma RollMatchesShownStat(u: Unit, editable: bool, i: int, world: map<string, string>)
    requires 0 <= i < |CoreStatKeys|
    ensures RollStat(u, CoreStats(u, editable)[i].key, world).stat == Some(CoreStats(u, editable)[i].shown.n)
  {
  }

  /* Commander. */

  /**
   * An actor dropped on the sheet: its id, the compendium pack it comes from
   * (if any), and whether it has a proficiency attribute.
   */
  datatype DroppedActor = DroppedActor(id: string, pack: Option<string>, hasProficiency: bool)

  /** A pack reference counts only when it is a non-empty string. */
  predicate FromPack(a: DroppedActor) {
    a.pack.Some? && a.pack.value != ""
  }

  datatype DropWarning = PackActor | NoProficiency

  datatype DropResult = Rejected(warning: DropWarning) | Accepted(unit: Unit)

  /**
   * Dropping an actor makes it the commander, unless it comes from a pack or
   * has no proficiency attribute; the pack check is made first.
   */
  function DropActor(u: Unit, a: DroppedActor): (r: DropResult)
    ensures r == Rejected(PackActor) <==> FromPack(a)
    ensures r == Rejected(NoProficiency) <==> !FromPack(a) && !a.hasProficiency
    ensures r.Accepted? <==> !FromPack(a) && a.hasProficiency
    ensures r.Accepted? ==> r.unit.commander == a.id && r.unit.(commander := u.commander) == u
  {
    if FromPack(a) then Rejected(PackActor)
    else if !a.hasProficiency then Rejected(NoProficiency)
    else Accepted(u.(commander := a.id))
  }

  /** After an accepted drop the sheet names the dropped actor as commander. */
  lemma DropNamesCommander(u: Unit, a: DroppedActor, world: map<string, string>, noneLabel: string)
    requires DropActor(u, a).Accepted?
    requires a.id != NoCommander && a.id in world
    ensures CommanderName(DropActor(u, a).unit, world, noneLabel) == world[a.id]
    ensures ValidUnit(u) ==> ValidUnit(DropActor(u, a).unit)
  {
  }

  /**
   * Removing the commander. The notice names the current commander before the
   * update, so with no commander resolved the handler fails and nothing is
   * written. Otherwise only `commander` changes, to the empty id.
   */
  function ClearCommander(u: Unit, world: map<string, string>): (r: Option<Unit>)
    ensures r.None? <==> ResolveCommander(u, world).None?
    ensures r.Some? ==> r.value.commander == NoCommander
    ensures r.Some? ==> r.value.(commander := u.commander) == u
  {
    if ResolveCommander(u, world).None? then None else Some(u.(commander := NoCommander))
  }

  /**
   * A cleared unit shows the "None" label, rolls with an empty flavor and stays
   * valid; a second clear finds no commander and fails.
   */
  lemma ClearCommanderEffect(u: Unit, world: map<string, string>, noneLabel: string)
    requires ClearCommander(u, world).Some?
    ensures CommanderName(ClearCommander(u, world).value, world, noneLabel) == noneLabel
    ensures RollStat(ClearCommander(u, world).value, "atk", world).flavorActor == ""
    ensures ValidUnit(u) ==> ValidUnit(ClearCommander(u, world).value)
    ensures ClearCommander(ClearCommander(u, world).value, world).None?
  {
  }

  /** With a commander resolved, clearing succeeds and only empties the id. */
  lemma ClearCommanderWhenNamed(u: Unit, world: map<string, string>)
    requires u.commander != NoCommander && u.commander in world
    ensures ClearCommander(u, world) == Some(u.(commander := NoCommander))
  {
  }
}
