/**
 * The module's static configuration: the choice tables of warfare units, the
 * organization size table, the three defense level lists, the associated
 * skills and the two development tracks. All of them are constants; the
 * lemmas state the facts about them that the rest of the model relies on.
 */
module Config {
  import opened Wrappers
  import Text

  /* Experience levels and gear tiers: key to localization label. */

  const Experience: map<string, string> := map[
    "levy" := "KNW.Warfare.Experience.levy",
    "regular" := "KNW.Warfare.Experience.regular",
    "veteran" := "KNW.Warfare.Experience.veteran",
    "elite" := "KNW.Warfare.Experience.elite",
    "superElite" := "KNW.Warfare.Experience.super-elite"
  ]

  const Gear: map<string, string> := map[
    "light" := "KNW.Warfare.Gear.light",
    "medium" := "KNW.Warfare.Gear.medium",
    "heavy" := "KNW.Warfare.Gear.heavy",
    "superHeavy" := "KNW.Warfare.Gear.super-heavy"
  ]

  /* Unit types: each carries a label and an icon. */

  datatype UnitType = UnitType(labelKey: string, img: string)

  const IconDir := "modules/knw-actors/assets/icons/"

  const Types: map<string, UnitType> := map[
    "aerial" := UnitType("KNW.Warfare.Type.aerial", IconDir + "aerial.png"),
    "artillery" := UnitType("KNW.Warfare.Type.artillery", IconDir + "artillery.png"),
    "artillerySiege" := UnitType("KNW.Warfare.Type.artillery-siege", IconDir + "artillery-siege.png"),
    "cavalry" := UnitType("KNW.Warfare.Type.cavalry", IconDir + "cavalry.png"),
    "infantry" := UnitType("KNW.Warfare.Type.infantry", IconDir + "infantry.png")
  ]

  /** Unit tiers, labelled with the Roman numerals U+2160..U+2164. */
  const Tiers: map<int, string> := map[
    1 := "\U{2160}", 2 := "\U{2161}", 3 := "\U{2162}", 4 := "\U{2163}", 5 := "\U{2164}"
  ]

  /* Defense levels: the same seven values for each of the three defenses. */

  datatype LevelChoice = LevelChoice(value: int, labelKey: string)

  const CommunicationsLevels: seq<LevelChoice> := [
    LevelChoice(-3, "KNW.Organization.defenses.com.-3"),
    LevelChoice(-2, "KNW.Organization.defenses.com.-2"),
    LevelChoice(-1, "KNW.Organization.defenses.com.-1"),
    LevelChoice(0, "KNW.Organization.defenses.com.0"),
    LevelChoice(1, "KNW.Organization.defenses.com.1"),
    LevelChoice(2, "KNW.Organization.defenses.com.2"),
    LevelChoice(3, "KNW.Organization.defenses.com.3")
  ]

  const ResolveLevels: seq<LevelChoice> := [
    LevelChoice(-3, "KNW.Organization.defenses.rlv.-3"),
    LevelChoice(-2, "KNW.Organization.defenses.rlv.-2"),
    LevelChoice(-1, "KNW.Organization.defenses.rlv.-1"),
    LevelChoice(0, "KNW.Organization.defenses.rlv.0"),
    LevelChoice(1, "KNW.Organization.defenses.rlv.1"),
    LevelChoice(2, "KNW.Organization.defenses.rlv.2"),
    LevelChoice(3, "KNW.Organization.defenses.rlv.3")
  ]

  const ResourcesLevels: seq<LevelChoice> := [
    LevelChoice(-3, "KNW.Organization.defenses.rsc.-3"),
    LevelChoice(-2, "KNW.Organization.defenses.rsc.-2"),
    LevelChoice(-1, "KNW.Organization.defenses.rsc.-1"),
    LevelChoice(0, "KNW.Organization.defenses.rsc.0"),
    LevelChoice(1, "KNW.Organization.defenses.rsc.1"),
    LevelChoice(2, "KNW.Organization.defenses.rsc.2"),
    LevelChoice(3, "KNW.Organization.defenses.rsc.3")
  ]

  /** The level list configured under a defense key (`com`, `rlv`, `rsc`). */
  function LevelChoices(defense: string): (r: Option<seq<LevelChoice>>)
    ensures r.Some? <==> defense in {"com", "rlv", "rsc"}
    ensures r.Some? ==> |r.value| == 7
    ensures r.Some? ==> forall i :: 0 <= i < 7 ==> r.value[i].value == i - 3
  {
    match defense
    case "com" => Some(CommunicationsLevels)
    case "rlv" => Some(ResolveLevels)
    case "rsc" => Some(ResourcesLevels)
    case _ => None
  }

  /** Every level label is `KNW.Organization.defenses.<key>.<value>`. */
  lemma LevelLabels(defense: string)
    requires defense in {"com", "rlv", "rsc"}
    ensures forall c :: c in LevelChoices(defense).value ==>
      c.labelKey == "KNW.Organization.defenses." + defense + "." + Text.IntToDecimal(c.value)
  {
    var levels := LevelChoices(defense).value;
    forall i | 0 <= i < 7
      ensures levels[i].labelKey == "KNW.Organization.defenses." + defense + "." + Text.IntToDecimal(levels[i].value)
    {
      LevelLabel(defense, i);
    }
  }

  /** The rendered level values -3..3, in table order. */
  const LevelDigits := ["-3", "-2", "-1", "0", "1", "2", "3"]

  lemma LevelLabel(defense: string, i: int)
    requires defense in {"com", "rlv", "rsc"}
    requires 0 <= i < 7
    ensures var c := LevelChoices(defense).value[i];
      c.labelKey == "KNW.Organization.defenses." + defense + "." + Text.IntToDecimal(c.value)
  {
    LevelDigit(i);
    if defense == "com" {
      CommunicationsLabel(i);
    } else if defense == "rlv" {
      ResolveLabel(i);
    } else {
      ResourcesLabel(i);
    }
  }

  lemma LevelDigit(i: int)
    requires 0 <= i < 7
    ensures Text.IntToDecimal(i - 3) == LevelDigits[i]
  {
    if i < 3 {
      assert Text.IntToDecimal(i - 3) == "-" + Text.NatToDecimal(3 - i);
    } else {
      assert Text.IntToDecimal(i - 3) == Text.NatToDecimal(i - 3);
    }
  }

  lemma CommunicationsLabel(i: int)
    requires 0 <= i < 7
    ensures CommunicationsLevels[i].labelKey == "KNW.Organization.defenses.com." + LevelDigits[i]
  {
  }

  lemma ResolveLabel(i: int)
    requires 0 <= i < 7
    ensures ResolveLevels[i].labelKey == "KNW.Organization.defenses.rlv." + LevelDigits[i]
  {
  }

  lemma ResourcesLabel(i: int)
    requires 0 <= i < 7
    ensures ResourcesLevels[i].labelKey == "KNW.Organization.defenses.rsc." + LevelDigits[i]
  {
  }

  /** The level values of each defense are strictly increasing. */
  lemma LevelsStrictlyIncreasing(defense: string)
    requires defense in {"com", "rlv", "rsc"}
    ensures forall i, j :: 0 <= i < j < |LevelChoices(defense).value| ==>
      LevelChoices(defense).value[i].value < LevelChoices(defense).value[j].value
  {
  }

  /* Organization sizes: power die and its image. */

  datatype SizeEntry = SizeEntry(powerDie: int, diePath: string)

  const DiceDir := "modules/knw-actors/assets/dice/"

  const Sizes: map<int, SizeEntry> := map[
    1 := SizeEntry(4, DiceDir + "d4.svg"),
    2 := SizeEntry(6, DiceDir + "d6.svg"),
    3 := SizeEntry(8, DiceDir + "d8.svg"),
    4 := SizeEntry(10, DiceDir + "d10.svg"),
    5 := SizeEntry(12, DiceDir + "d12.svg")
  ]

  /**
   * The size table entry of an organization size: defined for 1..5 only, with
   * power die `2 * size + 2` and the image of that die.
   */
  function SizeFor(size: int): (r: Option<SizeEntry>)
    ensures r.Some? <==> 1 <= size <= 5
    ensures r.Some? ==> r.value.powerDie == 2 * size + 2
    ensures r.Some? ==> r.value.diePath == DiceDir + "d" + Text.IntToDecimal(r.value.powerDie) + ".svg"
  {
    assert Text.IntToDecimal(4) == "4" && Text.IntToDecimal(6) == "6" && Text.IntToDecimal(8) == "8";
    assert Text.IntToDecimal(10) == "10" && Text.IntToDecimal(12) == "12";
    if size in Sizes then Some(Sizes[size]) else None
  }

  /* Skills of a member related to each organization skill. */

  const AssocSkills: map<string, seq<string>> := map[
    "dip" := ["ins", "per"],
    "esp" := ["inv", "ste"],
    "lor" := ["arc", "his", "rel"],
    "opr" := ["ath", "ins"]
  ]

  /** Each organization skill has two or three related skills; insight serves two of them. */
  lemma AssocSkillsShape()
    ensures AssocSkills.Keys == {"dip", "esp", "lor", "opr"}
    ensures forall k :: k in AssocSkills ==> 2 <= |AssocSkills[k]| <= 3
    ensures forall k :: k in AssocSkills ==> ("ins" in AssocSkills[k] <==> k in {"dip", "opr"})
  {
  }

  /* Development tracks: points spent to derived value. */

  const SkillsTrack: seq<int> := [-1, 0, 1, 2, 2, 3, 3, 3, 4]
  const DefensesTrack: seq<int> := [10, 11, 12, 13, 14, 14, 15, 15, 16, 16, 17, 17, 17, 18]

  const Tracks: map<string, seq<int>> := map["skills" := SkillsTrack, "defenses" := DefensesTrack]

  ghost predicate NonDecreasing(s: seq<int>) {
    forall i, j :: 0 <= i <= j < |s| ==> s[i] <= s[j]
  }

  /** Neighbouring entries in order suffice for the whole sequence to be in order. */
  lemma {:induction false} NeighboursSuffice(s: seq<int>)
    requires forall i :: 0 <= i < |s| - 1 ==> s[i] <= s[i + 1]
    ensures NonDecreasing(s)
  {
    if |s| > 1 {
      NeighboursSuffice(s[1..]);
      forall i, j | 0 <= i <= j < |s|
        ensures s[i] <= s[j]
      {
        if i < j {
          assert s[1..][i] <= s[1..][j - 1];
        }
      }
    }
  }

  /** The skills track has nine entries from -1 to 4, in order. */
  lemma SkillsTrackShape()
    ensures |SkillsTrack| == 9 && NonDecreasing(SkillsTrack)
    ensures SkillsTrack[0] == -1 && SkillsTrack[8] == 4
  {
    NeighboursSuffice(SkillsTrack);
  }

  /** The defenses track has fourteen entries from 10 to 18, in order. */
  lemma DefensesTrackShape()
    ensures |DefensesTrack| == 14 && NonDecreasing(DefensesTrack)
    ensures DefensesTrack[0] == 10 && DefensesTrack[13] == 18
  {
    NeighboursSuffice(DefensesTrack);
  }

  /** The track configured for a stat group: only `skills` and `defenses` have one. */
  function TrackFor(group: string): (r: Option<seq<int>>)
    ensures r.Some? <==> group in {"skills", "defenses"}
    ensures r.Some? ==> |r.value| > 0 && NonDecreasing(r.value)
  {
    SkillsTrackShape();
    DefensesTrackShape();
    if group in Tracks then Some(Tracks[group]) else None
  }

  /** Warfare units have exactly these five types. */
  lemma TypeKeys()
    ensures Types.Keys == {"aerial", "artillery", "artillerySiege", "cavalry", "infantry"}
  {
  }

  /** Tiers are exactly 1..5. */
  lemma TierKeys()
    ensures Tiers.Keys == {1, 2, 3, 4, 5}
    ensures forall t :: t in Tiers <==> 1 <= t <= 5
  {
  }

  /** Experience levels and gear tiers have exactly the documented keys. */
  lemma ExperienceAndGearKeys()
    ensures Experience.Keys == {"levy", "regular", "veteran", "elite", "superElite"}
    ensures Gear.Keys == {"light", "medium", "heavy", "superHeavy"}
  {
  }
}
