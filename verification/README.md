# knw-actors: a Dafny model of the unit and organization records

This project models the small pure computations of the `knw-actors` add-on for a
virtual-tabletop host. The add-on defines two actor types. One is the Warfare
unit, with combat statistics, a commander, a casualty die and a trait list. The
other is the Organization, with skills, defenses and a power pool. The host owns
storage, rolling, rendering and localization. What the add-on itself decides is
modelled here:

- **Text** (`text.dfy`): the ECMAScript string operations the sheets rely on.
  These are `trim` (with ECMAScript's whitespace and line-terminator set), `split`
  at a one-character separator, `join`, and how an integer renders inside a
  template literal.
- **Config** (`config.dfy`): the static tables. They are experience, gear, unit
  types, tiers, the three defense level lists, the size table, associated skills
  and the two development tracks. Lemmas state the table facts the other code
  relies on.
- **WarfareData** (`warfare_data.dfy`): the unit record, its schema defaults and
  constraints, `casualtyDie`, `commanderName`, and the data `rollStat` hands to
  the dice engine.
- **WarfareSheet** (`warfare_sheet.dfy`): the unit sheet's rules. These are the
  parsed trait list, the header icon, which core statistics are rollable, the
  drop policy for a new commander, and clearing the commander.
- **OrganizationData** (`organization_data.dfy`): the organization record, its
  defaults, and what the schema admits as a power-pool entry.
- **OrgDevEditor** (`org_dev_editor.dfy`): the development editor. It finds each
  stat's head start (`findIndex` on the track), derives the points shown and
  their total, exposes the track bounds, and builds the range picker.

Modelling choices:

- The host's document lookups and capability probes become explicit inputs.
  `world` maps actor ids to names. `DroppedActor` carries `pack` and
  `hasProficiency`.
- Localized text is represented by its localization key, or by a label parameter
  (`noneLabel`).
- A number field that does not switch `nullable` off may hold null, so it is an
  `Option<int>`. These fields are `tier`, `size.max`, `size.value`, a defense's
  `level` and `power.die`.
- The record field `type` is `unitType`, and an entry's `label` is `labelText`,
  because `type` and `label` are Dafny keywords.

Behaviour of the code worth stating outright:

- The code never clamps `points` or checks that `start + spec` lies on the track.
  A missing start value gives `headstart == -1`, and the stat then shows
  `points + 1`. `DisplayValueWhenAbsent` and `TotalWhenAllAbsent` state this.
- `src/module/data/organizationData.mjs` types a power-pool entry as a non-null
  integer in [0, 12] with initial value 4. The bound is fixed, not the power die.
- `size.value <= size.max` is not enforced anywhere (`SizeUnconstrained`).
- The organization schema in `src/module/data/organizationData.mjs` has flat
  `dip`/`esp`/`lor`/`opr` fields and `com`/`rlv`/`rsc` defenses with no
  development data. The editor, by contrast, reads `system[statGroup]` entries
  that carry `development.points/start/spec`. The editor's input is therefore
  modelled as its own `Stat` type: an ordered list of `(key, stat)` pairs, in
  the order `Object.entries` yields them.

## Model

| member | source | states |
|---|---|---|
| Text.Trim | src/module/sheets/warfareSheet.mjs:117 | the trimmed entry is the infix left after the leading and trailing whitespace runs; it has no surrounding whitespace, and it is empty exactly when the input is all whitespace |
| Text.TrimOfTrimmed | src/module/sheets/warfareSheet.mjs:117 | trimming a string without surrounding whitespace returns it unchanged |
| Text.Split | src/module/sheets/warfareSheet.mjs:117 | splitting at `;` gives one more segment than there are separators; no segment contains the separator; joining the segments with it restores the input |
| Text.SplitJoin | src/module/sheets/warfareSheet.mjs:117 | splitting a join of separator-free parts returns those parts (split and join are inverse) |
| Text.IntToDecimalRoundTrip | src/module/sheets/orgDevEditor.mjs:25-26 | the text an integer renders to in the picker's template reads back as the same integer |
| WarfareSheet.Traits | src/module/sheets/warfareSheet.mjs:116-119 | null exactly when the list has no `;` and is empty or all whitespace (so `";"` is not null) |
| WarfareSheet.TraitsEntries | src/module/sheets/warfareSheet.mjs:117-118 | a non-null result has one entry per `;`-separated segment, in order, each the trimmed segment, with empty entries kept |
| WarfareSheet.TraitsCount | src/module/sheets/warfareSheet.mjs:117 | a non-null trait list has exactly one entry more than the number of `;` in it |
| WarfareSheet.SplitShape | src/module/sheets/warfareSheet.mjs:117-118 | a list without `;` splits into itself alone, and a list with one splits into at least two entries, which is why only a one-entry result can be null |
| WarfareSheet.TraitsRoundTrip | src/module/sheets/warfareSheet.mjs:117-118 | when no segment has surrounding whitespace, joining the traits with `;` reproduces the trait list |
| WarfareSheet.BlankTraits | src/module/sheets/warfareSheet.mjs:116-119 | `""` and `"  "` show no traits |
| WarfareSheet.LoneSeparatorTraits | src/module/sheets/warfareSheet.mjs:116-119 | `";"` shows two empty traits |
| WarfareSheet.TwoTraits | src/module/sheets/warfareSheet.mjs:117-118 | two separator-free entries joined by `;` give their two trimmed forms |
| WarfareSheet.TypeImage | src/module/sheets/warfareSheet.mjs:124-129 | the levy icon exactly for levy infantry; otherwise the configured icon of the unit's type; no icon when the type is not configured (the lookup fails) |
| WarfareSheet.LevyOfOtherTypeUsesTypeIcon | src/module/sheets/warfareSheet.mjs:124-129 | a levy of any configured type other than infantry shows that type's icon |
| WarfareSheet.CoreStats | src/module/sheets/warfareSheet.mjs:72-102 | six cells in sheet order, each showing its field's value; atk, pow, mor and com are signed and rollable exactly when the sheet is editable; def and tou show the raw value and are never rollable |
| WarfareSheet.RollMatchesShownStat | src/module/sheets/warfareSheet.mjs:170-173 | rolling a statistic from the sheet rolls the number the sheet shows for it |
| WarfareSheet.DropActor | src/module/sheets/warfareSheet.mjs:132-147 | a pack actor is refused with the pack warning; otherwise an actor without proficiency is refused with the no-proficiency warning; otherwise only `commander` changes, to the actor's id |
| WarfareSheet.DropNamesCommander | src/module/sheets/warfareSheet.mjs:132-147 | after an accepted drop the commander's name is the dropped actor's name, and a valid unit stays valid |
| WarfareSheet.ClearCommander | src/module/sheets/warfareSheet.mjs:269-278 | with no commander resolved the handler fails before writing (the notice reads the commander's name); otherwise the commander becomes the empty id and every other field is unchanged |
| WarfareSheet.ClearCommanderWhenNamed | src/module/sheets/warfareSheet.mjs:269-278 | with a commander resolved, clearing succeeds and only empties the id |
| WarfareSheet.ClearCommanderEffect | src/module/sheets/warfareSheet.mjs:269-278 | a cleared unit shows the "None" label, rolls with an empty flavor name and stays valid; clearing it again fails because no commander resolves |
| WarfareData.DefaultUnitShape | src/module/data/warfareData.mjs:34-139 | the default unit is valid, with atk = pow = mor = com = 0, def = tou = 10, attacks = dmg = mov = tier = 1, size {6, 6}, an empty trait list, no commander, experience `regular`, gear `light` and type `infantry` |
| WarfareData.SizeUnconstrained | src/module/data/warfareData.mjs:122-133 | validity does not constrain `size.value` by `size.max`: any casualty value keeps a valid unit valid |
| WarfareData.CasualtyDieIsStoredValue | src/module/data/warfareData.mjs:148-150 | the casualty die is the stored `size.value`, unaffected by `size.max` |
| WarfareData.CommanderName | src/module/data/warfareData.mjs:152-156 | the commander's name when one is set, otherwise the "None" label |
| WarfareData.Field | src/module/data/warfareData.mjs:168 | `this[stat]` is a number for the nine integer statistics, the (nullable) tier for `tier`, the getter's `size.value` for `casualtyDie`, and no number for any other key |
| WarfareData.RollStat | src/module/data/warfareData.mjs:163-191 | the roll has the single term `@stat`, bound to the unit's own value of the field; the flavor names the commander, or `""` when there is none, which agrees with the commander name under an empty "None" label |
| WarfareData.RollSeesStoredValue | src/module/data/warfareData.mjs:163-172 | after any of the nine integer statistics, the tier or `size.value` is set, rolling it (the last as `casualtyDie`) uses the new value |
| Config.LevelChoices | src/module/config.mjs:51-77 | exactly `com`, `rlv` and `rsc` have level lists, each of seven values -3..3 in order |
| Config.LevelLabels | src/module/config.mjs:51-77 | each level's label key is `KNW.Organization.defenses.<key>.<value>` |
| Config.LevelsStrictlyIncreasing | src/module/config.mjs:51-77 | each defense's level values strictly increase |
| Config.SizeFor | src/module/config.mjs:78-84 | sizes 1..5 and no others have an entry; its power die is `2 * size + 2` and its image is the `d<powerDie>.svg` asset |
| Config.AssocSkillsShape | src/module/config.mjs:87-93 | the keys are dip, esp, lor and opr, each with two or three related skills; `ins` belongs to exactly dip and opr |
| Config.NeighboursSuffice | src/module/config.mjs:94-97 | a track whose neighbouring entries are in order is non-decreasing throughout |
| Config.SkillsTrackShape | src/module/config.mjs:95 | the skills track has 9 entries, runs from -1 to 4 and is non-decreasing |
| Config.DefensesTrackShape | src/module/config.mjs:96 | the defenses track has 14 entries, runs from 10 to 18 and is non-decreasing |
| Config.TrackFor | src/module/config.mjs:94-97 | only `skills` and `defenses` have a track, and each is non-empty and non-decreasing |
| Config.TypeKeys | src/module/config.mjs:22-43 | the unit types are exactly aerial, artillery, artillerySiege, cavalry and infantry |
| Config.TierKeys | src/module/config.mjs:44-50 | the tiers are exactly 1..5 |
| Config.ExperienceAndGearKeys | src/module/config.mjs:9-21 | the experience levels and gear tiers have exactly their five and four keys |
| OrganizationData.DefaultOrganizationShape | src/module/data/organizationData.mjs:22-90 | the default organization is valid: skills at -1, each defense at score 10 and level 0, power die 4 |
| OrganizationData.SetPoolEntry | src/module/data/organizationData.mjs:91-101 | a missing pool value takes the initial 4, a value in [0, 12] is stored, and only that member's entry changes; null and values outside [0, 12] yield no record (see Left out) |
| OrganizationData.SetPoolEntryKeepsValid | src/module/data/organizationData.mjs:91-101 | a pool whose entries all lie in [0, 12] keeps them there through every admitted update |
| OrgDevEditor.FindIndex | src/module/sheets/orgDevEditor.mjs:62-64 | the head start is the least index holding `start + spec`, or -1 when no entry holds it |
| OrgDevEditor.FindIndexAbsent | src/module/sheets/orgDevEditor.mjs:62-64 | the head start is -1 exactly when `start + spec` is not on the track |
| OrgDevEditor.DisplayValueWhenAbsent | src/module/sheets/orgDevEditor.mjs:62-65 | a stat whose start value is missing from the track shows `points + 1` |
| OrgDevEditor.BuildStats | src/module/sheets/orgDevEditor.mjs:56-77 | one row per stat, in order, named `system.<group>.<key>.development`, carrying the stat unchanged and showing `points - headstart`; the total is the sum of the shown points, starting from 0 |
| OrgDevEditor.TotalWhenAllAbsent | src/module/sheets/orgDevEditor.mjs:56-66 | when no stat's start value is on the track, the total is the points spent plus one per stat |
| OrgDevEditor.SumOfOneMore | src/module/sheets/orgDevEditor.mjs:56-66 | rows that each show one point more than their stat's spent points add up to the points spent plus the number of rows |
| OrgDevEditor.BuildContext | src/module/sheets/orgDevEditor.mjs:53-87 | the context carries the rows (field name, label key, stat and `points - headstart` on the given track) and their total, the track, `length == |track| - 1`, and the track's first and last values as min and max (absent for an empty track) |
| OrgDevEditor.PrepareContext | src/module/sheets/orgDevEditor.mjs:57-85 | only configured groups get a context, built on that group's configured track, with each entry's row computed on it; skills give length 8, min -1, max 4; defenses give length 13, min 10, max 18 |
| OrgDevEditor.RenderRoundTrip | src/module/sheets/orgDevEditor.mjs:25-26 | a numeric option renders as text that reads back as the same number |
| OrgDevEditor.RangePicker | src/module/sheets/orgDevEditor.mjs:20-28 | an empty or missing name becomes `range`; a missing, null or NaN value becomes empty; the picker is invalid exactly when the display value is negative; it shows the display value, or the value when the display value is missing or null |

## Left out

- Dice rolling, dialogs, chat messages, notifications and localization are host
  services. A roll is modelled as the data handed to the roll builder. A warning
  is modelled as a `DropWarning` value. Text is modelled as its localization key.
- The trait-editing dialog (`configureTraits`) is left out. It only passes the
  dialog's result to a host update.
- `Number.prototype.signedString` is a host extension whose output is not
  visible. `Shown.Signed` marks the cells that use it.
- Embedded item and effect controls, effect creation, the commander context menu,
  first-render wiring, and the item/effect sort in the footer are UI plumbing.
- `src/module/sheets/organizationSheet.mjs` is a view projection. Its one lookup,
  the die image for a size, is covered by `Config.SizeFor`.
- `src/module/hooks.mjs` rewrites DOM selects, and `knw-actors.mjs` registers
  types and sheets with the host. Build tooling is out of scope.
- The `choices` of a defense level and of the power die name configuration
  entries that do not exist. They are not modelled as enforced.
- Deriving a bonus or score from a track, and the power-pool
  roll/decrement/cycle/reset transitions, do not appear in the code modelled
  here.
- The organization sheet reads a `size` field that
  `src/module/data/organizationData.mjs` does not declare; it is not modelled.
- WarfareData.ValidUnit: the host's string-field rules are not modelled (for
  example, whether a blank string passes a `choices` check). `ancestry` has no
  initial value in the schema and is modelled as empty.
- WarfareData.Field: for non-numeric keys (`size`, `commander`, the string
  fields) JavaScript yields an object or a string. The model yields no number.
- OrgDevEditor.BuildStats: the row spreads the stat's own properties last. A
  stat property named `name`, `label` or `displayValue` would override the
  computed one. Stats are modelled with other numeric fields only.
- OrgDevEditor.RangePicker: numeric options are integers, null, undefined or NaN.
  Fractional numbers, string values, and the exponent form JavaScript uses for
  magnitudes of 10^21 and above are not modelled.
- Text.Trim: strings are sequences of Unicode scalar values. Lone UTF-16
  surrogates, which JavaScript strings may contain, are not represented.
- OrganizationData.SetPoolEntry: what the host's number field does with null or
  an out-of-range value when cleaning (falling back, rounding or clamping) is
  host code and not modelled; such a value yields no record.
- OrgDevEditor.RangePicker: the markup string is represented by the `Picker`
  record of the values interpolated into it; the string assembly is not modelled.
- OrganizationData.Defense: a defense's `level` and `power.die` are number fields
  not declared integer, so the host admits fractional values there; the model
  types them `Option<int>` and fractional values are not modelled.
- WarfareData.ResolveCommander: the host's foreign-document lookup is modelled
  as a map from actor id to name.
- WarfareSheet.DropActor: `hasProperty(actor, "system.attributes.prof")` is
  modelled as a boolean on the dropped actor.
- The defaults of `powers` and `features` entries come from host field types and
  are not modelled. The entry type has exactly the three fields `label`,
  `description` and `sort`.
