/**
 * The Organization record: its fields, the defaults and constraints its schema
 * declares, and what the schema admits as a power-pool entry.
 */
module OrganizationData {
  import opened Wrappers

  /**
   * A defense. `score` is a required, non-null integer; `level` is a number
   * field that leaves `nullable` on, so it may be null.
   */
  datatype Defense = Defense(score: int, level: Option<int>)

  /** An entry of `powers` or `features`: the record's `label`, `description` and `sort`. */
  datatype Entry = Entry(labelText: string, description: string, sort: int)

  /** The power die (nullable) and the pool: member id to remaining die value. */
  datatype Power = Power(die: Option<int>, pool: map<string, int>)

  datatype Organization = Organization(
    dip: int,
    esp: int,
    lor: int,
    opr: int,
    com: Defense,
    rlv: Defense,
    rsc: Defense,
    power: Power,
    powers: map<string, Entry>,
    features: map<string, Entry>)

  const PoolMin := 0
  const PoolMax := 12
  const PoolInitial := 4

  const DefaultDefense := Defense(10, Some(0))

  /** The record the schema creates when no value is supplied. */
  const DefaultOrganization := Organization(
    dip := -1, esp := -1, lor := -1, opr := -1,
    com := DefaultDefense, rlv := DefaultDefense, rsc := DefaultDefense,
    power := Power(Some(4), map[]),
    powers := map[],
    features := map[])

  /** The schema's constraint on the pool: every entry lies in [0, 12]. */
  predicate ValidPool(pool: map<string, int>) {
    forall id :: id in pool ==> PoolMin <= pool[id] <= PoolMax
  }

  predicate ValidOrganization(o: Organization) {
    ValidPool(o.power.pool)
  }

  /** The default record is valid and holds the documented initial values. */
  lemma DefaultOrganizationShape()
    ensures ValidOrganization(DefaultOrganization)
    ensures DefaultOrganization.dip == -1 && DefaultOrganization.esp == -1
    ensures DefaultOrganization.lor == -1 && DefaultOrganization.opr == -1
    ensures DefaultOrganization.com == Defense(10, Some(0))
    ensures DefaultOrganization.rlv == Defense(10, Some(0))
    ensures DefaultOrganization.rsc == Defense(10, Some(0))
    ensures DefaultOrganization.power.die == Some(4)
  {
  }

  /** A value supplied for a pool entry: left out, explicitly null, or a number. */
  datatype Supplied = Missing | Null | Given(n: int)

  /**
   * Storing the pool entry of member `id` under the schema's non-null integer
   * field in [0, 12] with initial 4: a missing value takes the initial 4, a
   * value the field admits is stored, and null or a number outside [0, 12],
   * which the field does not admit, yields no record. No other part of the
   * record changes.
   */
  function SetPoolEntry(o: Organization, id: string, v: Supplied): (r: Option<Organization>)
    ensures r.Some? <==> (v.Missing? || (v.Given? && PoolMin <= v.n <= PoolMax))
    ensures r.Some? ==> r.value.power.pool.Keys == o.power.pool.Keys + {id}
    ensures r.Some? ==> r.value.power.pool[id] == (if v.Given? then v.n else PoolInitial)
    ensures r.Some? ==> forall other :: other in o.power.pool && other != id ==>
      r.value.power.pool[other] == o.power.pool[other]
    ensures r.Some? ==> r.value.(power := o.power) == o && r.value.power.die == o.power.die
  {
    match v
    case Missing => Some(o.(power := o.power.(pool := o.power.pool[id := PoolInitial])))
    case Null => None
    case Given(n) =>
      if PoolMin <= n <= PoolMax then Some(o.(power := o.power.(pool := o.power.pool[id := n])))
      else None
  }

  /** A valid pool stays valid through every update the schema admits. */
  lemma {:induction false} SetPoolEntryKeepsValid(o: Organization, id: string, v: Supplied)
    requires ValidOrganization(o)
    requires SetPoolEntry(o, id, v).Some?
    ensures ValidOrganization(SetPoolEntry(o, id, v).value)
  {
    var pool := SetPoolEntry(o, id, v).value.power.pool;
    forall m | m in pool
      ensures PoolMin <= pool[m] <= PoolMax
    {
      if m != id {
        assert m in o.power.pool;
      }
    }
  }
}
