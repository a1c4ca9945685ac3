/** The base every aggregate embeds: an identifier, three timestamps and a
    version counter, with the two mutators only the pipeline calls. */
module Aggregates {
  import opened Common

  /** The value of a `BaseAggregate`: what a value receiver copies and a row stores. */
  datatype Base = Base(id: string, createdAt: Time, updatedAt: Time, deletedAt: Option<Time>, version: u64)

  /** Go's zero value `BaseAggregate{}`. */
  const ZeroBase: Base := Base("", 0, 0, None, 0)

  /** The "not yet created" state the pipeline tests with `GetID() != ""`. */
  predicate NotYetCreated(b: Base) {
    b.id == ""
  }

  lemma ZeroBaseNotYetCreated()
    ensures NotYetCreated(ZeroBase) && ZeroBase.version == 0 && ZeroBase.deletedAt == None
  {
  }

  /** The effect of `incrementVersion` on a value. */
  function Incremented(b: Base): (r: Base)
    ensures r.version == Inc(b.version)
    ensures r == b.(version := r.version)
  {
    b.(version := Inc(b.version))
  }

  /** The effect of `updateUpdatedAt(t)` on a value. */
  function Touched(b: Base, t: Time): (r: Base)
    ensures r.updatedAt == t
    ensures r == b.(updatedAt := t)
  {
    b.(updatedAt := t)
  }

  /** The two mutators touch disjoint fields, so their order is immaterial. */
  lemma MutatorsCommute(b: Base, t: Time)
    ensures Incremented(Touched(b, t)) == Touched(Incremented(b), t)
    ensures Incremented(Touched(b, t)) == b.(updatedAt := t, version := Inc(b.version))
  {
  }

  class BaseAggregate {
    var id: string
    var createdAt: Time
    var updatedAt: Time
    var deletedAt: Option<Time>
    var version: u64

    /** Go's zero value. */
    constructor ()
      ensures Value() == ZeroBase
    {
      id, createdAt, updatedAt, deletedAt, version := "", 0, 0, None, 0;
    }

    function Value(): Base
      reads this
    {
      Base(id, createdAt, updatedAt, deletedAt, version)
    }

    /** `GetID` returns the identifier field. */
    function GetID(): (r: string)
      reads this
      ensures r == Value().id
    {
      id
    }

    method IncrementVersion()
      modifies this
      ensures version == Inc(old(version))
      ensures Value() == Incremented(old(Value()))
    {
      version := Inc(version);
    }

    method UpdateUpdatedAt(t: Time)
      modifies this
      ensures updatedAt == t
      ensures Value() == Touched(old(Value()), t)
    {
      updatedAt := t;
    }

    /** Overwrites every field from a stored row, as a gorm query into the struct does. */
    method Load(b: Base)
      modifies this
      ensures Value() == b
    {
      id, createdAt, updatedAt, deletedAt, version := b.id, b.createdAt, b.updatedAt, b.deletedAt, b.version;
    }
  }
}
