/** Option, Result and Outcome: the absent value, the raised exception and the
    check that either passes or fails with a message. */
module Wrappers {

  datatype Option<+T> = None | Some(value: T)

  datatype Result<+T, +E> = Ok(value: T) | Err(error: E)

  datatype Outcome<+E> = Pass | Fail(error: E)
}

/** Values the running program draws from its environment (fresh UUIDs, the
    clock, the calendar) appear in the model as plain numbers handed in by the
    caller. */
module Basics {

  /** A UUID, identified by its 128-bit integer value. */
  type Uuid = nat

  /** A point in time (seconds since an arbitrary epoch). */
  type Timestamp = int

  /** A calendar day, numbered as Python's `date.toordinal()` numbers it:
      day 1 is Monday, 1 January of year 1. Adding a `timedelta(days=k)` adds k. */
  type Date = int

  /** A wall-clock time of day, in seconds after midnight. */
  type TimeOfDay = int

  /** `date.weekday()`: Monday is 0 and Sunday is 6. */
  function Weekday(d: Date): (w: int)
    ensures 0 <= w < 7
  {
    (d + 6) % 7
  }

  const Friday := 4
}

/** Partial updates as pydantic's `model_dump(exclude_unset=True)` sees them: a
    field the client did not send is left alone, a field it sent (possibly as
    null) replaces the stored value. */
module Patches {
  import opened Wrappers

  datatype Patch<+T> = Keep | Assign(value: Option<T>)

  /** The merged value of a field that may not be null: absent when the update
      sends null, which makes the rebuilt record fail validation. */
  function Pick<T>(p: Patch<T>, stored: T): (r: Option<T>)
    ensures p.Keep? ==> r == Some(stored)
    ensures p.Assign? ==> r == p.value
  {
    match p
    case Keep => Some(stored)
    case Assign(v) => v
  }

  /** The merged value of a nullable field. */
  function PickOptional<T>(p: Patch<T>, stored: Option<T>): (r: Option<T>)
    ensures p.Keep? ==> r == stored
    ensures p.Assign? ==> r == p.value
  {
    match p
    case Keep => stored
    case Assign(v) => v
  }

  /** `merged` is what the update leaves in a field that held `stored`. */
  predicate Follows<T(==)>(p: Patch<T>, stored: T, merged: T)
  {
    if p.Keep? then merged == stored else p.value == Some(merged)
  }

  predicate FollowsOptional<T(==)>(p: Patch<T>, stored: Option<T>, merged: Option<T>)
  {
    if p.Keep? then merged == stored else merged == p.value
  }

  /** The update sends null for a field that may not be null. */
  predicate Clears<T>(p: Patch<T>)
  {
    p.Assign? && p.value.None?
  }
}
