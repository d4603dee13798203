/** A row of the `readings` table as the backend returns it in JSON. */
module Readings {
  import opened Wrappers

  /** One numeric column of a row in a JSON reply: the key is missing, SQL NULL, or a number. */
  datatype Field = Absent | Null | Num(v: real)
  {
    /** `x || 0`: a missing, null or zero value counts as zero. */
    function OrZero(): real
    {
      if Num? then v else 0.0
    }

    /** `x !== undefined`: the key is present, possibly with a NULL value. */
    predicate Defined()
    {
      !Absent?
    }
  }

  datatype Reading = Reading(
    id: int,
    voltage: Field,
    current: Field,
    power: Field,
    energy: Field,
    frequency: Field,
    pf: Field,
    timestamp: Option<string>)

  /** The store's order: `id` is assigned by AUTOINCREMENT, so rows in id order have strictly rising ids. */
  predicate AscendingIds(store: seq<Reading>)
  {
    forall i, j :: 0 <= i < j < |store| ==> store[i].id < store[j].id
  }

  /** `t.slice(0, 10)`: the first ten characters, or all of a shorter string. */
  function Slice10(t: string): (d: string)
    ensures |d| == Min(10, |t|) && d == t[..|d|]
  {
    if |t| <= 10 then t else t[..10]
  }

  /** The sum of `r.power || 0` over the rows. */
  function PowerSum(rows: seq<Reading>): real
  {
    if rows == [] then 0.0 else PowerSum(rows[..|rows| - 1]) + rows[|rows| - 1].power.OrZero()
  }
}
