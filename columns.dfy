/** Column-wise primitives with pandas' treatment of missing values. */
module Columns {
  import opened Wrappers

  /** `a > b` on float columns: false whenever either side is NaN. */
  predicate Greater(a: Option<real>, b: Option<real>)
  {
    a.Some? && b.Some? && a.value > b.value
  }

  /** `.astype(int)` of a boolean column. */
  function AsInt(b: bool): (r: int)
    ensures r == 0 || r == 1
    ensures r == 1 <==> b
  {
    if b then 1 else 0
  }
}
