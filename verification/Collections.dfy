/** Optional values and sequences without repetitions. */
module Collections {
  datatype Option<+T> = None | Some(value: T)

  predicate Distinct(ids: seq<nat>) {
    forall i, j :: 0 <= i < j < |ids| ==> ids[i] != ids[j]
  }
}
