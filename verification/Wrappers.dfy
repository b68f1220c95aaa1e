/** What several components share: a pointer that may be NULL, kernel error codes, duplicate-free lists. */
module Wrappers {
  datatype Option<+T> = None | Some(value: T)

  const EINTR := -4
  const ENOMEM := -12
  const EFAULT := -14
  const EBUSY := -16
  const EINVAL := -22
  const ENOTTY := -25

  function Min(a: int, b: int): int { if a < b then a else b }

  predicate NoDup<T(==)>(l: seq<T>) {
    forall i, j :: 0 <= i < j < |l| ==> l[i] != l[j]
  }
}
