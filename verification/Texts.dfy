module Texts {
  predicate IsAt<T(==)>(s: seq<T>, part: seq<T>, k: nat) {
    k + |part| <= |s| && s[k..k + |part|] == part
  }

  /** Python's `part in s`, for strings and for bytes. */
  predicate Contains<T(==)>(s: seq<T>, part: seq<T>) {
    exists k | 0 <= k <= |s| - |part| :: IsAt(s, part, k)
  }
}
