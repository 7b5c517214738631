/**
 What several modules use.
 */
module Common {

  datatype Option<T> = None | Some(value: T)

  /** For counting. */
  function One(b: bool): nat {
    if b then 1 else 0
  }

  /** `s` with the element at `i` taken out. */
  function Without<T>(s: seq<T>, i: nat): seq<T>
    requires i < |s|
  {
    s[..i] + s[i + 1..]
  }
}
