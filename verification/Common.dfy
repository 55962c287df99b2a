/** What both engines use. */
module Common {
  datatype Option<T> = None | Some(value: T)

  function Without<T>(xs: seq<T>, i: nat): seq<T>
    requires i < |xs|
  {
    xs[..i] + xs[i + 1..]
  }
}
