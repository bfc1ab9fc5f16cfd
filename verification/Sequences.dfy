// Small helpers shared by the models.

module Sequences {

  datatype Option<+T> = None | Some(value: T)

  function Init<T>(xs: seq<T>): seq<T>
    requires xs != []
  {
    xs[..|xs| - 1]
  }

  function Last<T>(xs: seq<T>): T
    requires xs != []
  {
    xs[|xs| - 1]
  }
}
