module Wrappers {
  datatype Option<+T> = None | Some(value: T) {
    function AsSeq(): (s: seq<T>) {
      match this
      case None => []
      case Some(v) => [v]
    }
  }

  function Flatten<T>(parts: seq<seq<T>>): seq<T> {
    if parts == [] then [] else Flatten(parts[..|parts| - 1]) + parts[|parts| - 1]
  }
}
