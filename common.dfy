/** Ruby's `nil` and raised errors, as values. */
module Common {

  /** A value that may be Ruby's `nil`. */
  datatype Option<+T> = None | Some(value: T)

  /** Either the value a Ruby method returns or the error it raises. */
  datatype Result<+T, +E> = Ok(value: T) | Err(error: E)

  /** `@memo ||= computed`: the value memoised earlier if there is one, otherwise the one computed now. */
  function Memoised<T>(memo: Option<T>, computed: T): T {
    if memo.Some? then memo.value else computed
  }
}

/** Output devices the core hands its results to and never reads back. */
module Sinks {

  /**
   * An external sink (the terminal's output, the renderer, a composition
   * queue): the model records every item handed to it, in order.
   */
  class Sink<T> {
    var log: seq<T>

    constructor ()
      ensures log == []
    {
      log := [];
    }

    method Write(item: T)
      modifies this
      ensures log == old(log) + [item]
    {
      log := log + [item];
    }
  }
}
