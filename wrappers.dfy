/** Small shared datatypes: JavaScript's `undefined` as Option, and the
    outcome of an Express handler. */
module Wrappers {

  /** A value or JavaScript's `undefined`. */
  datatype Option<+T> = None | Some(value: T)

  /** What an Express handler does with its response: it answers with a
      status and a body, or it never answers (its promise rejected or never
      settled, which Express 4 does not turn into a response). */
  datatype Reply<+B> = Respond(status: int, body: B) | NoReply
}
