/** What the components share. */
module Wrappers {
  datatype Option<+T> = None | Some(value: T)

  /** What became of a write to a store: it was answered, or applied without an
      answer, or not applied. */
  datatype Write = Answered | Unanswered | NotApplied
}
