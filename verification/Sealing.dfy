module Sealing {
  /** An invariant sealed behind a key: its body is met only where the key is held up, which
      keeps each step's proof to the invariants it touches. */
  datatype Key =
    | Telling | Filing | Finishing | Listing | Committing | Naming | Holding | Leading | Placing
    | Backing | Counting | Outages | Heading | Capping | Whole | Meaning | Tracing | Trying

  ghost predicate Opens(k: Key, seal: Key) { k == seal }
}
