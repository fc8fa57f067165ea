/** The optional value used wherever the TypeScript source has an optional field (`x?: T`)
    or a nullable value (`T | null`). */
module Wrappers {

  datatype Option<+T> = None | Some(value: T)

  /** JavaScript truthiness of an optional string: absent and "" are falsy. */
  predicate TruthyText(o: Option<string>) {
    o.Some? && o.value != ""
  }

  /** JavaScript truthiness of an optional boolean: only a present `true` is truthy. */
  predicate TruthyFlag(o: Option<bool>) {
    o == Some(true)
  }
}
