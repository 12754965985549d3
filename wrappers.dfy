/** An optional value, for the `T | null` states of the components
    (`selectedDay`, `lastRecommendation`, the focused code slot). */
module Wrappers {

  datatype Option<+T> = None | Some(value: T)
}
