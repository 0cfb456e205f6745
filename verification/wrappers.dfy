/** The optional value used wherever the source has a Swift optional (`Date?`, `HabitModel?`, ...). */
module Wrappers {
  datatype Option<+T> = None | Some(value: T) {
    /** Swift's `??`: the wrapped value, or `default` when there is none. */
    function GetOr(default: T): T {
      match this
      case Some(v) => v
      case None => default
    }
  }
}
