/** Small value types shared by the stores and pages. */
module Basics {

  /** An optional value; `None` stands for a TypeScript `null` or an absent field. */
  datatype Option<+T> = None | Some(value: T) {
    function GetOr(default: T): T {
      match this
      case Some(v) => v
      case None => default
    }
  }

  /** A task's difficulty (`'easy' | 'medium' | 'hard'`), which also selects the card-drop rules. */
  datatype Difficulty = Easy | Medium | Hard
}
