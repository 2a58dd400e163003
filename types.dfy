/** Value wrappers shared by the whole model. */
module Types {

  /** A nullable C# value: `None` stands for `null`. */
  datatype Option<+T> = None | Some(value: T) {
    /** The `??` operator of C#. */
    function GetOr(default: T): T {
      match this
      case Some(v) => v
      case None => default
    }
  }

  /** What a C# call does: it returns a value or throws an exception with a message. */
  datatype Outcome<+T> = Returned(value: T) | Threw(message: string)

  /**
   * What an asynchronous call that may wait forever does. `NeverReturns` is a call
   * that is still waiting after every reply the environment was able to give it.
   */
  datatype Completion<+T> = Returns(value: T) | NeverReturns
}
