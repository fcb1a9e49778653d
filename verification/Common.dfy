/** What every part of the model uses. */
module Common {
  datatype Option<+T> = None | Some(value: T)

  /** Names of nodes; all that matters is which are equal and how they are ordered. */
  type NodeName = nat

  /** The most a message between nodes can take. */
  const MAX_MESSAGE_SIZE: nat := 4 * 1024 * 1024
}
