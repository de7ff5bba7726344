/** Types every component shares. */
module Basics {

  datatype Option<+T> = None | Some(value: T)

  /** A uuid, an instance name or a host name, of which only equality matters. */
  datatype Uuid = Uuid(id: nat)

  /** A run: the steps taken so far, latest last. */
  datatype Log<T> = Empty | Then(before: Log<T>, last: T)

  function Length<T>(h: Log<T>): nat {
    match h
    case Empty => 0
    case Then(before, _) => Length(before) + 1
  }
}
