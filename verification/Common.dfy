/** Types shared by the whole project. */
module Common {

  datatype Option<+T> = None | Some(value: T)

  /** A pod of the StatefulSet, identified by its ordinal. Module Naming shows that
      pod names and replica names determine the ordinal and nothing is lost. */
  type Pod = nat
}
