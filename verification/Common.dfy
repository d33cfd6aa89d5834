/** Types shared by all components. */
module Common {

  type Uuid = string

  type Path = string

  datatype Option<+T> = None | Some(value: T)
}
