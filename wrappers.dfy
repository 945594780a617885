/** The optional value used wherever the bot may have nothing (an unbound
    variable, a failed remote call, text that does not parse). */
module Wrappers {

  datatype Option<+T> = None | Some(value: T)
}
