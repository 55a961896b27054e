/** The conventional optional value, used for lookups that may miss and for
    the nullable class selection. */
module Options {

  datatype Option<+T> = None | Some(value: T)

}
