/** Optional values: the model's stand-in for a Java reference that may be null
    and for java.util.Optional. */
module Options {

  datatype Option<+T> = None | Some(value: T)

}
