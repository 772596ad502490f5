/** A value that may be missing, used for absent configuration keys and unassigned branches. */
module Optional {

  datatype Maybe<T> = Nothing | Just(value: T)
}
