/** A value that may be absent: the model's stand-in for a C# reference that
    may be null, or for a field that the controller leaves unassigned. */
module Optional {

  datatype Option<+T> = None | Some(value: T)
}
