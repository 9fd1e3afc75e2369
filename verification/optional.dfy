/** A value that may be absent: a nullable field, an optional property, a lookup that found nothing. */
module Optional {

  datatype Option<+T> = None | Some(value: T)

}
