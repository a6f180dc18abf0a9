/** The optional-value type used for the C library's "not found" results
    (a NULL pointer from strstr or strrchr, a failed conversion in sscanf). */
module Options {
  datatype Option<+T> = None | Some(value: T)
}
