/** An optional value: `None` is used wherever the dashboard's data frame holds NaN
    or a Python function returns `None`. */
module Optional {
  datatype Option<+T> = None | Some(value: T)
}
