/** Python values as far as the test helpers distinguish them, and `to_list`. */
module Values {

  datatype Option<+T> = None | Some(value: T)

  /** A Python value: `None`, a boolean, an integer, a string (str or unicode,
      i.e. any `basestring`), a list or a tuple. */
  datatype Value =
    | NoneValue
    | Bool(b: bool)
    | Int(i: int)
    | Str(s: string)
    | List(items: seq<Value>)
    | Tuple(items: seq<Value>)

  /** `to_list`: puts a value into a list unless it already is one; `None`
      becomes the empty list.  A tuple is not a list, so it is wrapped. */
  function ToList(value: Value): (r: Value)
    ensures r.List?
    ensures value.NoneValue? ==> r.items == []
    ensures value.List? ==> r == value
    ensures !value.NoneValue? && !value.List? ==> r.items == [value]
  {
    if value.NoneValue? then List([])
    else if !value.List? then List([value])
    else value
  }

  /** Applying `to_list` to its own result changes nothing. */
  lemma ToListIdempotent(value: Value)
    ensures ToList(ToList(value)) == ToList(value)
  {
  }
}
