/** Small value types shared by every module of the model. */
module Common {

  /** A value that may be absent: a nullable column, an optional request field, `undefined`. */
  datatype Option<+T> = None | Some(value: T) {
    function GetOr(default: T): T {
      match this
      case Some(v) => v
      case None => default
    }
  }

  /** One field of a partial update (`Partial<...>` spread over a record): either
      the field is not supplied and keeps its value, or it is supplied with a new one. */
  datatype Patch<+T> = Keep | Put(value: T)

  /** One field after a merge: the supplied value when the patch supplies
      one, and the value before otherwise. */
  predicate Merged<T(==)>(p: Patch<T>, before: T, after: T) {
    if p.Put? then after == p.value else after == before
  }

  /** `{...record, ...patch}` for one field. */
  function Apply<T>(p: Patch<T>, current: T): (r: T)
    ensures p.Keep? ==> r == current
    ensures p.Put? ==> r == p.value
  {
    match p
    case Keep => current
    case Put(v) => v
  }
}
