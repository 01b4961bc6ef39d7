/** Optional values and the three states a key can be in inside a Python dict. */
module Wrappers {

  /** A nullable column or an `Optional[...]` field: `None` or a value. */
  datatype Option<+T> = None | Some(value: T) {

    /** The value, or `default` when there is none. */
    function GetOr(default: T): T {
      match this
      case Some(v) => v
      case None => default
    }
  }

  /** One key of a dict built from external data: the key may be missing,
      present with value `None`, or present with a value.  `dict.get(key,
      default)` returns the default only in the first case. */
  datatype Field<+T> = Absent | Null | Value(value: T) {

    /** `d.get(key, default)`: `None` when the key holds `None`. */
    function Get(default: T): Option<T> {
      match this
      case Absent => Some(default)
      case Null => None
      case Value(v) => Some(v)
    }

    /** `d.get(key)`: both a missing key and a `None` give `None`. */
    function GetOpt(): Option<T> {
      match this
      case Value(v) => Some(v)
      case _ => None
    }
  }

  /** Python truthiness of an optional string: `None` and `""` are falsy. */
  predicate Truthy(s: Option<string>) {
    s.Some? && s.value != ""
  }
}
