/** JavaScript values as far as the pipeline looks at them: requests, responses,
    middleware contexts, error fields and thrown values are opaque data that is
    passed along, compared by identity and tested for truthiness. */
module Values {

  /** A JavaScript value. Objects, arrays and functions are references to a heap
      that is not modelled; two `Ref`s are the same object when their addresses are. */
  datatype Value =
    | Undefined
    | Null
    | Bool(b: bool)
    | Num(n: int)
    | Str(s: string)
    | Ref(address: nat)

  /** The values that JavaScript's `||` and `if` treat as false. */
  predicate IsFalsy(v: Value) {
    v.Undefined? || v.Null? || v == Bool(false) || v == Num(0) || v == Str("")
  }

  /** JavaScript's `a || b`: the left operand when it is truthy, otherwise the right one. */
  function Or(a: Value, b: Value): (r: Value)
    ensures IsFalsy(a) ==> r == b
    ensures !IsFalsy(a) ==> r == a
  {
    if IsFalsy(a) then b else a
  }

  datatype Option<+T> = None | Some(value: T)
}
