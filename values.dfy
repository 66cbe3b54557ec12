/** Python values as far as the page decorator looks at them. */
module Values {

  /** A Python object: something callable (a function, a class, any object
      with `__call__`), or plain data. A callable's `id` stands for its object
      identity, not its `__name__`: two page functions called `index` in two
      modules are different callables. */
  datatype Value =
    | Callable(id: nat)
    | Str(s: string)
    | Int(i: int)
    | List(items: seq<Value>)
    | NoneValue

  /** `hasattr(v, "__call__")`. */
  predicate IsCallable(v: Value) {
    v.Callable?
  }

  /** The value of the default argument `foreach=[]`. */
  const EmptyList: Value := List([])
}
