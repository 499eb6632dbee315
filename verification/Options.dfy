/** Optional values, used wherever the relay and the proxies store `null` or `undefined`. */
module Options {
  datatype Option<+T> = None | Some(value: T)

  function Max(a: int, b: int): int {
    if a >= b then a else b
  }

  function Min(a: int, b: int): int {
    if a <= b then a else b
  }

  type Pos = n: nat | n > 0 witness 1
}
