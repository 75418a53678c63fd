/** `Math.min` and `Math.max` on two integers, shared by the components that clamp an index or a quantity. */
module Numbers {

  function Min(a: int, b: int): int { if a <= b then a else b }

  function Max(a: int, b: int): int { if a >= b then a else b }
}
