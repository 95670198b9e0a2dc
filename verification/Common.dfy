/** Vocabulary shared by the services: optional values, instants and half-open windows.
    An instant is an integer number of milliseconds. */
module Common {

  datatype Option<+T> = None | Some(value: T)

  const MINUTE := 60_000
  const HOUR := 60 * MINUTE
  const DAY := 24 * HOUR

  datatype Window = Window(start: int, end: int)

  /** The overlap test every query of the scheduler and the calendar uses. */
  predicate Overlaps(a: Window, b: Window) {
    a.start < b.end && b.start < a.end
  }

  function Min(a: int, b: int): int {
    if a <= b then a else b
  }

  function Max(a: int, b: int): int {
    if a >= b then a else b
  }
}
