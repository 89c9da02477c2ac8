/** The Redis commands the queue scripts rely on, and the arithmetic Lua and Go do around them. */
module Redis {

  datatype Option<+T> = None | Some(value: T) {
    function GetOr(default: T): T {
      if Some? then value else default
    }
  }

  /** The expiry time of a key written by `SET key 1 PX ms NX`, or `None` if it was never written. */
  type Timer = Option<int>

  /** Redis drops a key once the clock has passed its expiry, so a key is still there at the expiry itself. */
  predicate Live(timer: Timer, now: int) {
    timer.Some? && now <= timer.value
  }

  function Max(a: int, b: int): int {
    if a < b then b else a
  }

  function Min(a: int, b: int): int {
    if a < b then a else b
  }

  function Lookup<K, V>(m: map<K, V>, k: K): Option<V> {
    if k in m then Some(m[k]) else None
  }

  /** `HINCRBY`: an absent field counts as 0. */
  function Bump<K>(m: map<K, int>, k: K, delta: int): map<K, int> {
    m[k := Lookup(m, k).GetOr(0) + delta]
  }

  /** num / den rounded toward zero, as Go's conversion from float64 and Redis' integer replies do. */
  function Truncate(num: int, den: int): int
    requires den > 0
  {
    if num >= 0 then num / den else -((-num) / den)
  }
}
