/** Shared vocabulary: optional values and the list primitives that the stores are built from. */
module Collections {

  datatype Option<+T> = None | Some(value: T)

  /** The value a mapping holds for `key`, or `default` when the key is absent (`dict.get`). */
  function GetOr<K, V>(m: map<K, V>, key: K, default: V): V {
    if key in m then m[key] else default
  }

  function Min(a: int, b: int): int {
    if a <= b then a else b
  }

  function Max(a: int, b: int): int {
    if a >= b then a else b
  }

  /** At most the first `n` elements (`s[:n]` for a non-negative `n`). */
  function Take<T>(s: seq<T>, n: nat): seq<T> {
    if n <= |s| then s[..n] else s
  }

  /** At most `n` elements starting at `from`: one page of an offset/limit listing. */
  function Slice<T>(s: seq<T>, from: nat, n: nat): seq<T> {
    if from <= |s| then Take(s[from..], n) else []
  }

  /** `s` without its first occurrence of `x`; `s` itself when `x` does not occur. */
  function RemoveFirst<T(==)>(s: seq<T>, x: T): seq<T> {
    if s == [] then [] else if s[0] == x then s[1..] else [s[0]] + RemoveFirst(s[1..], x)
  }
}
