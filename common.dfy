/** Values shared by several pages of the BazaarTrack client. */
module Common {

  /** A value that may be absent (`undefined` or `null` in the client). */
  datatype Option<T> = None | Some(value: T)

  /** The signed-in account as the identity provider reports it; every field may be missing. */
  datatype User = User(displayName: Option<string>, email: Option<string>, photoURL: Option<string>)

  /** Milliseconds in one day; instants are milliseconds since the epoch. */
  const DayMs: int := 86_400_000

  /** JavaScript's `value || fallback` on an optional string: a missing or empty string falls back. */
  function OrElse(value: Option<string>, fallback: string): string
  {
    if value.Some? && value.value != "" then value.value else fallback
  }

  /** `Array.prototype.reverse` on a copy. */
  function Reverse<T>(s: seq<T>): (r: seq<T>)
    ensures |r| == |s|
    ensures forall k :: 0 <= k < |s| ==> r[k] == s[|s| - 1 - k]
  {
    if s == [] then [] else Reverse(s[1..]) + [s[0]]
  }
}
