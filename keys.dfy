// Key handling shared by the two block worlds: `ev.key.toLowerCase()` and
// the actions a key can select.

module Keys {

  /** What a keydown handler does for a key. */
  datatype Action =
    | Ignore
    | StepRight | StepLeft | StepForward | StepBack
    | TurnLeft | TurnRight
    | AddBlock | DeleteBlock

  function LowerChar(c: char): char {
    if 'A' <= c <= 'Z' then (c as int + 32) as char else c
  }

  /**
   * `toLowerCase`, restricted to ASCII: JavaScript lowers every Unicode
   * letter, but every key name the handlers compare against is ASCII, so a
   * key is dispatched the same way under either definition.
   */
  function Lower(s: string): (r: string)
    ensures |r| == |s|
    ensures forall i | 0 <= i < |s| :: r[i] == LowerChar(s[i])
    ensures forall i | 0 <= i < |s| :: 'A' <= s[i] <= 'Z' ==> r[i] as int == s[i] as int + 32
    ensures forall i | 0 <= i < |s| :: !('A' <= r[i] <= 'Z')
    ensures forall i | 0 <= i < |s| :: ('a' <= r[i] <= 'z') == ('A' <= s[i] <= 'Z' || 'a' <= s[i] <= 'z')
  {
    seq(|s|, i requires 0 <= i < |s| => LowerChar(s[i]))
  }

  lemma LowerIdempotent(s: string)
    ensures Lower(Lower(s)) == Lower(s)
  {
    var once := Lower(s);
    forall i | 0 <= i < |s|
      ensures Lower(once)[i] == once[i]
    {
    }
  }
}
