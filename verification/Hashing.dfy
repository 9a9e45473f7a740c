/** SHA-256 as an arbitrary collision-free function from texts to nonempty texts. */
module Hashing {

  ghost predicate CollisionFree(h: string -> string)
  {
    && (forall s :: h(s) != "")
    && (forall s, t :: h(s) == h(t) ==> s == t)
  }

  type HashFunction = h: string -> string | CollisionFree(h) witness Tagged()

  // Shows that the type of collision-free functions is inhabited; nothing else uses it.
  function Tagged(): (h: string -> string)
    ensures CollisionFree(h)
  {
    var h: string -> string := (s: string) => ['#'] + s;
    assert forall s :: h(s)[1..] == s;
    h
  }

  // No value is given: every statement about Sha256 holds of every collision-free function.
  const Sha256: HashFunction
}
