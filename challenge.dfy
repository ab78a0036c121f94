/** The content records of the store: a challenge and the dohas (verse pairs) it holds. */
module Challenges {
  import opened Wrappers

  /** One verse pair; `sequence` is its 1-based place within the challenge `challengeId`. */
  datatype Doha = Doha(id: int, line1: string, line2: string, sequence: int, challengeId: int)

  /** A titled group of dohas; `category` and `book` are optional fields of the JSON record. */
  datatype Challenge = Challenge(
    id: int,
    title: string,
    dohas: seq<Doha>,
    category: Option<string>,
    book: Option<string>
  )

  /** Every challenge's id, in list order. */
  function Ids(cs: seq<Challenge>): (r: seq<int>)
    ensures |r| == |cs| && forall i | 0 <= i < |cs| :: r[i] == cs[i].id
  {
    if cs == [] then [] else [cs[0].id] + Ids(cs[1..])
  }

  /** No two challenges of the list share an id. */
  predicate DistinctIds(cs: seq<Challenge>) {
    forall i, j | 0 <= i < j < |cs| :: cs[i].id != cs[j].id
  }
}
