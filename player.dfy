/** A player on the roster and the two in-place edits the roster's controls make to one. */
module Players {

  /** `id` is fixed when the player is created (a `let`); `name` and `score` are edited in place.
      The score is an unbounded integer and may go negative. */
  datatype Player = Player(id: nat, name: string, score: int)

  /** The two buttons of a stepper. */
  datatype Direction = Increment | Decrement

  /** The player after the name field is edited to `n`. */
  function Renamed(p: Player, n: string): (r: Player)
    ensures r.name == n
    ensures r.id == p.id && r.score == p.score
  {
    p.(name := n)
  }

  /** The player after one press of a stepper button: the score moves by exactly one, with no bound. */
  function Stepped(p: Player, d: Direction): (r: Player)
    ensures d == Increment ==> r.score == p.score + 1
    ensures d == Decrement ==> r.score == p.score - 1
    ensures r.id == p.id && r.name == p.name
    ensures r != p
  {
    match d
    case Increment => p.(score := p.score + 1)
    case Decrement => p.(score := p.score - 1)
  }

  /** A press of Increment followed by Decrement (or the other way round) restores the player. */
  lemma StepsCancel(p: Player, d: Direction)
    ensures Stepped(Stepped(p, d), if d == Increment then Decrement else Increment) == p
  {
  }

  /** Two players differ whenever their ids do, even with equal name and score. */
  lemma DistinctById(p: Player, q: Player)
    requires p.id != q.id
    ensures p != q
  {
  }

  /** No two players of `ps` share an id. */
  predicate DistinctIds(ps: seq<Player>)
  {
    forall i, j :: 0 <= i < j < |ps| ==> ps[i].id != ps[j].id
  }

  /** Every id in `ps` has been handed out already, i.e. is below `bound`. */
  predicate IdsBelow(ps: seq<Player>, bound: nat)
  {
    forall i :: 0 <= i < |ps| ==> ps[i].id < bound
  }

  /** `qs` is `ps` position by position with the same ids (names and scores may differ). */
  predicate SameIds(ps: seq<Player>, qs: seq<Player>)
  {
    |ps| == |qs| && forall i :: 0 <= i < |ps| ==> ps[i].id == qs[i].id
  }

  /** Appending a player with the next unused id keeps the ids distinct and below the advanced bound. */
  lemma AppendFresh(ps: seq<Player>, bound: nat, name: string, score: int)
    requires DistinctIds(ps) && IdsBelow(ps, bound)
    ensures DistinctIds(ps + [Player(bound, name, score)])
    ensures IdsBelow(ps + [Player(bound, name, score)], bound + 1)
  {
  }

  /** Distinctness and the id bound depend on the ids alone. */
  lemma SameIdsKeepInvariant(ps: seq<Player>, qs: seq<Player>, bound: nat)
    requires SameIds(ps, qs) && DistinctIds(ps) && IdsBelow(ps, bound)
    ensures DistinctIds(qs) && IdsBelow(qs, bound)
  {
  }
}
