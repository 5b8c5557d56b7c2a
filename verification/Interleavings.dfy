/** Every interleaving of concurrent requests, one move at a time. */
module Interleavings {
  /** `turn` makes one move; it leaves the world alone if the move is not enabled, such as a blocked insert. */
  function Play<W, M>(turn: (W, M) -> W, w: W, moves: seq<M>): W {
    if |moves| == 0 then w else turn(Play(turn, w, moves[..|moves| - 1]), moves[|moves| - 1])
  }

  /** What every turn keeps, every interleaving keeps. */
  lemma {:induction false} PlayKeeps<W(!new), M(!new)>(turn: (W, M) -> W, good: W -> bool, w: W, moves: seq<M>)
    requires good(w)
    requires forall a: W, m: M :: good(a) ==> good(turn(a, m))
    ensures good(Play(turn, w, moves))
  {
    if |moves| > 0 {
      PlayKeeps(turn, good, w, moves[..|moves| - 1]);
    }
  }

  lemma PlayOneMore<W, M>(turn: (W, M) -> W, w: W, moves: seq<M>, m: M)
    ensures Play(turn, w, moves + [m]) == turn(Play(turn, w, moves), m)
  {
    assert (moves + [m])[..|moves|] == moves;
  }
}
