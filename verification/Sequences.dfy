/** Facts about joining and splitting sequences, one at a time, so that proofs elsewhere can
    treat their sequences as a whole. */
module Sequences {

  lemma Join<T>(u: seq<T>, v: seq<T>, w: seq<T>)
    ensures u + (v + w) == u + v + w
  {
  }

  lemma Nothing<T>(u: seq<T>)
    ensures u + [] == u && [] + u == u
  {
  }

  lemma Rejoin<T>(u: seq<T>, k: nat)
    requires k <= |u|
    ensures u[..k] + u[k..] == u
  {
  }

  lemma SplitAt<T>(u: seq<T>, v: seq<T>)
    ensures (u + v)[..|u|] == u && (u + v)[|u|..] == v
  {
  }

  lemma HeadAndTail<T>(u: seq<T>)
    requires u != []
    ensures u == [u[0]] + u[1..]
  {
  }

  lemma TakenOut<T>(u: seq<T>, x: T, v: seq<T>)
    ensures var o := u + [x] + v; o[|u|] == x && o[..|u|] + o[|u| + 1..] == u + v
  {
    var o := u + [x] + v;
    assert o[..|u|] == u && o[|u| + 1..] == v;
  }
}
