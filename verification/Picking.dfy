/** The rows a bounded statement picks: the first few of the candidates in a
    total order. */
module Picking {
  /** A position in an order by several columns. */
  datatype Rank = Rank(a: int, b: int, c: int, d: int)

  predicate Less(x: Rank, y: Rank) {
    || x.a < y.a
    || (x.a == y.a && x.b < y.b)
    || (x.a == y.a && x.b == y.b && x.c < y.c)
    || (x.a == y.a && x.b == y.b && x.c == y.c && x.d < y.d)
  }

  /** No two candidates have the same rank. */
  ghost predicate Ranked<K(!new)>(candidates: set<K>, rank: K -> Rank) {
    forall x, y | x in candidates && y in candidates && x != y :: rank(x) != rank(y)
  }

  /** `ORDER BY rank LIMIT limit`: nothing left out comes before anything
      picked, and something is left out only when the limit is reached. */
  ghost predicate FirstFew<K(!new)>(candidates: set<K>, rank: K -> Rank, limit: int, picked: set<K>) {
    && picked <= candidates && |picked| <= limit
    && (|picked| < limit ==> picked == candidates)
    && forall x, y | x in picked && y in candidates && y !in picked :: Less(rank(x), rank(y))
  }

  method First<K(!new, ==)>(candidates: set<K>, rank: K -> Rank) returns (first: K)
    requires candidates != {} && Ranked(candidates, rank)
    ensures first in candidates && forall y | y in candidates && y != first :: Less(rank(first), rank(y))
  {
    first :| first in candidates;
    var rest := candidates - {first};
    while exists x :: x in rest
      invariant rest <= candidates && first in candidates && first !in rest
      invariant forall y | y in candidates && y !in rest && y != first :: Less(rank(first), rank(y))
      decreases rest
    {
      var x :| x in rest;
      rest := rest - {x};
      if Less(rank(x), rank(first)) { first := x; }
    }
  }

  method Pick<K(!new, ==)>(candidates: set<K>, rank: K -> Rank, limit: nat) returns (picked: set<K>)
    requires Ranked(candidates, rank)
    ensures FirstFew(candidates, rank, limit, picked)
  {
    picked := {};
    var rest := candidates;
    while |picked| < limit && rest != {}
      invariant picked + rest == candidates && picked !! rest && |picked| <= limit
      invariant forall x, y | x in picked && y in rest :: Less(rank(x), rank(y))
      decreases rest
    {
      var first := First(rest, rank);
      picked := picked + {first};
      rest := rest - {first};
    }
  }
}
