/** The optional and failing results shared by the models. */
module Wrappers {

  datatype Option<+T> = None | Some(value: T)

  datatype Result<+T, +E> = Ok(value: T) | Err(error: E)
}

/** The two playable sides. Blue is TEAM1, Green is TEAM2. */
module Teams {

  datatype Team = Blue | Green | Neutral

  predicate Playable(team: Team) {
    team != Neutral
  }

  function Other(team: Team): Team {
    if team == Blue then Green else Blue
  }
}

/** Players as the mode hooks see them: the object is the identity, the compact id is reused after a departure. */
module Roster {
  import opened Teams

  class Player {
    const id: nat
    var team: Team

    constructor (id: nat, team: Team)
      ensures this.id == id && this.team == team
    {
      this.id, this.team := id, team;
    }
  }
}

/** Sizes of sets and maps, shared by the models. */
module Sizes {

  function Min(a: nat, b: nat): nat {
    if a < b then a else b
  }

  lemma SubsetSize<T>(a: set<T>, b: set<T>)
    requires a <= b
    ensures |a| <= |b|
  {
    assert b == a + (b - a);
    assert a !! (b - a);
  }

  lemma OneFewer<K, V>(m: map<K, V>, k: K)
    requires k in m
    ensures |m - {k}| == |m| - 1
  {
    assert (m - {k}).Keys == m.Keys - {k};
    assert |m - {k}| == |(m - {k}).Keys| && |m| == |m.Keys|;
  }
}

/** Picking one of several. */
module Choices {
  import opened Wrappers

  ghost function Lowest(es: set<nat>): (low: Option<nat>)
    ensures low.None? <==> es == {}
    ensures low.Some? ==> low.value in es && forall e :: e in es ==> low.value <= e
  {
    if es == {} then None
    else
      var e :| e in es;
      var rest := Lowest(es - {e});
      assert forall x :: x in es ==> x == e || x in es - {e};
      if rest.None? || e < rest.value then Some(e) else rest
  }
}

/** Division facts shared by the models. */
module Arithmetic {

  lemma SmallMultiple(d: int, k: int)
    requires -d < d * k < d
    ensures k == 0
  {
    assert k >= 1 ==> d * k >= d;
    assert k <= -1 ==> d * k <= -d;
  }

  lemma DivModUnique(n: nat, d: nat, q: nat, r: nat)
    requires d > 0 && r < d && n == d * q + r
    ensures n / d == q && n % d == r
  {
    assert n == d * (n / d) + n % d;
    assert d * (q - n / d) == d * q - d * (n / d);
    SmallMultiple(d, q - n / d);
  }

  lemma DivModParts(a: nat, n: nat) returns (q: nat, r: nat)
    requires n > 0
    ensures a == n * q + r && r < n && q == a / n && r == a % n
  {
    q, r := a / n, a % n;
  }

  lemma CarryOver(a: nat, b: nat, n: nat, p: nat, m: nat, q: nat, r: nat)
    requires n > 0 && r < n && a == n * p + m && m + b == n * q + r
    ensures (a + b) / n == p + q && (a + b) % n == r
  {
    assert n * (p + q) == n * p + n * q;
    DivModUnique(a + b, n, p + q, r);
  }

  lemma AddThenWrap(a: nat, b: nat, n: nat)
    requires n > 0
    ensures (a % n + b) % n == (a + b) % n
    ensures a / n + (a % n + b) / n == (a + b) / n
  {
    var p, m := DivModParts(a, n);
    var q, r := DivModParts(m + b, n);
    CarryOver(a, b, n, p, m, q, r);
  }

  /** Fewer than `n` steps around a circle of `n` never meet. */
  lemma StepsAreDistinct(start: nat, i: nat, j: nat, n: nat)
    requires i < j < n
    ensures (start + i) % n != (start + j) % n
  {
    AddThenWrap(start + i, j - i, n);
    var r := (start + i) % n;
    if r + (j - i) < n {
      DivModUnique(r + (j - i), n, 0, r + (j - i));
    } else {
      DivModUnique(r + (j - i), n, 1, r + (j - i) - n);
    }
  }
}
