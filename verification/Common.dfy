/** Small vocabulary shared by the models: optional column values, playing steps one after another, and facts about sets. */
module Common {

  /** A nullable column or an optional answer. */
  datatype Option<+T> = None | Some(value: T) {
    function GetOr(default: T): T {
      match this
      case None => default
      case Some(v) => v
    }
  }

  lemma SubsetIsSmaller<T>(a: set<T>, b: set<T>)
    requires a <= b
    ensures |a| <= |b|
  {
    if a != {} {
      var x :| x in a;
      SubsetIsSmaller(a - {x}, b - {x});
    }
  }

  /** There is always a string outside a finite set of them. */
  lemma FreshString(taken: set<string>) returns (unused: string)
    ensures unused !in taken
  {
    var rest := taken;
    var bound: nat := 0;
    while rest != {}
      invariant rest <= taken
      invariant forall x | x in taken - rest :: |x| < bound
    {
      var x :| x in rest;
      rest, bound := rest - {x}, if |x| < bound then bound else |x| + 1;
    }
    unused := seq(bound, _ => 'x');
    assert rest == {} && taken - rest == taken;
  }

  /** Where the steps of `xs` lead, one after another. */
  function Plays<S, A>(step: (S, A) -> S, s: S, xs: seq<A>): S
    decreases |xs|
  {
    if xs == [] then s else step(Plays(step, s, xs[..|xs| - 1]), xs[|xs| - 1])
  }

  lemma {:induction false} PlaysAppend<S, A>(step: (S, A) -> S, s: S, xs: seq<A>, ys: seq<A>)
    ensures Plays(step, s, xs + ys) == Plays(step, Plays(step, s, xs), ys)
    decreases |ys|
  {
    if ys == [] {
      assert xs + ys == xs;
    } else {
      var n := |ys| - 1;
      assert (xs + ys)[..|xs + ys| - 1] == xs + ys[..n];
      PlaysAppend(step, s, xs, ys[..n]);
    }
  }
}
