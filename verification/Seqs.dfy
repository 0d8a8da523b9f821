/** Shared vocabulary: optional values and a few facts about sequences. */
module Seqs {

  datatype Option<+T> = None | Some(value: T) {
    function GetOr(default: T): T {
      if Some? then value else default
    }
  }

  /** Subtraction that stops at zero. */
  function SaturatingSub(a: nat, b: nat): (r: nat)
    ensures r + b == a || (a < b && r == 0)
  {
    if a >= b then a - b else 0
  }

  /** A number in decimal. */
  function Digits(n: nat): (s: string)
    ensures |s| >= 1
  {
    if n < 10 then ["0123456789"[n]] else Digits(n / 10) + ["0123456789"[n % 10]]
  }

  /** The concatenation of a list of sequences. */
  function Flatten<T>(parts: seq<seq<T>>): seq<T> {
    if parts == [] then [] else parts[0] + Flatten(parts[1..])
  }

  lemma Associate<T>(a: seq<T>, b: seq<T>, c: seq<T>)
    ensures a + b + c == a + (b + c)
  {
  }

  lemma {:induction false} FlattenAppend<T>(a: seq<seq<T>>, b: seq<seq<T>>)
    ensures Flatten(a + b) == Flatten(a) + Flatten(b)
  {
    if a == [] {
      assert a + b == b;
    } else {
      FlattenAppend(a[1..], b);
      assert (a + b)[1..] == a[1..] + b;
      Associate(a[0], Flatten(a[1..]), Flatten(b));
    }
  }

  lemma FlattenSnoc<T>(a: seq<seq<T>>, last: seq<T>)
    ensures Flatten(a + [last]) == Flatten(a) + last
  {
    FlattenAppend(a, [last]);
    assert Flatten([last]) == last + [];
  }

  /** Extending a text by the next of a list of pieces. */
  lemma FlattenNext<T>(head: seq<T>, parts: seq<seq<T>>, i: nat)
    requires i < |parts|
    ensures head + Flatten(parts[..i + 1]) == head + Flatten(parts[..i]) + parts[i]
  {
    FlattenSnoc(parts[..i], parts[i]);
    assert parts[..i + 1] == parts[..i] + [parts[i]];
  }

  /** Going through a list from the left. */
  function Fold<S, A>(step: (S, A) -> S, start: S, items: seq<A>): S {
    if items == [] then start else step(Fold(step, start, items[..|items| - 1]), items[|items| - 1])
  }

  lemma {:induction false} FoldAppend<S, A>(step: (S, A) -> S, start: S, a: seq<A>, b: seq<A>)
    ensures Fold(step, start, a + b) == Fold(step, Fold(step, start, a), b)
  {
    if b == [] {
      assert a + b == a;
    } else {
      FoldAppend(step, start, a, b[..|b| - 1]);
      assert (a + b)[..|a + b| - 1] == a + b[..|b| - 1];
    }
  }

  lemma FoldSnoc<S, A>(step: (S, A) -> S, start: S, items: seq<A>, last: A)
    ensures Fold(step, start, items + [last]) == step(Fold(step, start, items), last)
  {
    assert (items + [last])[..|items|] == items;
  }

  lemma FoldNext<S, A>(step: (S, A) -> S, start: S, items: seq<A>, i: nat)
    requires i < |items|
    ensures Fold(step, start, items[..i + 1]) == step(Fold(step, start, items[..i]), items[i])
  {
    FoldSnoc(step, start, items[..i], items[i]);
    assert items[..i + 1] == items[..i] + [items[i]];
  }
}
