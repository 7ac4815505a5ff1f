/** Small vocabulary shared by every component: optional values, non-zero identities, the
    tally of one item over a sequence of things that carry items, and the fold of a machine
    over its inputs. */
module Common {

  datatype Option<+T> = None | Some(value: T)

  /** The largest value of the 64-bit counters that hand out identities. */
  const MAX_U64: nat := 0xFFFF_FFFF_FFFF_FFFF

  /** A non-zero 64-bit identity. */
  type Identity = x: int | 1 <= x <= MAX_U64 witness 1

  type Positive = n: int | 0 < n witness 1

  /** How often item `x` is carried by the elements of `s`, where `f` counts it in one element. */
  ghost function Tally<T, X>(s: seq<T>, f: (T, X) -> nat, x: X): nat {
    if s == [] then 0 else Tally(s[..|s| - 1], f, x) + f(s[|s| - 1], x)
  }

  lemma TallyAppend<T, X>(s: seq<T>, t: T, f: (T, X) -> nat, x: X)
    ensures Tally(s + [t], f, x) == Tally(s, f, x) + f(t, x)
  {
    assert (s + [t])[..|s|] == s;
  }

  lemma {:induction false} TallyConcat<T, X>(a: seq<T>, b: seq<T>, f: (T, X) -> nat, x: X)
    ensures Tally(a + b, f, x) == Tally(a, f, x) + Tally(b, f, x)
  {
    if b == [] {
      assert a + b == a;
    } else {
      var n := |b| - 1;
      TallyConcat(a, b[..n], f, x);
      assert (a + b)[..|a| + n] == a + b[..n];
    }
  }

  lemma TallyFirst<T, X>(s: seq<T>, f: (T, X) -> nat, x: X)
    requires s != []
    ensures Tally(s, f, x) == f(s[0], x) + Tally(s[1..], f, x)
  {
    TallyConcat([s[0]], s[1..], f, x);
    assert [s[0]] + s[1..] == s;
  }

  lemma {:induction false} TallyUpdate<T, X>(s: seq<T>, i: nat, t: T, f: (T, X) -> nat, x: X)
    requires i < |s|
    ensures Tally(s[i := t], f, x) + f(s[i], x) == Tally(s, f, x) + f(t, x)
  {
    var n := |s| - 1;
    if i == n {
      assert s[i := t][..n] == s[..n];
    } else {
      TallyUpdate(s[..n], i, t, f, x);
      assert s[i := t][..n] == s[..n][i := t];
    }
  }

  lemma {:induction false} TallyHas<T, X>(s: seq<T>, i: nat, f: (T, X) -> nat, x: X)
    requires i < |s|
    ensures f(s[i], x) <= Tally(s, f, x)
  {
    if i < |s| - 1 {
      TallyHas(s[..|s| - 1], i, f, x);
    }
  }

  /** An item that is carried at all is carried by some element. */
  lemma {:induction false} TallyFind<T, X>(s: seq<T>, f: (T, X) -> nat, x: X) returns (i: nat)
    requires Tally(s, f, x) > 0
    ensures i < |s| && f(s[i], x) > 0
  {
    var n := |s| - 1;
    if f(s[n], x) > 0 {
      i := n;
    } else {
      i := TallyFind(s[..n], f, x);
    }
  }

  lemma {:induction false} TallyZero<T, X>(s: seq<T>, f: (T, X) -> nat, x: X)
    requires forall i :: 0 <= i < |s| ==> f(s[i], x) == 0
    ensures Tally(s, f, x) == 0
  {
    if s != [] {
      TallyZero(s[..|s| - 1], f, x);
    }
  }

  /** An item carried by one element only is carried as often as that element carries it. */
  lemma {:induction false} TallyOnly<T, X>(s: seq<T>, i: nat, f: (T, X) -> nat, x: X)
    requires i < |s|
    requires forall j :: 0 <= j < |s| && j != i ==> f(s[j], x) == 0
    ensures Tally(s, f, x) == f(s[i], x)
  {
    var n := |s| - 1;
    if i == n {
      TallyZero(s[..n], f, x);
    } else {
      TallyOnly(s[..n], i, f, x);
    }
  }

  lemma {:induction false} TallyTwo<T, X>(s: seq<T>, i: nat, j: nat, f: (T, X) -> nat, x: X)
    requires i < |s| && j < |s| && i != j
    ensures Tally(s, f, x) >= f(s[i], x) + f(s[j], x)
  {
    var n := |s| - 1;
    if i == n {
      TallyHas(s[..n], j, f, x);
    } else if j == n {
      TallyHas(s[..n], i, f, x);
    } else {
      TallyTwo(s[..n], i, j, f, x);
    }
  }

  /** What a machine makes of a list of inputs, independently of any executor. */
  function Fold<M, I, O>(step: (M, I) -> (O, M), initial: M, inputs: seq<I>): (seq<O>, M) {
    if inputs == [] then ([], initial)
    else
      var n := |inputs| - 1;
      var (outputs, state) := Fold(step, initial, inputs[..n]);
      var (output, next) := step(state, inputs[n]);
      (outputs + [output], next)
  }

  lemma FoldExtends<M, I, O>(step: (M, I) -> (O, M), initial: M, inputs: seq<I>, input: I)
    ensures
      var (outputs, state) := Fold(step, initial, inputs);
      var (output, next) := step(state, input);
      Fold(step, initial, inputs + [input]) == (outputs + [output], next)
  {
    assert (inputs + [input])[..|inputs|] == inputs;
  }
}
