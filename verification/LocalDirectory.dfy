/** Sharded storage: a power-of-two array of maps, each behind its own lock, that together
    behave as one flat map from entities to slots. Slots are compared by identity. */
module LocalDirectory {
  import opened Common
  import D = Directory

  // ----- masking a hash -----

  /** Bitwise and of two unsigned numbers. */
  function And(h: nat, m: nat): nat {
    if h == 0 || m == 0 then 0
    else 2 * And(h / 2, m / 2) + if h % 2 == 1 && m % 2 == 1 then 1 else 0
  }

  predicate IsPowerOfTwo(n: nat) {
    n == 1 || (n > 0 && n % 2 == 0 && IsPowerOfTwo(n / 2))
  }

  /** The shard a hash selects among `n`. */
  function Masked(h: nat, n: nat): nat
    requires n > 0
  {
    And(h, n - 1)
  }

  /** A masked hash is a valid index, whatever the mask. */
  lemma {:induction false} AndInRange(h: nat, m: nat)
    ensures And(h, m) <= m
  {
    if h != 0 && m != 0 {
      AndInRange(h / 2, m / 2);
    }
  }

  lemma {:induction false} AndTwice(h: nat, m: nat)
    ensures And(And(h, m), m) == And(h, m)
  {
    if h != 0 && m != 0 {
      AndTwice(h / 2, m / 2);
    }
  }

  /** With a power-of-two count every number below it is its own masked form. */
  lemma {:induction false} MaskKeepsIndices(i: nat, n: nat)
    requires IsPowerOfTwo(n) && i < n
    ensures Masked(i, n) == i
  {
    if i != 0 && n > 1 {
      MaskKeepsIndices(i / 2, n / 2);
      assert (n - 1) / 2 == n / 2 - 1;
    }
  }

  lemma {:induction false} OnlyPowersKeepIndices(n: nat)
    requires n > 0 && forall i: nat :: i < n ==> Masked(i, n) == i
    ensures IsPowerOfTwo(n)
  {
    if n > 1 {
      assert Masked(1, n) == 1;
      forall i: nat | i < n / 2
        ensures Masked(i, n / 2) == i
      {
        assert Masked(2 * i, n) == 2 * i;
      }
      OnlyPowersKeepIndices(n / 2);
    }
  }

  /** Some hash selects shard `i`. */
  ghost predicate Selectable(i: nat, n: nat)
    requires n > 0
  {
    exists h: nat :: Masked(h, n) == i
  }

  /** Why the shard count must be a power of two: the masked hash reaches every shard exactly then. */
  lemma EveryShardSelectableIffPowerOfTwo(n: nat)
    requires n > 0
    ensures (forall i: nat :: i < n ==> Selectable(i, n)) <==> IsPowerOfTwo(n)
  {
    if IsPowerOfTwo(n) {
      forall i: nat | i < n
        ensures Selectable(i, n)
      {
        MaskKeepsIndices(i, n);
      }
    } else if forall i: nat :: i < n ==> Selectable(i, n) {
      forall i: nat | i < n
        ensures Masked(i, n) == i
      {
        assert Selectable(i, n);
        var h: nat :| Masked(h, n) == i;
        AndTwice(h, n - 1);
      }
      OnlyPowersKeepIndices(n);
    }
  }

  // ----- many maps as one -----

  function Flatten<I, S>(shards: seq<map<I, S>>): map<I, S> {
    if shards == [] then map[] else Flatten(shards[..|shards| - 1]) + shards[|shards| - 1]
  }

  function Size<I, S>(shards: seq<map<I, S>>): nat {
    if shards == [] then 0 else Size(shards[..|shards| - 1]) + |shards[|shards| - 1]|
  }

  /** Every identity lives in the shard its hash selects. */
  ghost predicate AtHome<I(!new), S>(shards: seq<map<I, S>>, home: I -> nat) {
    forall i, id :: 0 <= i < |shards| && id in shards[i] ==> home(id) == i
  }

  lemma {:induction false} FlattenLooksUp<I(!new), S>(shards: seq<map<I, S>>, home: I -> nat, id: I)
    requires AtHome(shards, home)
    ensures id in Flatten(shards) <==> home(id) < |shards| && id in shards[home(id)]
    ensures id in Flatten(shards) ==> Flatten(shards)[id] == shards[home(id)][id]
  {
    if shards != [] {
      FlattenLooksUp(shards[..|shards| - 1], home, id);
    }
  }

  lemma {:induction false} FlattenCounts<I(!new), S>(shards: seq<map<I, S>>, home: I -> nat)
    requires AtHome(shards, home)
    ensures |Flatten(shards)| == Size(shards)
  {
    if shards != [] {
      var n := |shards| - 1;
      var before := Flatten(shards[..n]);
      FlattenCounts(shards[..n], home);
      forall id | id in before
        ensures id !in shards[n]
      {
        FlattenLooksUp(shards[..n], home, id);
      }
      DisjointSizes(before, shards[n]);
    }
  }

  lemma DisjointSizes<I, S>(a: map<I, S>, b: map<I, S>)
    requires a.Keys !! b.Keys
    ensures |a + b| == |a| + |b|
  {
    assert (a + b).Keys == a.Keys + b.Keys;
  }

  /** Changing one identity in its home shard changes just that identity in the flat map. */
  lemma FlattenUpdate<I(!new), S>(shards: seq<map<I, S>>, home: I -> nat, id: I, shard: map<I, S>)
    requires AtHome(shards, home) && home(id) < |shards|
    requires shard - {id} == shards[home(id)] - {id}
    ensures AtHome(shards[home(id) := shard], home)
    ensures Flatten(shards[home(id) := shard])
         == if id in shard then Flatten(shards)[id := shard[id]] else Flatten(shards) - {id}
  {
    var t := shards[home(id) := shard];
    forall i, x | 0 <= i < |t| && x in t[i]
      ensures home(x) == i
    {
      if x != id && i == home(id) {
        assert x in shard - {id};
      }
    }
    var expected := if id in shard then Flatten(shards)[id := shard[id]] else Flatten(shards) - {id};
    forall x
      ensures x in Flatten(t) <==> x in expected
      ensures x in Flatten(t) ==> Flatten(t)[x] == expected[x]
    {
      FlattenLooksUp(t, home, x);
      FlattenLooksUp(shards, home, x);
      if x != id && home(x) == home(id) {
        assert x in shard - {id} <==> x in shards[home(id)] - {id};
        assert x in shard ==> (shard - {id})[x] == (shards[home(id)] - {id})[x];
      }
    }
  }

  // ----- the specification of the locked sections -----

  datatype Claim<S> = Found(slot: S) | Claimed(activationId: Identity, slot: S) | Exhausted

  /** Find the slot of an identity, or claim a fresh activation for a new one. */
  function FindOrClaimIn<I(==), S>(entries: map<I, S>, next: nat, id: I, make: Identity -> S): (Claim<S>, map<I, S>, nat)
    requires 1 <= next <= MAX_U64
  {
    if id in entries then (Found(entries[id]), entries, next)
    else
      var (granted, after) := D.Allocate(next);
      match granted
      case None => (Exhausted, entries, after)
      case Some(g) => (Claimed(g, make(g)), entries[id := make(g)], after)
  }

  /** Remove an identity's entry only if it still is this very slot. */
  function RemoveExact<I(==), S(==)>(entries: map<I, S>, id: I, slot: S): map<I, S> {
    if id in entries && entries[id] == slot then entries - {id} else entries
  }

  class LocalDirectory<I(!new, ==), S(==)> {
    const shards: array<map<I, S>>
    const mask: nat
    const hash: I -> nat
    var nextActivation: nat
    var nextDispatch: nat

    function Home(): I -> nat {
      id => And(hash(id), mask)
    }

    ghost predicate Valid()
      reads this, shards
    {
      && IsPowerOfTwo(shards.Length) && mask == shards.Length - 1
      && AtHome(shards[..], Home())
      && 1 <= nextActivation <= MAX_U64 && 1 <= nextDispatch <= MAX_U64
    }

    /** The one map all shards together are. */
    ghost function Flat(): map<I, S>
      reads shards
    {
      Flatten(shards[..])
    }

    constructor (count: nat, hash: I -> nat)
      requires IsPowerOfTwo(count)
      ensures Valid() && fresh(shards) && shards.Length == count && this.hash == hash
      ensures Flat() == map[] && nextActivation == 1 && nextDispatch == 1
    {
      shards := new map<I, S>[count](_ => map[]);
      mask := count - 1;
      this.hash := hash;
      nextActivation := 1;
      nextDispatch := 1;
      new;
      if Flatten(shards[..]) != map[] {
        var id :| id in Flatten(shards[..]);
        FlattenLooksUp(shards[..], Home(), id);
      }
    }

    /** Only a power-of-two shard count is accepted. */
    static method WithHasher(count: Positive, hash: I -> nat) returns (r: Option<LocalDirectory<I, S>>)
      ensures r.Some? <==> IsPowerOfTwo(count)
      ensures r.Some? ==> fresh(r.value) && fresh(r.value.shards) && r.value.Valid() && r.value.Flat() == map[]
      ensures r.Some? ==> r.value.nextActivation == 1 && r.value.nextDispatch == 1
    {
      if !IsPowerOfTwo(count) {
        return None;
      }
      var directory := new LocalDirectory<I, S>(count, hash);
      r := Some(directory);
    }

    method ShardIndex(id: I) returns (i: nat)
      requires Valid()
      ensures i < shards.Length && i == Home()(id)
    {
      i := And(hash(id), mask);
      AndInRange(hash(id), mask);
    }

    method Lookup(id: I) returns (slot: Option<S>)
      requires Valid()
      ensures slot == if id in Flat() then Some(Flat()[id]) else None
    {
      var i := ShardIndex(id);
      FlattenLooksUp(shards[..], Home(), id);
      slot := if id in shards[i] then Some(shards[i][id]) else None;
    }

    /** The locked section of dispatch: reuse the mapped slot, or claim and install a new one. */
    method FindOrClaim(id: I, make: Identity -> S) returns (r: Claim<S>)
      requires Valid()
      modifies shards, `nextActivation
      ensures Valid()
      ensures (r, Flat(), nextActivation) == FindOrClaimIn(old(Flat()), old(nextActivation), id, make)
    {
      var i := ShardIndex(id);
      FlattenLooksUp(shards[..], Home(), id);
      if id in shards[i] {
        return Found(shards[i][id]);
      }
      if nextActivation == MAX_U64 {
        return Exhausted;
      }
      var g: Identity := nextActivation;
      nextActivation := nextActivation + 1;
      var slot := make(g);
      ghost var before := shards[..];
      FlattenUpdate(before, Home(), id, before[i][id := slot]);
      shards[i] := shards[i][id := slot];
      assert shards[..] == before[i := before[i][id := slot]];
      r := Claimed(g, slot);
    }

    method RemoveMatching(id: I, slot: S)
      requires Valid()
      modifies shards
      ensures Valid()
      ensures Flat() == RemoveExact(old(Flat()), id, slot)
    {
      var i := ShardIndex(id);
      FlattenLooksUp(shards[..], Home(), id);
      if id in shards[i] && shards[i][id] == slot {
        ghost var before := shards[..];
        FlattenUpdate(before, Home(), id, before[i] - {id});
        shards[i] := shards[i] - {id};
        assert shards[..] == before[i := before[i] - {id}];
      }
    }

    method AllocateDispatch() returns (granted: Option<Identity>)
      requires Valid()
      modifies `nextDispatch
      ensures Valid()
      ensures (granted, nextDispatch) == D.Allocate(old(nextDispatch))
    {
      if nextDispatch == MAX_U64 {
        return None;
      }
      granted := Some(nextDispatch);
      nextDispatch := nextDispatch + 1;
    }

    /** The summed shard sizes are the size of the flat map. */
    method Len() returns (n: nat)
      requires Valid()
      ensures n == |Flat()|
    {
      n := 0;
      for i := 0 to shards.Length
        invariant n == Size(shards[..i])
      {
        assert shards[..i + 1][..i] == shards[..i];
        n := n + |shards[i]|;
      }
      assert shards[..shards.Length] == shards[..];
      FlattenCounts(shards[..], Home());
    }
  }

  /** The sections are what the concurrent directory's steps do to its entries and counter. */
  lemma SectionsAreDirectorySteps<I, C, E, L>(d: D.Directory<I, C, E, L>, j: nat)
    requires D.Inv(d) && D.Enabled(d, D.Step(j))
    ensures d.ops[j].DispatchLookup? ==>
      var (claim, entries, next) := FindOrClaimIn(d.entries, d.nextActivation, d.ops[j].entity, (g: Identity) => |d.slots|);
      var t := D.Apply(d, D.Step(j));
      && t.entries == entries && t.nextActivation == next
      && (claim.Found? ==> t.ops[j].Holding? && t.ops[j].slot == claim.slot && t.slots == d.slots)
      && (claim.Claimed? ==> |t.slots| == |d.slots| + 1 && t.slots[claim.slot].activationId == claim.activationId)
    ensures d.ops[j].Owning? && d.ops[j].effects != [] && d.ops[j].effects[0].Remove? ==>
      D.Apply(d, D.Step(j)).entries == RemoveExact(d.entries, d.ops[j].entity, d.ops[j].slot)
    ensures !d.ops[j].DispatchLookup? && !(d.ops[j].Owning? && d.ops[j].effects != [] && d.ops[j].effects[0].Remove?) ==>
      D.Apply(d, D.Step(j)).entries == d.entries && D.Apply(d, D.Step(j)).nextActivation == d.nextActivation
  {
  }
}
