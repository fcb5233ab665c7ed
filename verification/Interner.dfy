/**
 The bounded key interner: sixteen locked shards and one shared count that is
 read and incremented without a lock. First the operation as a single thread runs
 it, then every interleaving of threads holding different shard locks.
 */
module Interner {
  import opened Names
  import opened Key

  const SHARDS: nat := 16
  const LONGEST: nat := 128

  /** A bucket's label: a folded hash. */
  datatype Hash = Hash(bits: bv64)

  type Buckets = map<Hash, seq<Name>>

  function HashOf(name: Name): Hash { Hash(FoldHash(name)) }

  function ShardOf(name: Name): (i: nat)
    ensures i < SHARDS
  {
    ((FoldHash(name) & 15) as bv4) as nat
  }

  function Bucket(b: Buckets, hash: Hash): seq<Name> {
    if hash in b then b[hash] else []
  }

  function Added(b: Buckets, name: Name): Buckets {
    b[HashOf(name) := Bucket(b, HashOf(name)) + [name]]
  }

  // ---- How many names a shard holds ----

  ghost function Size(b: Buckets): nat {
    if b.Keys == {} then 0 else
    var h :| h in b.Keys;
    |b[h]| + Size(b - {h})
  }

  lemma {:induction false} SizeWithout(b: Buckets, h: Hash)
    requires h in b
    ensures Size(b) == |b[h]| + Size(b - {h})
    decreases |b|
  {
    var g :| g in b.Keys && Size(b) == |b[g]| + Size(b - {g});
    if g != h {
      SizeWithout(b - {g}, h);
      SizeWithout(b - {h}, g);
      assert b - {g} - {h} == b - {h} - {g};
    }
  }

  lemma {:induction false} SizeAdded(b: Buckets, name: Name)
    ensures Size(Added(b, name)) == Size(b) + 1
  {
    hide HashOf;
    var h := HashOf(name);
    var b' := Added(b, name);
    SizeWithout(b', h);
    assert b' - {h} == b - {h};
    if h in b {
      SizeWithout(b, h);
    } else {
      assert b - {h} == b;
    }
  }

  lemma {:induction false} SizeOpened(b: Buckets, h: Hash)
    ensures Size(b[h := Bucket(b, h)]) == Size(b)
  {
    var b' := b[h := Bucket(b, h)];
    SizeWithout(b', h);
    assert b' - {h} == b - {h};
    if h in b {
      SizeWithout(b, h);
    } else {
      assert b - {h} == b;
    }
  }

  // ---- What a shard holds ----

  /** Every name is in its own shard and bucket, spelled as given, once. */
  predicate ShardOk(b: Buckets, shard: nat) {
    && (forall h, i :: h in b && 0 <= i < |b[h]| ==> HashOf(b[h][i]) == h && ShardOf(b[h][i]) == shard)
    && (forall h, i, j :: h in b && 0 <= i < j < |b[h]| ==> b[h][i] != b[h][j])
  }

  lemma {:induction false} AddedOk(b: Buckets, shard: nat, name: Name)
    requires ShardOk(b, shard) && ShardOf(name) == shard && name !in Bucket(b, HashOf(name))
    ensures ShardOk(Added(b, name), shard)
  {
    hide HashOf, ShardOf;
  }

  lemma {:induction false} OpenedOk(b: Buckets, shard: nat, h: Hash)
    requires ShardOk(b, shard)
    ensures ShardOk(b[h := Bucket(b, h)], shard)
  {
    hide HashOf, ShardOf;
  }

  // ---- One thread ----

  method FindExact(bucket: seq<Name>, name: Name) returns (found: Option<Name>)
    ensures found == if name in bucket then Some(name) else None
  {
    var i := 0;
    while i < |bucket|
      invariant 0 <= i <= |bucket|
      invariant name !in bucket[..i]
    {
      if bucket[i] == name {
        return Some(bucket[i]);
      }
      assert bucket[..i + 1] == bucket[..i] + [bucket[i]];
      i := i + 1;
    }
    assert bucket[..i] == bucket;
    return None;
  }

  ghost function Stored(shards: seq<Buckets>): nat {
    if shards == [] then 0 else Stored(shards[..|shards| - 1]) + Size(shards[|shards| - 1])
  }

  lemma {:induction false} StoredSet(shards: seq<Buckets>, i: nat, b: Buckets)
    requires i < |shards|
    ensures Stored(shards[i := b]) == Stored(shards) - Size(shards[i]) + Size(b)
    decreases |shards|
  {
    var n := |shards| - 1;
    if i == n {
      assert shards[i := b][..n] == shards[..n];
    } else {
      assert shards[i := b][..n] == shards[..n][i := b];
      StoredSet(shards[..n], i, b);
    }
  }

  ghost predicate Holds(shards: seq<Buckets>, name: Name) {
    |shards| == SHARDS && name in Bucket(shards[ShardOf(name)], HashOf(name))
  }

  class KeyInterner {
    var shards: seq<Buckets>
    var count: nat
    const cap: nat

    ghost predicate Valid()
      reads this
    {
      && |shards| == SHARDS
      && (forall i :: 0 <= i < SHARDS ==> ShardOk(shards[i], i))
      && Stored(shards) == count <= cap
    }

    constructor (cap: nat)
      ensures Valid() && this.cap == cap && count == 0
    {
      shards := seq(SHARDS, i => map[]);
      count := 0;
      this.cap := cap;
      new;
      EmptyStored(shards);
    }

    /** `intern`: the text returned is the argument's; at most one name is added, and only below the cap. */
    method Intern(name: Name) returns (r: Name)
      requires Valid()
      modifies this
      ensures Valid() && r == name
      ensures Holds(shards, name) <==> old(Holds(shards, name)) || (0 < cap && |name| <= 128 && old(count) < cap)
      ensures forall other :: other != name ==> (Holds(shards, other) <==> old(Holds(shards, other)))
      ensures count == old(count) + if Holds(shards, name) && !old(Holds(shards, name)) then 1 else 0
    {
      hide FoldHash, ShardOf, ShardOk, Stored, Size;
      if cap == 0 || |name| > LONGEST {
        return name;
      }
      var bits := ComputeFoldHash(name);
      var hash := Hash(bits);
      var i := ShardOf(name);
      var b := shards[i];
      var bucket := Bucket(b, hash);
      StoredSet(shards, i, b[hash := bucket]);
      SizeOpened(b, hash);
      OpenedOk(b, i, hash);
      shards := shards[i := b[hash := bucket]];
      var found := FindExact(bucket, name);
      if found.Some? {
        return found.value;
      }
      if count >= cap {
        return name;
      }
      StoredSet(shards, i, Added(b, name));
      SizeAdded(b, name);
      AddedOk(b, i, name);
      shards := shards[i := b[hash := bucket + [name]]];
      count := count + 1;
      return name;
    }
  }

  lemma {:induction false} EmptyStored(shards: seq<Buckets>)
    requires forall i :: 0 <= i < |shards| ==> shards[i] == map[]
    ensures Stored(shards) == 0
    decreases |shards|
  {
    if shards != [] {
      EmptyStored(shards[..|shards| - 1]);
      assert shards[|shards| - 1] == map[];
    }
  }

  // ---- Every interleaving ----

  /** What the thread holding a shard's lock does next. */
  datatype Hold =
    | Unlocked
    | Checking(name: Name)    // scanned the bucket, about to read the count
    | Pushing(name: Name)     // found the count below the cap
    | Counting(name: Name)    // pushed, about to increment the count

  datatype Table = Table(count: nat, shards: seq<Buckets>, holds: seq<Hold>)

  datatype Action = Enter(name: Name) | Check(i: nat) | Push(i: nat) | Count(i: nat)

  predicate Enabled(t: Table, a: Action) {
    && |t.shards| == |t.holds| == SHARDS
    && match a
       case Enter(name) => |name| <= LONGEST && t.holds[ShardOf(name)].Unlocked?
       case Check(i) => i < SHARDS && t.holds[i].Checking?
       case Push(i) => i < SHARDS && t.holds[i].Pushing?
       case Count(i) => i < SHARDS && t.holds[i].Counting?
  }

  /** `intern` under a cap above zero, one shared access per action; a found name releases the lock at once. */
  function Do(t: Table, cap: nat, a: Action): Table
    requires Enabled(t, a)
  {
    match a
    case Enter(name) =>
      var i, h := ShardOf(name), HashOf(name);
      var b := t.shards[i];
      t.(shards := t.shards[i := b[h := Bucket(b, h)]],
         holds := t.holds[i := if name in Bucket(b, h) then Unlocked else Checking(name)])
    case Check(i) => t.(holds := t.holds[i := if t.count >= cap then Unlocked else Pushing(t.holds[i].name)])
    case Push(i) =>
      t.(shards := t.shards[i := Added(t.shards[i], t.holds[i].name)], holds := t.holds[i := Counting(t.holds[i].name)])
    case Count(i) => t.(count := t.count + 1, holds := t.holds[i := Unlocked])
  }

  function EmptyTable(): Table {
    Table(0, seq(SHARDS, i => map[]), seq(SHARDS, i => Unlocked))
  }

  predicate Run(ts: seq<Table>, cap: nat, acts: seq<Action>) {
    && |ts| == |acts| + 1 && ts[0] == EmptyTable()
    && forall k :: 0 <= k < |acts| ==> Enabled(ts[k], acts[k]) && ts[k + 1] == Do(ts[k], cap, acts[k])
  }

  /** Locks whose holder has passed the cap test and not yet incremented the count. */
  function Pending(holds: seq<Hold>): nat {
    if holds == [] then 0
    else Pending(holds[..|holds| - 1]) + if holds[|holds| - 1].Pushing? || holds[|holds| - 1].Counting? then 1 else 0
  }

  function Pushed(holds: seq<Hold>): nat {
    if holds == [] then 0
    else Pushed(holds[..|holds| - 1]) + if holds[|holds| - 1].Counting? then 1 else 0
  }

  function Weight(h: Hold): nat { if h.Pushing? || h.Counting? then 1 else 0 }

  function Mark(h: Hold): nat { if h.Counting? then 1 else 0 }

  lemma {:induction false} PendingSet(holds: seq<Hold>, i: nat, h: Hold)
    requires i < |holds|
    ensures Pending(holds[i := h]) == Pending(holds) - Weight(holds[i]) + Weight(h)
    ensures Pushed(holds[i := h]) == Pushed(holds) - Mark(holds[i]) + Mark(h)
    decreases |holds|
  {
    var n := |holds| - 1;
    if i == n {
      assert holds[i := h][..n] == holds[..n];
    } else {
      assert holds[i := h][..n] == holds[..n][i := h];
      PendingSet(holds[..n], i, h);
    }
  }

  lemma {:induction false} PendingBound(holds: seq<Hold>)
    ensures Pushed(holds) <= Pending(holds) <= |holds|
  {
    if holds != [] {
      PendingBound(holds[..|holds| - 1]);
    }
  }

  /** One lock is not pending, so at most fifteen are. */
  lemma {:induction false} OthersPending(holds: seq<Hold>, i: nat)
    requires i < |holds| && Weight(holds[i]) == 0
    ensures Pending(holds) <= |holds| - 1
  {
    PendingSet(holds, i, Pushing([]));
    PendingBound(holds[i := Pushing([])]);
  }

  predicate HoldOk(b: Buckets, i: nat, h: Hold) {
    && (!h.Unlocked? ==> ShardOf(h.name) == i)
    && (h.Checking? || h.Pushing? ==> h.name !in Bucket(b, HashOf(h.name)))
    && (h.Counting? ==> h.name in Bucket(b, HashOf(h.name)))
  }

  ghost predicate TableOk(t: Table, cap: nat) {
    && |t.shards| == |t.holds| == SHARDS
    && (forall i :: 0 <= i < SHARDS ==> ShardOk(t.shards[i], i) && HoldOk(t.shards[i], i, t.holds[i]))
    && Stored(t.shards) == t.count + Pushed(t.holds)
    && t.count + Pending(t.holds) <= cap + SHARDS - 1
  }

  lemma {:induction false} EnterKeeps(t: Table, cap: nat, name: Name)
    requires TableOk(t, cap) && Enabled(t, Enter(name))
    ensures TableOk(Do(t, cap, Enter(name)), cap)
  {
    hide ShardOf, HashOf, ShardOk, Size, Stored;
    var i, h := ShardOf(name), HashOf(name);
    var b := t.shards[i];
    OpenedOk(b, i, h);
    SizeOpened(b, h);
    StoredSet(t.shards, i, b[h := Bucket(b, h)]);
    var t' := Do(t, cap, Enter(name));
    PendingSet(t.holds, i, t'.holds[i]);
    forall j | 0 <= j < SHARDS
      ensures ShardOk(t'.shards[j], j) && HoldOk(t'.shards[j], j, t'.holds[j])
    {
      assert ShardOk(t.shards[j], j) && HoldOk(t.shards[j], j, t.holds[j]);
    }
  }

  lemma {:induction false} CheckKeeps(t: Table, cap: nat, i: nat)
    requires TableOk(t, cap) && Enabled(t, Check(i))
    ensures TableOk(Do(t, cap, Check(i)), cap)
  {
    hide ShardOf, HashOf, ShardOk, Size, Stored;
    var t' := Do(t, cap, Check(i));
    PendingSet(t.holds, i, t'.holds[i]);
    OthersPending(t.holds, i);
    assert HoldOk(t.shards[i], i, t.holds[i]);
  }

  lemma {:induction false} PushKeeps(t: Table, cap: nat, i: nat)
    requires TableOk(t, cap) && Enabled(t, Push(i))
    ensures TableOk(Do(t, cap, Push(i)), cap)
  {
    hide ShardOf, HashOf, ShardOk, Size, Stored;
    var name := t.holds[i].name;
    var b := t.shards[i];
    assert ShardOk(b, i) && HoldOk(b, i, t.holds[i]);
    AddedOk(b, i, name);
    SizeAdded(b, name);
    StoredSet(t.shards, i, Added(b, name));
    PendingSet(t.holds, i, Counting(name));
  }

  lemma {:induction false} CountKeeps(t: Table, cap: nat, i: nat)
    requires TableOk(t, cap) && Enabled(t, Count(i))
    ensures TableOk(Do(t, cap, Count(i)), cap)
  {
    hide ShardOf, HashOf, ShardOk, Size, Stored;
    PendingSet(t.holds, i, Unlocked);
  }

  lemma {:induction false} StartOk(cap: nat)
    ensures TableOk(EmptyTable(), cap)
  {
    hide ShardOf, HashOf, Size;
    var t := EmptyTable();
    EmptyStored(t.shards);
    NoneHeld(t.holds);
  }

  lemma {:induction false} NoneHeld(holds: seq<Hold>)
    requires forall i :: 0 <= i < |holds| ==> holds[i].Unlocked?
    ensures Pending(holds) == 0 && Pushed(holds) == 0
    decreases |holds|
  {
    if holds != [] {
      NoneHeld(holds[..|holds| - 1]);
    }
  }

  lemma {:induction false} RunKeeps(ts: seq<Table>, cap: nat, acts: seq<Action>, k: nat)
    requires Run(ts, cap, acts) && k < |ts|
    ensures TableOk(ts[k], cap)
    decreases k
  {
    hide TableOk, Do;
    if k == 0 {
      StartOk(cap);
    } else {
      RunKeeps(ts, cap, acts, k - 1);
      match acts[k - 1] {
        case Enter(name) => EnterKeeps(ts[k - 1], cap, name);
        case Check(i) => CheckKeeps(ts[k - 1], cap, i);
        case Push(i) => PushKeeps(ts[k - 1], cap, i);
        case Count(i) => CountKeeps(ts[k - 1], cap, i);
      }
    }
  }

  /** Check and increment are separate steps, yet the table never outgrows the cap by more than fifteen names. */
  lemma {:induction false} NeverFarOverCap(ts: seq<Table>, cap: nat, acts: seq<Action>, t: Table)
    requires Run(ts, cap, acts) && t in ts
    ensures Stored(t.shards) <= cap + 15
  {
    hide Run, Stored, ShardOk, HoldOk;
    var k :| 0 <= k < |ts| && ts[k] == t;
    RunKeeps(ts, cap, acts, k);
    PendingBound(t.holds);
  }

  /** No spelling is stored twice, wherever in the table it is looked for. */
  lemma {:induction false} StoredOnce(ts: seq<Table>, cap: nat, acts: seq<Action>, t: Table, i: nat, h: Hash, m: nat, j: nat, g: Hash, n: nat)
    requires Run(ts, cap, acts) && t in ts && i < |t.shards| && j < |t.shards|
    requires h in t.shards[i] && g in t.shards[j] && m < |t.shards[i][h]| && n < |t.shards[j][g]|
    requires t.shards[i][h][m] == t.shards[j][g][n]
    ensures i == j && h == g && m == n
  {
    hide Run, Stored, HashOf, ShardOf;
    var k :| 0 <= k < |ts| && ts[k] == t;
    RunKeeps(ts, cap, acts, k);
    assert ShardOk(t.shards[i], i) && ShardOk(t.shards[j], j);
  }

  lemma {:induction false} StepKeepsNames(t: Table, cap: nat, a: Action, name: Name)
    requires Enabled(t, a) && Holds(t.shards, name)
    ensures Holds(Do(t, cap, a).shards, name)
  {
    hide HashOf, ShardOf;
  }

  /** Nothing stored is ever changed or dropped, however the run goes on. */
  lemma {:induction false} StoredForGood(ts: seq<Table>, cap: nat, acts: seq<Action>, i: nat, j: nat, name: Name)
    requires Run(ts, cap, acts) && i <= j < |ts| && Holds(ts[i].shards, name)
    ensures Holds(ts[j].shards, name)
    decreases j - i
  {
    hide Holds, Do, Enabled;
    if i < j {
      StoredForGood(ts, cap, acts, i, j - 1, name);
      StepKeepsNames(ts[j - 1], cap, acts[j - 1], name);
    }
  }

  /** A call that no other interrupts, one access at a time: it stores a new name exactly below the cap, and lets go. */
  lemma {:induction false} CallAlone(t: Table, cap: nat, name: Name)
    requires TableOk(t, cap) && Enabled(t, Enter(name))
    ensures var i := ShardOf(name);
            var t1 := Do(t, cap, Enter(name));
            if Holds(t.shards, name) then t1.holds[i].Unlocked? && Holds(t1.shards, name) && t1.count == t.count
            else
              && Enabled(t1, Check(i))
              && var t2 := Do(t1, cap, Check(i));
              if t.count >= cap then t2.holds[i].Unlocked? && !Holds(t2.shards, name) && t2.count == t.count
              else
                && Enabled(t2, Push(i)) && Enabled(Do(t2, cap, Push(i)), Count(i))
                && var t4 := Do(Do(t2, cap, Push(i)), cap, Count(i));
                t4.holds[i].Unlocked? && Holds(t4.shards, name) && t4.count == t.count + 1
  {
    hide HashOf, ShardOf, Stored, ShardOk;
  }

  /** A name's shard is the low four bits of its hash. */
  lemma {:induction false} ShardIs(name: Name)
    ensures FoldHash(name) == ((FoldHash(name) >> 4) << 4) | (ShardOf(name) as bv64)
  {
    hide FoldHash;
    var h := FoldHash(name);
    LowBits(h);
    assert ShardOf(name) == ((h & 15) as bv4) as nat;
    hide ShardOf;
  }

  lemma {:induction false} LowBits(h: bv64)
    ensures h == ((h >> 4) << 4) | ((((h & 15) as bv4) as nat) as bv64)
  {
  }
}
