/** The shared hierarchical store, reduced to what the protocol uses: values
    written at paths, atomic multi-path updates (a null value deletes), removal,
    a presence test and the push-key generator. A value written at a path and
    values written below it together make up the value read at that path, so
    the value read at `p` is null exactly when nothing is stored at or below `p`.
    A stored value is kept whole and never split into its fields: this holds
    only while no object is stored above `p`, which is the case for every write
    the protocol makes (leaves under `clients/{id}`, whole tasks and envelopes
    with nothing written below them). */
module Db {
  import opened Values
  import opened Paths

  const CONFIG_ERROR: string := "expected `config.ref` to be a firebase reference."

  /** A path below the store's root, one key per piece. */
  type Path = seq<string>

  /** The push key generated from the generator's counter `n`; the store's real
      keys are time-ordered random strings, modelled here as distinct decimal
      strings behind a '-'. */
  function PushId(n: nat): (k: string)
    ensures IsKey(k)
  {
    "-" + NatToStr(n)
  }

  /** Whether writing `v` stores nothing: the store treats null and the empty
      object alike as "no data" and deletes what was there. */
  predicate Deletes(v: Value) {
    v == Null || v == EmptyObj
  }

  /** Whether the value read at `p` is non-null: something is stored at or below it. */
  predicate PresentIn(nodes: map<Path, Value>, p: Path) {
    exists q :: q in nodes && p <= q
  }

  /** Whether a write at some path of `updates` replaces what is stored at `q`. */
  predicate Covered(updates: map<Path, Value>, q: Path) {
    exists p :: p in updates && p <= q
  }

  /** `ref.update(updates)`: one atomic write that replaces the whole subtree at
      every path given, storing the new value unless it is null or empty. What it leaves:
      every value that is not a deletion written at its path, every node outside the updated
      subtrees unchanged, and nothing else. */
  function ApplyUpdates(nodes: map<Path, Value>, updates: map<Path, Value>): (r: map<Path, Value>)
    ensures forall p :: p in updates && !Deletes(updates[p]) ==> p in r && r[p] == updates[p]
    ensures forall q :: q in nodes && !Covered(updates, q) ==> q in r && r[q] == nodes[q]
    ensures forall q :: q in r ==> (q in updates && !Deletes(updates[q])) || (q in nodes && !Covered(updates, q))
  {
    var kept := map q | q in nodes && !Covered(updates, q) :: nodes[q];
    var written := map p | p in updates && !Deletes(updates[p]) :: updates[p];
    kept + written
  }

  /** The store never holds a null or an empty object: writing one deletes. */
  predicate NoEmptyNodes(nodes: map<Path, Value>) {
    forall q :: q in nodes ==> !Deletes(nodes[q])
  }

  lemma UpdatesKeepNoEmptyNodes(nodes: map<Path, Value>, updates: map<Path, Value>)
    requires NoEmptyNodes(nodes)
    ensures NoEmptyNodes(ApplyUpdates(nodes, updates))
  {
  }

  /** How the store settles the promise of a write: fulfilled, or rejected with an error. */
  datatype WriteOutcome = Written | WriteFailed(err: Value)

  /** The configuration object handed to a client or a server: `ref` is the
      root reference (null when missing), `queue` the queue options. */
  datatype Config = Config(ref: Store?, queue: Value)

  /** The database below one root reference, shared by clients and servers. */
  class Store {
    /** The URL the root reference prints as. */
    const url: string
    var nodes: map<Path, Value>
    /** State of the push-key generator. */
    var nextId: nat

    ghost predicate Valid()
      reads this
    {
      NoEmptyNodes(nodes)
    }

    constructor (url: string)
      ensures this.url == url && nodes == map[] && nextId == 0
      ensures Valid()
    {
      this.url := url;
      nodes := map[];
      nextId := 0;
    }

    /** Whether the value read at `p` is non-null. */
    predicate Present(p: Path)
      reads this
    {
      PresentIn(nodes, p)
    }

    /** `ref.push()` without a value: a new key, nothing written yet. */
    method Push() returns (k: string)
      modifies this`nextId
      ensures k == PushId(old(nextId)) && nextId == old(nextId) + 1
    {
      k := PushId(nextId);
      nextId := nextId + 1;
    }

    /** A successful `ref.update(updates)`. */
    method Update(updates: map<Path, Value>)
      requires Valid()
      modifies this`nodes
      ensures Valid()
      ensures nodes == ApplyUpdates(old(nodes), updates)
    {
      UpdatesKeepNoEmptyNodes(nodes, updates);
      nodes := ApplyUpdates(nodes, updates);
    }

    /** `ref.remove()`: nothing is left at or below `p`. */
    method Remove(p: Path)
      requires Valid()
      modifies this`nodes
      ensures Valid()
      ensures nodes == ApplyUpdates(old(nodes), map[p := Null])
      ensures !Present(p)
    {
      Update(map[p := Null]);
      RemovedAbsent(old(nodes), p);
    }
  }

  /** After a null is written at `p`, the value read at `p` is null. */
  lemma RemovedAbsent(nodes: map<Path, Value>, p: Path)
    ensures !PresentIn(ApplyUpdates(nodes, map[p := Null]), p)
  {
    var u := map[p := Null];
    var r := ApplyUpdates(nodes, u);
    forall q | q in r
      ensures !(p <= q)
    {
      if p <= q {
        assert p in u && Covered(u, q);
      }
    }
  }

  /** After an update that only deletes, nothing is left at or below any of its paths. */
  lemma DeletionsAbsent(nodes: map<Path, Value>, updates: map<Path, Value>)
    requires forall p :: p in updates ==> Deletes(updates[p])
    ensures forall p :: p in updates ==> !PresentIn(ApplyUpdates(nodes, updates), p)
  {
    var r := ApplyUpdates(nodes, updates);
    forall p, q | p in updates && q in r
      ensures !(p <= q)
    {
      if p <= q {
        assert Covered(updates, q);
      }
    }
  }

  /** Distinct generator states give distinct push keys. */
  lemma PushIdInjective(m: nat, n: nat)
    requires m != n
    ensures PushId(m) != PushId(n)
  {
    if PushId(m) == PushId(n) {
      assert NatToStr(m) == PushId(m)[1..] == PushId(n)[1..] == NatToStr(n);
      NatToStrInjective(m, n);
    }
  }

  lemma {:induction false} NatToStrInjective(m: nat, n: nat)
    requires NatToStr(m) == NatToStr(n)
    ensures m == n
    decreases m + n
  {
    var s := NatToStr(m);
    if m < 10 && n < 10 {
      assert s == [Digit(m)] && s == [Digit(n)];
    } else if m >= 10 && n >= 10 {
      var a, b := NatToStr(m / 10), NatToStr(n / 10);
      assert s == a + [Digit(m % 10)] && s == b + [Digit(n % 10)];
      assert |a| == |b|;
      assert a == s[..|s| - 1] == b;
      assert Digit(m % 10) == s[|s| - 1] == Digit(n % 10);
      NatToStrInjective(m / 10, n / 10);
    }
  }
}
