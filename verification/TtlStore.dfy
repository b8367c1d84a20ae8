/**
 * The bounded store with expiring entries that two services keep
 * (src/modules/command-center-enterprise/command-center-enterprise.service.ts,
 * src/modules/audit-intelligence-enterprise/audit-intelligence-enterprise.service.ts).
 * Entries are in insertion order; times are in milliseconds.
 */
module TtlStore {
  import opened Wrappers

  const TTL_MS := 30_000
  const FULL := 100

  datatype Entry<P> = Entry(key: string, expiresAt: int, payload: P)

  predicate HasKey<P>(es: seq<Entry<P>>, key: string) {
    exists i :: 0 <= i < |es| && es[i].key == key
  }

  ghost predicate DistinctKeys<P>(es: seq<Entry<P>>) {
    forall i, j :: 0 <= i < j < |es| ==> es[i].key != es[j].key
  }

  /** Where the store holds a key; its size if it does not. */
  function IndexOf<P>(es: seq<Entry<P>>, key: string): (k: nat)
    ensures k <= |es|
    ensures k < |es| ==> es[k].key == key
    ensures k < |es| <==> HasKey(es, key)
    decreases |es|
  {
    if es == [] then 0
    else if es[0].key == key then 0
    else
      var k := IndexOf(es[1..], key);
      assert HasKey(es, key) ==> HasKey(es[1..], key) by {
        if i :| 0 <= i < |es| && es[i].key == key { assert es[1..][i - 1].key == key; }
      }
      k + 1
  }

  function Removed<P>(es: seq<Entry<P>>, key: string): seq<Entry<P>> {
    var k := IndexOf(es, key);
    if k < |es| then es[..k] + es[k + 1..] else es
  }

  /** A Map's `set`: an entry keeps its place, a new one goes last. */
  function Put<P>(es: seq<Entry<P>>, e: Entry<P>): seq<Entry<P>> {
    var k := IndexOf(es, e.key);
    if k < |es| then es[k := e] else es + [e]
  }

  /** A full store gives up its oldest entry, unless that entry's key is the empty text. */
  function Evicted<P>(es: seq<Entry<P>>): seq<Entry<P>> {
    if |es| > FULL && es[0].key != "" then es[1..] else es
  }

  function SetEntry<P>(es: seq<Entry<P>>, key: string, payload: P, now: int): seq<Entry<P>> {
    Put(Evicted(es), Entry(key, now + TTL_MS, payload))
  }

  /** An expired entry is removed and counts as a miss. */
  function GetEntry<P>(es: seq<Entry<P>>, key: string, now: int): (seq<Entry<P>>, Option<P>) {
    var k := IndexOf(es, key);
    if k == |es| then (es, None)
    else if es[k].expiresAt <= now then (Removed(es, key), None)
    else (es, Some(es[k].payload))
  }

  lemma HitKeepsStore<P>(es: seq<Entry<P>>, key: string, now: int)
    ensures GetEntry(es, key, now).1.Some? ==> GetEntry(es, key, now).0 == es
  {
  }

  // Runs.

  datatype Op<P> = Get(key: string) | Set(key: string, payload: P)

  datatype Timed<P> = Timed(op: Op<P>, now: int)

  function Step<P>(es: seq<Entry<P>>, t: Timed<P>): seq<Entry<P>> {
    match t.op
    case Get(key) => GetEntry(es, key, t.now).0
    case Set(key, payload) => SetEntry(es, key, payload, t.now)
  }

  function Run<P>(ops: seq<Timed<P>>): seq<Entry<P>> {
    if ops == [] then [] else Step(Run(ops[..|ops| - 1]), ops[|ops| - 1])
  }

  /** The entry that the last write of a key made. */
  function LastSet<P>(ops: seq<Timed<P>>, key: string): Option<Entry<P>> {
    if ops == [] then None
    else
      var t := ops[|ops| - 1];
      if t.op.Set? && t.op.key == key then Some(Entry(key, t.now + TTL_MS, t.op.payload))
      else LastSet(ops[..|ops| - 1], key)
  }

  ghost predicate AllLastSet<P>(es: seq<Entry<P>>, ops: seq<Timed<P>>) {
    forall i :: 0 <= i < |es| ==> LastSet(ops, es[i].key) == Some(es[i])
  }

  /** Keys stay distinct, and every entry is the last one written under its key. */
  lemma {:induction false} RunHoldsLastSets<P>(ops: seq<Timed<P>>)
    ensures DistinctKeys(Run(ops)) && AllLastSet(Run(ops), ops)
  {
    if ops != [] {
      var init, t := ops[..|ops| - 1], ops[|ops| - 1];
      RunHoldsLastSets(init);
      match t.op {
        case Get(key) => StepGet(Run(init), ops);
        case Set(key, payload) => StepSet(Run(init), ops);
      }
    }
  }

  lemma {:induction false} StepGet<P>(es: seq<Entry<P>>, ops: seq<Timed<P>>)
    requires ops != [] && ops[|ops| - 1].op.Get? && DistinctKeys(es) && AllLastSet(es, ops[..|ops| - 1])
    ensures DistinctKeys(Step(es, ops[|ops| - 1])) && AllLastSet(Step(es, ops[|ops| - 1]), ops)
  {
    var t := ops[|ops| - 1];
    var es' := Step(es, t);
    forall i | 0 <= i < |es'| ensures LastSet(ops, es'[i].key) == Some(es'[i]) {
      assert es'[i] in es;
    }
  }

  lemma {:induction false} EvictedKeeps<P>(es: seq<Entry<P>>, ops: seq<Timed<P>>)
    requires DistinctKeys(es) && AllLastSet(es, ops)
    ensures DistinctKeys(Evicted(es)) && AllLastSet(Evicted(es), ops)
  {
    hide LastSet;
  }

  lemma LastSetStep<P>(ops: seq<Timed<P>>, key: string)
    requires ops != [] && ops[|ops| - 1].op.Set?
    ensures var t := ops[|ops| - 1];
      LastSet(ops, key) ==
        if t.op.key == key then Some(Entry(key, t.now + TTL_MS, t.op.payload)) else LastSet(ops[..|ops| - 1], key)
  {
  }

  lemma {:induction false} StepSet<P>(es: seq<Entry<P>>, ops: seq<Timed<P>>)
    requires ops != [] && ops[|ops| - 1].op.Set? && DistinctKeys(es) && AllLastSet(es, ops[..|ops| - 1])
    ensures DistinctKeys(Step(es, ops[|ops| - 1])) && AllLastSet(Step(es, ops[|ops| - 1]), ops)
  {
    hide Evicted, Put, LastSet;
    var t := ops[|ops| - 1];
    var kept, e := Evicted(es), Entry(t.op.key, t.now + TTL_MS, t.op.payload);
    EvictedKeeps(es, ops[..|ops| - 1]);
    PutDistinct(kept, e);
    var es' := Put(kept, e);
    forall i | 0 <= i < |es'| ensures LastSet(ops, es'[i].key) == Some(es'[i]) {
      PutMember(kept, e, i);
      LastSetStep(ops, es'[i].key);
    }
  }

  lemma PutDistinct<P>(es: seq<Entry<P>>, e: Entry<P>)
    requires DistinctKeys(es)
    ensures DistinctKeys(Put(es, e))
  {
  }

  lemma PutMember<P>(es: seq<Entry<P>>, e: Entry<P>, i: nat)
    requires DistinctKeys(es) && i < |Put(es, e)|
    ensures Put(es, e)[i] == e || (i < |es| && Put(es, e)[i] == es[i] && es[i].key != e.key)
  {
  }

  /** A hit returns the payload last set for the key, less than one time to live after that. */
  lemma {:induction false} HitIsLastSet<P>(ops: seq<Timed<P>>, key: string, now: int)
    requires GetEntry(Run(ops), key, now).1.Some?
    ensures var last := LastSet(ops, key);
      last.Some? && GetEntry(Run(ops), key, now).1 == Some(last.value.payload) && now < last.value.expiresAt
  {
    RunHoldsLastSets(ops);
  }

  ghost predicate NoEmptyKey<P>(es: seq<Entry<P>>) {
    forall i :: 0 <= i < |es| ==> es[i].key != ""
  }

  lemma SetIsBounded<P>(es: seq<Entry<P>>, key: string, payload: P, now: int)
    requires |es| <= FULL + 1 && NoEmptyKey(es) && key != ""
    ensures |SetEntry(es, key, payload, now)| <= FULL + 1 && NoEmptyKey(SetEntry(es, key, payload, now))
  {
  }

  lemma GetIsBounded<P>(es: seq<Entry<P>>, key: string, now: int)
    requires NoEmptyKey(es)
    ensures |GetEntry(es, key, now).0| <= |es| && NoEmptyKey(GetEntry(es, key, now).0)
  {
  }

  /** What every access under a non-empty key keeps. */
  ghost predicate Sound<P>(es: seq<Entry<P>>) {
    |es| <= 101 && NoEmptyKey(es) && DistinctKeys(es)
  }

  lemma {:induction false} GetKeepsSound<P>(es: seq<Entry<P>>, key: string, now: int)
    requires Sound(es)
    ensures Sound(GetEntry(es, key, now).0)
  {
    GetIsBounded(es, key, now);
  }

  lemma {:induction false} SetKeepsSound<P>(es: seq<Entry<P>>, key: string, payload: P, now: int)
    requires Sound(es) && key != ""
    ensures Sound(SetEntry(es, key, payload, now))
  {
    SetIsBounded(es, key, payload, now);
    PutDistinct(Evicted(es), Entry(key, now + TTL_MS, payload));
  }

  /** Without empty keys a store never exceeds 101 entries. */
  lemma {:induction false} RunIsBounded<P>(ops: seq<Timed<P>>)
    requires forall i :: 0 <= i < |ops| ==> ops[i].op.key != ""
    ensures |Run(ops)| <= 101 && NoEmptyKey(Run(ops))
  {
    hide GetEntry, SetEntry;
    if ops != [] {
      var init, t := ops[..|ops| - 1], ops[|ops| - 1];
      RunIsBounded(init);
      match t.op {
        case Get(key) => GetIsBounded(Run(init), key, t.now);
        case Set(key, payload) => SetIsBounded(Run(init), key, payload, t.now);
      }
    }
  }

  /** The bound breaks exactly when an entry under the empty key is the oldest of a full store. */
  lemma SetIsBoundedIff<P>(es: seq<Entry<P>>, key: string, payload: P, now: int)
    requires |es| <= 101
    ensures |SetEntry(es, key, payload, now)| <= 101
       <==> !(|es| == 101 && es[0].key == "" && !HasKey(es, key))
  {
  }

  /** The keys of a store, oldest first. */
  function Keys<P>(es: seq<Entry<P>>): (ks: seq<string>)
    ensures |ks| == |es| && forall i :: 0 <= i < |es| ==> ks[i] == es[i].key
  {
    seq(|es|, i requires 0 <= i < |es| => es[i].key)
  }

  /** Eviction is in insertion order: writing a new key drops at most the oldest one, and the rest keep their order. */
  lemma {:induction false} EvictionOrder<P>(es: seq<Entry<P>>, key: string, payload: P, now: int)
    requires !HasKey(es, key)
    ensures Keys(SetEntry(es, key, payload, now))
         == (if |es| > 100 && es[0].key != "" then Keys(es)[1..] else Keys(es)) + [key]
  {
    var kept := Evicted(es);
    assert forall i :: 0 <= i < |kept| ==> kept[i] in es;
  }

  class Store<P> {
    var entries: seq<Entry<P>>

    constructor ()
      ensures entries == []
    {
      entries := [];
    }

    method Get(key: string, now: int) returns (payload: Option<P>)
      modifies this
      ensures (entries, payload) == GetEntry(old(entries), key, now)
    {
      var k := IndexOf(entries, key);
      if k == |entries| { return None; }
      if entries[k].expiresAt <= now {
        entries := Removed(entries, key);
        return None;
      }
      payload := Some(entries[k].payload);
    }

    method Set(key: string, payload: P, now: int)
      modifies this
      ensures entries == SetEntry(old(entries), key, payload, now)
    {
      if |entries| > FULL {
        var firstKey := entries[0].key;
        if firstKey != "" { entries := entries[1..]; }
      }
      entries := Put(entries, Entry(key, now + TTL_MS, payload));
    }
  }
}
