/**
 The audited recovery: derive every address again, check the mapping against the operator's checksum,
 and rebuild the registry of an empty (or half rebuilt) database up to the ledger's marks.
 */
module Recovery {
  import opened Common
  import opened Text
  import opened Ledger
  import opened Addresses

  const BATCH_SIZE: nat := 10000

  type Deriver = nat -> Option<string>

  type BatchDeriver = (nat, nat) -> Option<seq<string>>

  /** The conversion to a 32-bit index. */
  function AsUint32(x: nat): nat { x % INDEX_SPACE }

  function ValidateDerived(raw: string, prefix: string): Option<string> {
    var address := Trim(raw);
    if address == "" || prefix == "" || !HasPrefix(address, prefix) then None else Some(address)
  }

  /** The first n derived addresses, if all of them are valid and no two are equal. */
  function Derived(derive: Deriver, prefix: string, n: nat): (r: Option<seq<string>>)
    ensures r.Some? ==> |r.value| == n
  {
    if n == 0 then Some([])
    else
      var before := Derived(derive, prefix, n - 1);
      if before.None? || derive(n - 1).None? then None
      else
        var address := ValidateDerived(derive(n - 1).value, prefix);
        if address.None? || address.value in before.value then None else Some(before.value + [address.value])
  }

  lemma {:induction false} DerivedPrefix(derive: Deriver, prefix: string, k: nat, n: nat)
    requires k <= n && Derived(derive, prefix, n).Some?
    ensures Derived(derive, prefix, k).Some?
            && Derived(derive, prefix, k).value == Derived(derive, prefix, n).value[..k]
  {
    if k < n { DerivedPrefix(derive, prefix, k, n - 1); }
  }

  /** A good derivation yields trimmed, non-empty, pairwise different addresses. */
  predicate GoodAddresses(list: seq<string>) {
    && (forall i :: 0 <= i < |list| ==> list[i] != "" && Trim(list[i]) == list[i])
    && (forall i, j :: 0 <= i < j < |list| ==> list[i] != list[j])
  }

  lemma {:induction false} DerivedIsGood(derive: Deriver, prefix: string, n: nat)
    requires Derived(derive, prefix, n).Some?
    ensures GoodAddresses(Derived(derive, prefix, n).value)
  {
    if n > 0 {
      DerivedIsGood(derive, prefix, n - 1);
      TrimTrims(derive(n - 1).value);
    }
  }

  predicate UsableAnswer(derive: Deriver, prefix: string, k: nat) {
    derive(k).Some? && prefix != "" && Trim(derive(k).value) != "" && prefix <= Trim(derive(k).value)
  }

  predicate SameAnswer(derive: Deriver, j: nat, k: nat) {
    derive(j).Some? && derive(k).Some? && Trim(derive(j).value) == Trim(derive(k).value)
  }

  /** A derivation is accepted if and only if every call yields an address with the network's prefix and no two
      of them are the same once trimmed; it is then the list of the trimmed answers. */
  lemma {:induction false} DerivedExactlyWhen(derive: Deriver, prefix: string, n: nat)
    ensures Derived(derive, prefix, n).Some? <==>
              && (forall k | 0 <= k < n :: UsableAnswer(derive, prefix, k))
              && (forall j, k | 0 <= j < k < n :: !SameAnswer(derive, j, k))
    ensures var r := Derived(derive, prefix, n);
            r.Some? ==> forall k | 0 <= k < n :: derive(k).Some? && r.value[k] == Trim(derive(k).value)
  {
    if n > 0 {
      DerivedExactlyWhen(derive, prefix, n - 1);
      var before := Derived(derive, prefix, n - 1);
      if before.Some? && UsableAnswer(derive, prefix, n - 1) {
        assert forall j | 0 <= j < n - 1 :: SameAnswer(derive, j, n - 1) <==>
                 before.value[j] == Trim(derive(n - 1).value);
      }
    }
  }

  lemma DerivationFails(derive: Deriver, prefix: string, k: nat, n: nat)
    requires k <= n && Derived(derive, prefix, k).None?
    ensures Derived(derive, prefix, n).None?
  {
    if Derived(derive, prefix, n).Some? { DerivedPrefix(derive, prefix, k, n); }
  }

  predicate Answers(derive: Deriver, start: nat, list: seq<string>) {
    forall i | 0 <= i < |list| :: derive(start + i) == Some(list[i])
  }

  function Batch(derive: Deriver, start: nat, count: nat): (r: Option<seq<string>>)
    ensures r.Some? ==> |r.value| == count && Answers(derive, start, r.value)
  {
    if count == 0 then Some([])
    else
      var before := Batch(derive, start, count - 1);
      if before.None? || derive(start + count - 1).None? then None
      else Some(before.value + [derive(start + count - 1).value])
  }

  /** A deriver that answers a batch exactly as it answers the single calls. */
  ghost predicate Agrees(batch: BatchDeriver, derive: Deriver) {
    forall start: nat, count: nat | start + count <= INDEX_SPACE :: batch(start, count) == Batch(derive, start, count)
  }

  /** A batch fails only where a single call fails. */
  lemma {:induction false} BatchFails(derive: Deriver, prefix: string, start: nat, count: nat)
    requires Batch(derive, start, count).None?
    ensures Derived(derive, prefix, start + count).None?
  {
    if Batch(derive, start, count - 1).None? { BatchFails(derive, prefix, start, count - 1); }
  }

  lemma DerivationFailsIf(derive: Deriver, prefix: string, k: nat, n: nat)
    requires k <= n
    ensures Derived(derive, prefix, k).None? ==> Derived(derive, prefix, n).None?
  {
    if Derived(derive, prefix, k).None? { DerivationFails(derive, prefix, k, n); }
  }

  /** What a walk up to the target reports: it accepts exactly the good derivations, and what it visited
      is the derivation so far. */
  predicate Walked(derive: Deriver, prefix: string, target: nat, visited: seq<string>, ok: bool) {
    && (ok <==> Derived(derive, prefix, target).Some?)
    && |visited| <= target && Derived(derive, prefix, |visited|) == Some(visited)
  }

  lemma DerivedStep(derive: Deriver, prefix: string, n: nat, visited: seq<string>)
    requires Derived(derive, prefix, n) == Some(visited) && derive(n).Some?
    ensures var address := ValidateDerived(derive(n).value, prefix);
            Derived(derive, prefix, n + 1) == if address.None? || address.value in visited then None
                else Some(visited + [address.value])
  {
  }

  method WalkOneByOne(derive: Deriver, prefix: string, target: nat) returns (visited: seq<string>, ok: bool)
    requires target <= INDEX_SPACE
    ensures Walked(derive, prefix, target, visited, ok)
    ensures ok ==> |visited| == target
  {
    visited, ok := [], false;
    var index := 0;
    while index < target
      invariant index <= target && |visited| == index
      invariant Derived(derive, prefix, index) == Some(visited)
    {
      assert AsUint32(index) == index;
      DerivationFailsIf(derive, prefix, index + 1, target);
      var raw := derive(AsUint32(index));
      if raw.None? { return; }
      DerivedStep(derive, prefix, index, visited);
      var address := ValidateDerived(raw.value, prefix);
      if address.None? || address.value in visited { return; }
      visited := visited + [address.value];
      index := index + 1;
    }
    ok := true;
  }

  /** Adds a batch to what was visited, up to the first address that is bad or was seen before. */
  function Extend(prefix: string, visited: seq<string>, batch: seq<string>): (r: (seq<string>, bool))
    ensures r.1 ==> |r.0| == |visited| + |batch|
    decreases |batch|
  {
    if batch == [] then (visited, true)
    else
      var address := ValidateDerived(batch[0], prefix);
      if address.None? || address.value in visited then (visited, false)
      else Extend(prefix, visited + [address.value], batch[1..])
  }

  lemma StopsWalk(derive: Deriver, prefix: string, start: nat, n: nat, visited: seq<string>)
    requires Derived(derive, prefix, start) == Some(visited) && start < n && Derived(derive, prefix, start + 1).None?
    ensures Walked(derive, prefix, n, visited, false)
  {
    DerivationFails(derive, prefix, start + 1, n);
    assert |visited| == start;
  }

  /** A batch that holds the answers of the single calls is walked like them. */
  lemma {:induction false} ExtendWalks(derive: Deriver, prefix: string, start: nat, batch: seq<string>,
                                       visited: seq<string>, n: nat)
    requires Derived(derive, prefix, start) == Some(visited) && Answers(derive, start, batch) && n == start + |batch|
    ensures Walked(derive, prefix, n, Extend(prefix, visited, batch).0, Extend(prefix, visited, batch).1)
    decreases |batch|
  {
    if batch == [] {
      assert |visited| == start == n;
    } else {
      assert derive(start + 0) == Some(batch[0]);
      DerivedStep(derive, prefix, start, visited);
      var address := ValidateDerived(batch[0], prefix);
      if address.None? || address.value in visited {
        StopsWalk(derive, prefix, start, n, visited);
      } else {
        AnswersRest(derive, start, batch);
        ExtendWalks(derive, prefix, start + 1, batch[1..], visited + [address.value], n);
      }
    }
  }

  lemma AnswersRest(derive: Deriver, start: nat, batch: seq<string>)
    requires batch != [] && Answers(derive, start, batch)
    ensures Answers(derive, start + 1, batch[1..])
  {
    forall i | 0 <= i < |batch[1..]|
      ensures derive(start + 1 + i) == Some(batch[1..][i])
    {
      assert derive(start + (i + 1)) == Some(batch[i + 1]);
    }
  }

  method VisitBatch(prefix: string, addresses: seq<string>, before: seq<string>)
    returns (visited: seq<string>, ok: bool)
    ensures (visited, ok) == Extend(prefix, before, addresses)
  {
    visited, ok := before, false;
    var offset := 0;
    while offset < |addresses|
      invariant offset <= |addresses|
      invariant Extend(prefix, visited, addresses[offset..]) == Extend(prefix, before, addresses)
    {
      assert addresses[offset..][1..] == addresses[offset + 1..];
      var address := ValidateDerived(addresses[offset], prefix);
      if address.None? || address.value in visited { return; }
      visited := visited + [address.value];
      offset := offset + 1;
    }
    ok := true;
  }

  method CallBatch(ghost derive: Deriver, batch: BatchDeriver, ghost prefix: string, start: nat, count: nat,
                   ghost target: nat, ghost honest: bool)
    returns (r: Option<seq<string>>)
    requires start < INDEX_SPACE && count <= BATCH_SIZE && start + count <= target <= INDEX_SPACE
    requires honest ==> Agrees(batch, derive)
    ensures honest && r.Some? ==> |r.value| == count && Answers(derive, start, r.value)
    ensures honest && r.None? ==> Derived(derive, prefix, target).None?
    ensures Derived(derive, prefix, start + count).None? ==> Derived(derive, prefix, target).None?
  {
    assert AsUint32(start) == start && AsUint32(count) == count;
    r := batch(AsUint32(start), AsUint32(count));
    DerivationFailsIf(derive, prefix, start + count, target);
    if honest && r.None? { BatchFails(derive, prefix, start, count); }
  }

  /** One call and its batch; a batch that is not walked whole means that the whole derivation fails. */
  method WalkBatch(ghost derive: Deriver, batch: BatchDeriver, prefix: string, start: nat, count: nat,
                   ghost target: nat,
                   before: seq<string>, ghost honest: bool)
    returns (visited: seq<string>, good: bool)
    requires |before| == start < INDEX_SPACE && count <= BATCH_SIZE && start + count <= target <= INDEX_SPACE
    requires honest ==> Agrees(batch, derive) && Derived(derive, prefix, start) == Some(before)
    ensures good ==> |visited| == start + count
    ensures honest ==> |visited| <= target && Derived(derive, prefix, |visited|) == Some(visited)
    ensures honest && !good ==> Derived(derive, prefix, target).None?
  {
    visited, good := before, false;
    var addresses := CallBatch(derive, batch, prefix, start, count, target, honest);
    if addresses.None? { return; }
    if |addresses.value| != count { return; }
    if honest { ExtendWalks(derive, prefix, start, addresses.value, before, start + count); }
    visited, good := VisitBatch(prefix, addresses.value, before);
  }

  method WalkInBatches(derive: Deriver, batch: BatchDeriver, prefix: string, target: nat)
    returns (visited: seq<string>, ok: bool)
    requires target <= INDEX_SPACE
    ensures Agrees(batch, derive) ==> Walked(derive, prefix, target, visited, ok)
    ensures ok ==> |visited| == target
  {
    ghost var honest := Agrees(batch, derive);
    visited, ok := [], false;
    var start := 0;
    while start < target
      invariant start <= target && |visited| == start
      invariant honest ==> Derived(derive, prefix, start) == Some(visited)
    {
      var count := Min(target - start, BATCH_SIZE);
      var good;
      visited, good := WalkBatch(derive, batch, prefix, start, count, target, visited, honest);
      if !good { return; }
      start := start + count;
    }
    ok := true;
  }

  /** Derives every address below the target, in batches when the deriver can, rejects invalid and
      repeated ones, and reports the visited addresses in order. Both modes accept the same derivations,
      and no index wraps around 32 bits. */
  method ForEachDerivedAddress(derive: Deriver, batch: Option<BatchDeriver>, prefix: string, target: nat)
    returns (visited: seq<string>, ok: bool)
    requires target <= INDEX_SPACE
    ensures batch.None? || Agrees(batch.value, derive) ==> Walked(derive, prefix, target, visited, ok)
    ensures ok ==> |visited| == target
  {
    if batch.Some? {
      visited, ok := WalkInBatches(derive, batch.value, prefix, target);
    } else {
      visited, ok := WalkOneByOne(derive, prefix, target);
    }
  }
}
