/**
 The external address ledger: one high-water mark and one list of skipped indices per wallet, kept in
 a manifest that every operation reads, checks and rewrites under a lock. Also the startup check that
 compares the ledger with the address rows of the database.
 */
module Ledger {
  import opened Common

  /** One past the largest 32-bit index. */
  const INDEX_SPACE: nat := 0x1_0000_0000

  datatype WalletState = WalletState(next: nat, skipped: seq<nat>)

  type Manifest = map<Token, WalletState>

  predicate Increasing(s: seq<nat>) {
    forall i, j :: 0 <= i < j < |s| ==> s[i] < s[j]
  }

  predicate GoodWallet(w: WalletState) {
    w.next <= INDEX_SPACE && Increasing(w.skipped) && forall i :: 0 <= i < |w.skipped| ==> w.skipped[i] < w.next
  }

  predicate GoodManifest(m: Manifest) {
    forall id | id in m :: GoodWallet(m[id])
  }

  /** The two lists together name exactly the indices below `next`. */
  ghost predicate Covers(next: nat, skipped: seq<nat>, present: seq<nat>) {
    forall x: int :: (x in skipped || x in present) <==> 0 <= x < next
  }

  /** The order check of one wallet compares neighbours only. */
  method VerifyWallet(w: WalletState) returns (ok: bool)
    ensures ok <==> GoodWallet(w)
  {
    if w.next > INDEX_SPACE { return false; }
    var i := 0;
    while i < |w.skipped|
      invariant 0 <= i <= |w.skipped|
      invariant Increasing(w.skipped[..i])
      invariant forall j :: 0 <= j < i ==> w.skipped[j] < w.next
    {
      if w.skipped[i] >= w.next { return false; }
      if i > 0 && w.skipped[i - 1] >= w.skipped[i] { return false; }
      assert w.skipped[..i + 1] == w.skipped[..i] + [w.skipped[i]];
      i := i + 1;
    }
    assert w.skipped[..i] == w.skipped;
    return true;
  }

  method VerifyManifest(m: Manifest) returns (ok: bool)
    ensures ok <==> GoodManifest(m)
  {
    var rest := m.Keys;
    while rest != {}
      invariant rest <= m.Keys
      invariant forall id | id in m && id !in rest :: GoodWallet(m[id])
      decreases rest
    {
      var id :| id in rest;
      var good := VerifyWallet(m[id]);
      if !good { return false; }
      rest := rest - {id};
    }
    return true;
  }

  /** The first position whose entry is not below the index. */
  method Search(s: seq<nat>, index: nat) returns (position: nat)
    requires Increasing(s)
    ensures position <= |s|
    ensures forall i :: 0 <= i < position ==> s[i] < index
    ensures forall i :: position <= i < |s| ==> s[i] >= index
  {
    var lo, hi := 0, |s|;
    while lo < hi
      invariant 0 <= lo <= hi <= |s|
      invariant forall i :: 0 <= i < lo ==> s[i] < index
      invariant forall i :: hi <= i < |s| ==> s[i] >= index
    {
      var mid := (lo + hi) / 2;
      if s[mid] >= index { hi := mid; } else { lo := mid + 1; }
    }
    return lo;
  }

  /** Merges the two lists and demands the running count at every step. */
  method VerifyAddressCoverage(next: nat, skipped: seq<nat>, present: seq<nat>) returns (ok: bool)
    ensures ok ==> Covers(next, skipped, present)
    ensures Increasing(skipped) && Increasing(present) && Covers(next, skipped, present) ==> ok
  {
    var covered, i, j := 0, 0, 0;
    while i < |present| || j < |skipped|
      invariant 0 <= i <= |present| && 0 <= j <= |skipped|
      invariant forall x: int :: (x in present[..i] || x in skipped[..j]) <==> 0 <= x < covered
      invariant Increasing(present) && Increasing(skipped) ==>
                (i < |present| ==> present[i] >= covered) && (j < |skipped| ==> skipped[j] >= covered)
      decreases |present| + |skipped| - i - j
    {
      assert i < |present| ==> present[..i + 1] == present[..i] + [present[i]];
      assert j < |skipped| ==> skipped[..j + 1] == skipped[..j] + [skipped[j]];
      var index;
      ghost var i0, j0 := i, j;
      if i >= |present| {
        index := skipped[j];
        j := j + 1;
      } else if j >= |skipped| {
        index := present[i];
        i := i + 1;
      } else if present[i] < skipped[j] {
        index := present[i];
        i := i + 1;
      } else if skipped[j] < present[i] {
        index := skipped[j];
        j := j + 1;
      } else {
        index := present[i];
        i := i + 1;
        j := j + 1;
      }
      if index != covered {
        if Increasing(present) && Increasing(skipped) {
          Uncovered(next, skipped, present, covered, i0, j0);
        }
        return false;
      }
      covered := covered + 1;
    }
    assert present[..i] == present && skipped[..j] == skipped;
    if covered != next {
      assert covered in skipped || covered in present <==> false;
      assert covered > 0 ==> covered - 1 in skipped || covered - 1 in present;
      return false;
    }
    return true;
  }

  /** In increasing lists, a gap at the running count is a gap of the union. */
  lemma Uncovered(next: nat, skipped: seq<nat>, present: seq<nat>, covered: nat, i: nat, j: nat)
    requires Increasing(present) && Increasing(skipped) && i <= |present| && j <= |skipped|
    requires i < |present| || j < |skipped|
    requires forall x: int :: (x in present[..i] || x in skipped[..j]) <==> 0 <= x < covered
    requires i < |present| ==> present[i] > covered
    requires j < |skipped| ==> skipped[j] > covered
    ensures !Covers(next, skipped, present)
  {
    assert present == present[..i] + present[i..] && skipped == skipped[..j] + skipped[j..];
    assert covered !in present[..i] && covered !in skipped[..j];
    assert covered !in present[i..] && covered !in skipped[j..];
    assert covered !in skipped && covered !in present;
    var top := if i < |present| then present[i] else skipped[j];
    assert top in skipped || top in present;
  }

  // ---------- The locked read-modify-write operations ----------

  /** The list with one more index, in its place; a list that has the index keeps it once. */
  function WithIndex(s: seq<nat>, index: nat): (r: seq<nat>)
    ensures forall x :: x in r <==> x in s || x == index
  {
    if s == [] || index < s[0] then [index] + s
    else if index == s[0] then s
    else
      assert forall x :: x in s <==> x == s[0] || x in s[1..];
      [s[0]] + WithIndex(s[1..], index)
  }

  lemma {:induction false} WithIndexIncreases(s: seq<nat>, index: nat)
    requires Increasing(s)
    ensures Increasing(WithIndex(s, index))
  {
    if s != [] && s[0] < index {
      var tail := s[1..];
      assert Increasing(tail) by { assert forall i | 0 <= i < |tail| :: tail[i] == s[i + 1]; }
      WithIndexIncreases(tail, index);
      var rest := WithIndex(tail, index);
      forall i | 0 <= i < |rest| ensures s[0] < rest[i] {
        assert rest[i] in rest;
        if rest[i] != index {
          var k :| 0 <= k < |tail| && tail[k] == rest[i];
          assert s[k + 1] == tail[k];
        }
      }
      FirstBelow(s[0], rest);
    }
  }

  lemma FirstBelow(x: nat, rest: seq<nat>)
    requires Increasing(rest) && forall i | 0 <= i < |rest| :: x < rest[i]
    ensures Increasing([x] + rest)
  {
  }

  /** Shifting the tail by one and writing the index into the hole is the ordered insertion. */
  lemma {:induction false} SpliceIsInsertion(s: seq<nat>, index: nat, position: nat)
    requires position <= |s|
    requires forall i :: 0 <= i < position ==> s[i] < index
    requires forall i :: position <= i < |s| ==> s[i] > index
    ensures s[..position] + [index] + s[position..] == WithIndex(s, index)
  {
    if position > 0 {
      SpliceIsInsertion(s[1..], index, position - 1);
      assert s[..position] == [s[0]] + s[1..][..position - 1];
      assert s[position..] == s[1..][position - 1..];
    }
  }

  lemma {:induction false} PresentIndexStays(s: seq<nat>, index: nat)
    requires Increasing(s) && index in s
    ensures WithIndex(s, index) == s
  {
    if index != s[0] {
      assert index in s[1..];
      PresentIndexStays(s[1..], index);
    }
  }

  function ReserveIndex(m: Manifest, id: Token): (Manifest, Option<nat>) {
    if GoodManifest(m) && id in m && m[id].next < INDEX_SPACE then
      (m[id := m[id].(next := m[id].next + 1)], Some(m[id].next))
    else (m, None)
  }

  function MarkSkipped(m: Manifest, id: Token, index: nat): (Manifest, bool) {
    if GoodManifest(m) && id in m && index < m[id].next then
      (m[id := m[id].(skipped := WithIndex(m[id].skipped, index))], true)
    else (m, false)
  }

  function ClearSkipped(m: Manifest): (Manifest, bool) {
    if GoodManifest(m) then (map id | id in m :: m[id].(skipped := []), true) else (m, false)
  }

  predicate MayRaise(m: Manifest, targets: map<Token, nat>) {
    GoodManifest(m) && forall id | id in targets :: id in m && m[id].next <= targets[id] <= INDEX_SPACE
  }

  function RaiseHighWater(m: Manifest, targets: map<Token, nat>): (Manifest, bool) {
    if MayRaise(m, targets) then
      (map id | id in m :: if id in targets then m[id].(next := targets[id]) else m[id], true)
    else (m, false)
  }

  class Store {
    var wallets: Manifest

    constructor (wallets: Manifest)
      ensures this.wallets == wallets
    {
      this.wallets := wallets;
    }

    method ReserveAddressIndex(id: Token) returns (r: Option<nat>)
      modifies this
      ensures (wallets, r) == ReserveIndex(old(wallets), id)
    {
      var ok := VerifyManifest(wallets);
      if !ok || id !in wallets || wallets[id].next >= INDEX_SPACE { return None; }
      var wallet := wallets[id];
      r := Some(wallet.next);
      wallets := wallets[id := wallet.(next := wallet.next + 1)];
    }

    /** Appends one slot, shifts the tail into it and writes the index. */
    static method Splice(s: seq<nat>, position: nat, index: nat) returns (r: seq<nat>)
      requires position <= |s|
      ensures r == s[..position] + [index] + s[position..]
    {
      var list := new nat[|s| + 1];
      var i := 0;
      while i < |s|
        invariant 0 <= i <= |s|
        invariant list[..i] == s[..i]
      {
        list[i] := s[i];
        i := i + 1;
      }
      var k := |s|;
      while k > position
        invariant position <= k <= |s|
        invariant list[..k] == s[..k]
        invariant list[k + 1..] == s[k..]
      {
        list[k] := list[k - 1];
        k := k - 1;
      }
      list[position] := index;
      return list[..];
    }

    method MarkAddressIndexSkipped(id: Token, index: nat) returns (ok: bool)
      modifies this
      ensures (wallets, ok) == MarkSkipped(old(wallets), id, index)
      ensures GoodManifest(old(wallets)) ==> GoodManifest(wallets)
    {
      ok := VerifyManifest(wallets);
      if !ok || id !in wallets || index >= wallets[id].next { return false; }
      OperationsKeepManifest(wallets, id, index, map[]);
      var wallet := wallets[id];
      assert GoodWallet(wallet);
      var position := Search(wallet.skipped, index);
      if position < |wallet.skipped| && wallet.skipped[position] == index {
        PresentIndexStays(wallet.skipped, index);
        assert wallets[id := wallet] == wallets;
        return true;
      }
      SpliceIsInsertion(wallet.skipped, index, position);
      var list := Splice(wallet.skipped, position, index);
      wallets := wallets[id := wallet.(skipped := list)];
      return true;
    }

    method ClearSkippedAddressIndices() returns (ok: bool)
      modifies this
      ensures (wallets, ok) == ClearSkipped(old(wallets))
    {
      ok := VerifyManifest(wallets);
      if !ok { return; }
      var rest := wallets.Keys;
      while rest != {}
        invariant rest <= wallets.Keys == old(wallets).Keys
        invariant forall id | id in wallets ::
                  wallets[id] == if id in rest then old(wallets)[id] else old(wallets)[id].(skipped := [])
        decreases rest
      {
        var id :| id in rest;
        wallets := wallets[id := wallets[id].(skipped := [])];
        rest := rest - {id};
      }
      assert wallets == ClearSkipped(old(wallets)).0;
    }

    /** Works on a copy: the first bad target leaves the manifest as it was. */
    method RaiseHighWaterMarks(targets: map<Token, nat>) returns (ok: bool)
      modifies this
      ensures (wallets, ok) == RaiseHighWater(old(wallets), targets)
    {
      ok := VerifyManifest(wallets);
      if !ok { return; }
      var manifest := wallets;
      var rest := targets.Keys;
      while rest != {}
        invariant rest <= targets.Keys && manifest.Keys == wallets.Keys
        invariant forall id | id in targets && id !in rest ::
                  id in wallets && wallets[id].next <= targets[id] <= INDEX_SPACE
        invariant forall id | id in wallets ::
                  manifest[id] == if id in targets && id !in rest then wallets[id].(next := targets[id])
                  else wallets[id]
        decreases rest
      {
        var id :| id in rest;
        if id !in manifest || targets[id] > INDEX_SPACE || targets[id] < manifest[id].next { return false; }
        manifest := manifest[id := manifest[id].(next := targets[id])];
        rest := rest - {id};
      }
      assert manifest == RaiseHighWater(wallets, targets).0;
      wallets := manifest;
    }
  }

  /** Each operation keeps the manifest well formed; only a reservation or a raise moves a mark, and
      never down. */
  lemma OperationsKeepManifest(m: Manifest, id: Token, index: nat, targets: map<Token, nat>)
    requires GoodManifest(m)
    ensures GoodManifest(ReserveIndex(m, id).0) && GoodManifest(MarkSkipped(m, id, index).0)
    ensures GoodManifest(ClearSkipped(m).0) && GoodManifest(RaiseHighWater(m, targets).0)
  {
    if id in m {
      WithIndexIncreases(m[id].skipped, index);
      var list := WithIndex(m[id].skipped, index);
      assert forall i :: 0 <= i < |list| ==> list[i] in list;
      assert forall i :: 0 <= i < |m[id].skipped| ==> m[id].skipped[i] < m[id].next;
    }
  }
}
