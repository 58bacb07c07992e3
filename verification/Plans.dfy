/**
 Transaction plans: the check of what a planner returned, and the same check repeated on the stored plan
 before anything is signed.
 */
module Plans {
  import opened Common
  import opened Chain
  import opened Text
  import opened Requests
  import opened Attempts
  import opened AttemptRuns

  const MAX_OUTPUTS := 199

  /** `wellFormed` stands for the note id's fixed format. */
  datatype PlanNote = PlanNote(id: NoteId, wellFormed: bool)

  datatype TxPlan = TxPlan(
    version: string, kind: string, wallet: string, coinType: nat, account: nat, chain: string, expiry: nat,
    outputs: seq<Output>, change: string, fee: string, notes: seq<PlanNote>)

  datatype Setup = Setup(limits: Limits, account: nat, chain: string, coinType: nat)

  /** The configured wallets. */
  type Wallets = map<Token, Setup>

  /** JSON and SHA-256: what a stored value decodes to, what it hashes to, and the text it stands for. */
  datatype Codec = Codec(plan: Token -> Option<TxPlan>, request: Token -> Option<Request>, json: Request -> Token,
                         hash: Token -> Token, store: string -> Token, text: Token -> string)

  ghost predicate RoundTrips(c: Codec) {
    && (forall r: Request :: c.request(c.json(r)) == Some(r))
    && (forall s: string :: c.text(c.store(s)) == s) && c.text(EMPTY) == ""
  }

  datatype Validated = Validated(digest: Token, fee: string, expiry: nat, notes: seq<NoteId>, outputs: nat)

  function KindOf(r: Request): string { if r.split.Some? then "rebalance" else "withdrawal" }

  /** An output beyond the approved ones: value paid back to the attempt's own change address. */
  predicate OwnChange(o: Output, change: string) {
    o.to == change && o.memo == "" && Amount(o) > 0
  }

  function Ids(notes: seq<PlanNote>): (r: seq<NoteId>)
    ensures |r| == |notes| && forall i | 0 <= i < |notes| :: r[i] == notes[i].id
  {
    if notes == [] then [] else Ids(notes[..|notes| - 1]) + [notes[|notes| - 1].id]
  }

  predicate OutputsAgree(outputs: seq<Output>, r: Request, change: string) {
    var expected := PlanOutputs(r, change);
    && |expected| <= |outputs| <= MAX_OUTPUTS && outputs[..|expected|] == expected
    && (r.split.Some? ==> |outputs| == |expected|)
    && forall i | |expected| <= i < |outputs| :: OwnChange(outputs[i], change)
  }

  predicate NotesAgree(notes: seq<PlanNote>) {
    notes != [] && (forall i | 0 <= i < |notes| :: notes[i].wellFormed) && Distinct(Ids(notes))
  }

  predicate HeaderAgrees(p: TxPlan, r: Request, w: Setup, change: string) {
    && p.version == "v0" && p.kind == KindOf(r) && p.wallet == w.limits.wallet && p.account == w.account
    && p.chain == w.chain
    && p.coinType == w.coinType && change != "" && p.change == change
  }

  predicate PlanAgrees(p: TxPlan, r: Request, w: Setup, change: string) {
    && HeaderAgrees(p, r, w, change) && OutputsAgree(p.outputs, r, change)
    && ParseDecimal(p.fee).Some? && p.expiry != 0 && NotesAgree(p.notes)
  }

  function ValidatePlan(c: Codec, raw: Token, r: Request, w: Setup, change: string): Option<Validated> {
    if raw == EMPTY || c.plan(raw).None? then None
    else
      var p := c.plan(raw).value;
      if PlanAgrees(p, r, w, change) then Some(Validated(c.hash(raw), p.fee, p.expiry, Ids(p.notes), |p.outputs|))
         else None
  }

  // ---------- The checks as loops ----------

  method CheckOutputs(outputs: seq<Output>, r: Request, change: string) returns (ok: bool)
    ensures ok == OutputsAgree(outputs, r, change)
  {
    var expected := PlanOutputs(r, change);
    if |outputs| < |expected| || |outputs| > MAX_OUTPUTS { return false; }
    for i := 0 to |expected|
      invariant outputs[..i] == expected[..i]
    {
      if outputs[i] != expected[i] {
        assert outputs[..|expected|][i] == outputs[i];
        return false;
      }
    }
    assert expected[..|expected|] == expected;
    if |outputs| > |expected| && r.split.Some? { return false; }
    for i := |expected| to |outputs|
      invariant forall k | |expected| <= k < i :: OwnChange(outputs[k], change)
    {
      var extra := outputs[i];
      var amount := ParseDecimal(extra.amount);
      if extra.to != change || extra.memo != "" || amount.None? || amount.value == 0 {
        assert !OwnChange(outputs[i], change);
        return false;
      }
    }
    return true;
  }

  method CheckNotes(notes: seq<PlanNote>) returns (ok: bool, ids: seq<NoteId>)
    ensures ok == NotesAgree(notes)
    ensures ok ==> ids == Ids(notes)
  {
    ids := [];
    if notes == [] { return false, ids; }
    var seen: set<NoteId> := {};
    for i := 0 to |notes|
      invariant |ids| == i && ids == Ids(notes)[..i] && Distinct(ids)
      invariant seen == set x | x in ids
      invariant forall k | 0 <= k < i :: notes[k].wellFormed
    {
      var note := notes[i];
      if !note.wellFormed { return false, ids; }
      if note.id in seen {
        var k :| 0 <= k < |ids| && ids[k] == note.id;
        assert Ids(notes)[k] == Ids(notes)[i];
        return false, ids;
      }
      seen, ids := seen + {note.id}, ids + [note.id];
    }
    assert Ids(notes)[..|notes|] == Ids(notes);
    ok := true;
  }

  method Validate(c: Codec, raw: Token, r: Request, w: Setup, change: string) returns (v: Option<Validated>)
    ensures v == ValidatePlan(c, raw, r, w, change)
  {
    if raw == EMPTY || c.plan(raw).None? { return None; }
    var p := c.plan(raw).value;
    if p.version != "v0" || p.kind != KindOf(r) || p.wallet != w.limits.wallet || p.account != w.account
       || p.chain != w.chain {
      return None;
    }
    if p.coinType != w.coinType || change == "" || p.change != change { return None; }
    var outputs := CheckOutputs(p.outputs, r, change);
    if !outputs { return None; }
    if ParseDecimal(p.fee).None? || p.expiry == 0 || p.notes == [] { return None; }
    var ok, ids := CheckNotes(p.notes);
    if !ok { return None; }
    return Some(Validated(c.hash(raw), p.fee, p.expiry, ids, |p.outputs|));
  }

  // ---------- Comparing note lists ----------

  lemma SplitFirst(a: seq<NoteId>)
    requires a != []
    ensures multiset(a[1..]) == multiset(a) - multiset{a[0]}
  {
    assert a == [a[0]] + a[1..];
  }

  lemma FirstIsLeast(a: seq<NoteId>, x: NoteId)
    requires a != [] && Ascending(a) && x in multiset(a)
    ensures a[0] <= x
  {
    assert x in a;
  }

  lemma SameSize(a: seq<NoteId>, b: seq<NoteId>)
    requires multiset(a) == multiset(b)
    ensures |a| == |b|
  {
    assert |multiset(a)| == |a| && |multiset(b)| == |b|;
  }

  lemma SameFirst(a: seq<NoteId>, b: seq<NoteId>)
    requires Ascending(a) && Ascending(b) && multiset(a) == multiset(b) && a != [] && b != []
    ensures a[0] == b[0] && multiset(a[1..]) == multiset(b[1..])
  {
    assert a[0] in multiset(a) && b[0] in multiset(b);
    FirstIsLeast(a, b[0]);
    FirstIsLeast(b, a[0]);
    SplitFirst(a);
    SplitFirst(b);
  }

  lemma RestAscends(a: seq<NoteId>)
    requires Ascending(a) && a != []
    ensures Ascending(a[1..])
  {
  }

  lemma {:induction false} SortedIsUnique(a: seq<NoteId>, b: seq<NoteId>)
    requires Ascending(a) && Ascending(b) && multiset(a) == multiset(b)
    ensures a == b
  {
    SameSize(a, b);
    if a != [] {
      SameFirst(a, b);
      RestAscends(a);
      RestAscends(b);
      var x, y := a[1..], b[1..];
      SortedIsUnique(x, y);
      assert a == [a[0]] + x && b == [b[0]] + y;
    }
  }

  lemma SameSorted(left: seq<NoteId>, right: seq<NoteId>)
    ensures Sort(left) == Sort(right) <==> multiset(left) == multiset(right)
  {
    SortAscends(left);
    SortAscends(right);
    if multiset(left) == multiset(right) { SortedIsUnique(Sort(left), Sort(right)); }
  }

  method SameElements(a: seq<NoteId>, b: seq<NoteId>) returns (same: bool)
    requires |a| == |b|
    ensures same == (a == b)
  {
    for i := 0 to |a|
      invariant forall k | 0 <= k < i :: a[k] == b[k]
    {
      if a[i] != b[i] { return false; }
    }
    return true;
  }

  /** Compares sorted copies: true exactly for the same notes in any order, repetitions counted. */
  method SameStringSet(left: seq<NoteId>, right: seq<NoteId>) returns (same: bool)
    ensures same <==> multiset(left) == multiset(right)
  {
    if |left| != |right| {
      if multiset(left) == multiset(right) { SameSize(left, right); }
      return false;
    }
    var a, b := Sort(left), Sort(right);
    SameSize(a, left);
    SameSize(b, right);
    SameSorted(left, right);
    same := SameElements(a, b);
  }

  // ---------- The integrity check before signing ----------

  /** The request a row stores, if it is the canonical text its digest was taken of. */
  function DecodeRequest(c: Codec, w: Setup, row: Attempt): Option<Request> {
    if c.request(row.request).None? then None
    else
      var n := Normalise(c.request(row.request).value, w.limits);
      if n.Some? && c.hash(c.json(n.value)) == row.digest && c.json(n.value) == row.request then n else None
  }

  /** The plan a row stores is the validated one, its notes in any order. */
  predicate StoresPlan(c: Codec, row: Attempt, v: Validated) {
    && row.plan.Some? && row.plan.value.digest == v.digest && c.text(row.fee) == v.fee
    && row.plan.value.expiry == v.expiry
    && multiset(v.notes) == multiset(row.plan.value.notes)
  }

  /** The stored request decodes, and the stored plan validates against it and the stored change address to
      what the row says. */
  predicate Intact(c: Codec, wallets: Wallets, row: Attempt) {
    && row.wallet in wallets && row.plan.Some?
    && var w := wallets[row.wallet];
    && var request := DecodeRequest(c, w, row);
    && request.Some?
    && var v := ValidatePlan(c, row.plan.value.bytes, request.value, w, c.text(row.changeAddress));
    && v.Some? && StoresPlan(c, row, v.value)
  }

  method CheckIntact(c: Codec, wallets: Wallets, row: Attempt) returns (ok: bool)
    requires row.plan.Some?
    ensures ok == Intact(c, wallets, row)
  {
    if row.wallet !in wallets { return false; }
    var w, plan := wallets[row.wallet], row.plan.value;
    var request := DecodeRequest(c, w, row);
    if request.None? { return false; }
    var v := Validate(c, plan.bytes, request.value, w, c.text(row.changeAddress));
    if v.None? || v.value.digest != plan.digest || v.value.fee != c.text(row.fee) || v.value.expiry != plan.expiry {
      return false;
    }
    ok := SameStringSet(v.value.notes, plan.notes);
  }

  /** A new attempt created from a normalised request: its canonical text and the digest of that text. */
  ghost predicate HonestlyClaimed(c: Codec, wallets: Wallets, submitted: Request, t: Tables, op: Op) {
    && op.DoClaim? && op.wallet in wallets
    && Claim(t, op.id, op.key, op.digest, op.principal, op.wallet, op.approval, op.request, op.now).1
       == ClaimOutcome.Acquired
    && var n := Normalise(submitted, wallets[op.wallet].limits);
    && n.Some? && op.request == c.json(n.value) && op.digest == c.hash(op.request)
  }

  /** A reservation of what validation returned for the request and the row's change address. */
  ghost predicate HonestlyReserved(c: Codec, w: Setup, n: Request, t: Tables, op: Op) {
    && op.DoReserve? && op.id in t.attempts && t.attempts[op.id].state.Planning?
    && var v := ValidatePlan(c, op.plan.bytes, n, w, c.text(t.attempts[op.id].changeAddress));
    && v.Some? && op.plan == Plan(op.plan.bytes, v.value.digest, v.value.expiry, v.value.notes)
    && op.fee == c.store(v.value.fee)
    && Reserve(t, op.id, op.network, op.plan, op.fee, op.now).1 == Ok
  }

  /** The request an honest claim stored decodes, at every later row of the attempt. */
  lemma ClaimedRequestDecodes(c: Codec, wallets: Wallets, submitted: Request, t: Tables, op: Op, row: Attempt)
    requires RoundTrips(c) && HonestlyClaimed(c, wallets, submitted, t, op)
    requires op.id in Apply(t, op).attempts && RowEvolves(Apply(t, op).attempts[op.id], row)
    ensures row.wallet == op.wallet
    ensures DecodeRequest(c, wallets[op.wallet], row) == Normalise(submitted, wallets[op.wallet].limits)
  {
    var n := Normalise(submitted, wallets[op.wallet].limits).value;
    NormalisedIsStable(submitted, wallets[op.wallet].limits);
    assert c.request(c.json(n)) == Some(n);
  }

  lemma ReservedRow(t: Tables, op: Op)
    requires op.DoReserve? && op.id in t.attempts && t.attempts[op.id].state.Planning?
    requires Reserve(t, op.id, op.network, op.plan, op.fee, op.now).1 == Ok
    ensures op.id in Apply(t, op).attempts
    ensures var row := Apply(t, op).attempts[op.id];
            && row.plan == Some(op.plan.(notes := Sort(op.plan.notes))) && row.fee == op.fee
            && row.changeAddress == t.attempts[op.id].changeAddress
            && multiset(op.plan.notes) == multiset(row.plan.value.notes)
  {
  }

  /** What an honest reservation stored stays the validated plan until the bytes are signed: the plan, the fee
      and the change address keep their values. */
  lemma ReservedPlanValidates(c: Codec, w: Setup, n: Request, t: Tables, op: Op, row: Attempt)
    requires RoundTrips(c) && HonestlyReserved(c, w, n, t, op)
    requires op.id in Apply(t, op).attempts && RowEvolves(Apply(t, op).attempts[op.id], row) && row.signature.None?
    ensures row.plan.Some?
    ensures var v := ValidatePlan(c, row.plan.value.bytes, n, w, c.text(row.changeAddress));
            v.Some? && StoresPlan(c, row, v.value)
  {
    ReservedRow(t, op);
    var v := ValidatePlan(c, op.plan.bytes, n, w, c.text(t.attempts[op.id].changeAddress)).value;
    assert t.attempts[op.id].changeAddress != EMPTY;
    assert c.text(c.store(v.fee)) == v.fee;
  }

  lemma AfterOne(ops: seq<Op>, i: nat)
    requires i < |ops|
    ensures After(ops[..i + 1]) == Apply(After(ops[..i]), ops[i])
  {
    assert ops[..i + 1][..i] == ops[..i];
  }

  /** The row a call left behind evolves into the row at the end. */
  lemma RowGoesOn(ops: seq<Op>, i: nat, id: AttemptId)
    requires i < |ops| && id in Apply(After(ops[..i]), ops[i]).attempts
    ensures id in After(ops).attempts
            && RowEvolves(Apply(After(ops[..i]), ops[i]).attempts[id], After(ops).attempts[id])
  {
    AfterOne(ops, i);
    WrittenOnce(ops, i + 1);
  }

  lemma ClaimedRow(t: Tables, op: Op)
    requires op.DoClaim?
    requires Claim(t, op.id, op.key, op.digest, op.principal, op.wallet, op.approval, op.request, op.now).1
             == ClaimOutcome.Acquired
    ensures op.id in Apply(t, op).attempts
  {
  }

  /** In every run of the store, an attempt created from a normalised request and reserved with the plan that
      validated against it passes the integrity check until its bytes are signed: request, digest, change
      address, plan and fee are read from its row, and its notes were stored in another order. */
  lemma IntactUntilSigned(c: Codec, wallets: Wallets, submitted: Request, ops: seq<Op>, h: nat, i: nat)
    requires RoundTrips(c) && h < |ops| && i < |ops| && ops[h].id == ops[i].id
    requires HonestlyClaimed(c, wallets, submitted, After(ops[..h]), ops[h])
    requires var w := wallets[ops[h].wallet];
             HonestlyReserved(c, w, Normalise(submitted, w.limits).value, After(ops[..i]), ops[i])
    ensures ops[i].id in After(ops).attempts
    ensures After(ops).attempts[ops[i].id].signature.None? ==> Intact(c, wallets, After(ops).attempts[ops[i].id])
  {
    var id, w := ops[i].id, wallets[ops[h].wallet];
    ClaimedRow(After(ops[..h]), ops[h]);
    RowGoesOn(ops, h, id);
    ReservedRow(After(ops[..i]), ops[i]);
    RowGoesOn(ops, i, id);
    var row := After(ops).attempts[id];
    ClaimedRequestDecodes(c, wallets, submitted, After(ops[..h]), ops[h], row);
    if row.signature.None? {
      ReservedPlanValidates(c, w, Normalise(submitted, w.limits).value, After(ops[..i]), ops[i], row);
    }
  }

  /** A row passes the check if and only if its request decodes to one that is stored in its normal form and has the
      row's digest, and its plan validates against that request and has the digest, the fee, the expiry and the
      notes the row says. */
  lemma IntactExactlyWhen(c: Codec, wallets: Wallets, row: Attempt)
    ensures Intact(c, wallets, row) <==>
              && row.wallet in wallets && row.plan.Some? && c.request(row.request).Some?
              && var w, plan := wallets[row.wallet], row.plan.value;
              var r := Normalise(c.request(row.request).value, w.limits);
              && r.Some? && c.json(r.value) == row.request && c.hash(row.request) == row.digest
              && ValidatePlan(c, plan.bytes, r.value, w, c.text(row.changeAddress)).Some?
              && var p := c.plan(plan.bytes).value;
              && c.hash(plan.bytes) == plan.digest && p.fee == c.text(row.fee) && p.expiry == plan.expiry
              && multiset(Ids(p.notes)) == multiset(plan.notes)
  {
  }

  // ---------- What a checked plan pays ----------

  /** What the outputs pay to anyone but the change address. */
  function PaidAway(s: seq<Output>, change: string): nat {
    if s == [] then 0
    else PaidAway(s[..|s| - 1], change) + if s[|s| - 1].to == change then 0 else Amount(s[|s| - 1])
  }

  lemma {:induction false} ChangeStays(s: seq<Output>, change: string, n: nat)
    requires n <= |s| && forall i | n <= i < |s| :: s[i].to == change
    ensures PaidAway(s, change) == PaidAway(s[..n], change)
  {
    if n < |s| {
      ChangeStays(s[..|s| - 1], change, n);
      assert s[..|s| - 1][..n] == s[..n];
    } else {
      assert s[..n] == s;
    }
  }

  lemma {:induction false} PaidAwayIsPart(s: seq<Output>, change: string)
    ensures PaidAway(s, change) <= Total(s)
  {
    if s != [] { PaidAwayIsPart(s[..|s| - 1], change); }
  }

  /** An output list is accepted if and only if it is the approved outputs of a withdrawal followed by nothing
      but own change, or the notes of a split, all of its amount and all paid to the change address. */
  lemma OutputsAgreeExactlyWhen(outputs: seq<Output>, r: Request, change: string)
    ensures OutputsAgree(outputs, r, change) <==>
              |outputs| <= 199 &&
              match r.split
              case None =>
                && r.outputs <= outputs
                && forall i | |r.outputs| <= i < |outputs| ::
                     outputs[i].to == change && outputs[i].memo == "" && Amount(outputs[i]) > 0
              case Some(split) =>
                && |outputs| == Max(split.count, 0)
                && forall i | 0 <= i < |outputs| :: outputs[i] == Output(change, split.zat, "")
  {
    var expected := PlanOutputs(r, change);
    match r.split
    case None =>
      assert r.outputs <= outputs <==> |r.outputs| <= |outputs| && outputs[..|r.outputs|] == r.outputs;
    case Some(split) =>
      assert |outputs| == |expected| ==> outputs[..|expected|] == outputs;
      assert |outputs| == |expected| && (forall i | 0 <= i < |outputs| :: outputs[i] == expected[i]) ==>
               outputs == expected;
  }

  /** A plan validates if and only if it is one for this wallet on this chain, spends good notes, has a fee and an
      expiry, and pays what its outputs are allowed to pay; the caller gets what the plan says. */
  lemma ValidatesExactlyWhen(c: Codec, raw: Token, r: Request, w: Setup, change: string)
    ensures ValidatePlan(c, raw, r, w, change).Some? <==>
              && raw != EMPTY && c.plan(raw).Some?
              && var p := c.plan(raw).value;
              && p.version == "v0" && p.kind == (if r.split.Some? then "rebalance" else "withdrawal")
              && p.wallet == w.limits.wallet && p.account == w.account && p.chain == w.chain
              && p.coinType == w.coinType && p.change == change && change != ""
              && (exists fee: nat :: fee <= MAX_UINT64 && p.fee == Decimal(fee)) && p.expiry != 0
              && |p.notes| > 0 && (forall i | 0 <= i < |p.notes| :: p.notes[i].wellFormed)
              && (forall i, j | 0 <= i < j < |p.notes| :: p.notes[i].id != p.notes[j].id)
              && OutputsAgree(p.outputs, r, change)
  {
    if c.plan(raw).Some? {
      var p := c.plan(raw).value;
      FeeIsRead(p.fee);
      DistinctNotes(p.notes);
    }
  }

  /** What a validated plan is stored and signed by is the plan's own: the digest of its bytes, its fee, its expiry
      and its notes in their order. */
  lemma ValidatedIsThePlan(c: Codec, raw: Token, r: Request, w: Setup, change: string)
    requires ValidatePlan(c, raw, r, w, change).Some?
    ensures var v, p := ValidatePlan(c, raw, r, w, change).value, c.plan(raw).value;
            && v.digest == c.hash(raw) && v.fee == p.fee && v.expiry == p.expiry && v.outputs == |p.outputs|
            && |v.notes| == |p.notes| && forall i | 0 <= i < |p.notes| :: v.notes[i] == p.notes[i].id
  {
  }

  lemma DistinctNotes(notes: seq<PlanNote>)
    ensures NotesAgree(notes) <==>
              && |notes| > 0 && (forall i | 0 <= i < |notes| :: notes[i].wellFormed)
              && forall i, j | 0 <= i < j < |notes| :: notes[i].id != notes[j].id
  {
  }

  lemma FeeIsRead(fee: string)
    ensures ParseDecimal(fee).Some? <==> exists n: nat :: n <= MAX_UINT64 && fee == Decimal(n)
  {
    if ParseDecimal(fee).Some? { AmountsAreCanonical(fee, ParseDecimal(fee).value); }
    forall n: nat | n <= MAX_UINT64 && fee == Decimal(n) ensures ParseDecimal(fee).Some? {
      AmountsAreCanonical(fee, n);
    }
  }

  /** A row that passes the check is signed for nothing but what its stored request approved. */
  lemma IntactPaysWhatWasApproved(c: Codec, wallets: Wallets, row: Attempt)
    requires Intact(c, wallets, row) && wallets[row.wallet].limits.Valid()
    ensures row.plan.Some? && c.plan(row.plan.value.bytes).Some? && DecodeRequest(c, wallets[row.wallet], row).Some?
    ensures var p, change := c.plan(row.plan.value.bytes).value, c.text(row.changeAddress);
            var r := DecodeRequest(c, wallets[row.wallet], row).value;
            PaidAway(p.outputs, change) == if r.split.Some? then 0 else PaidAway(r.outputs, change)
  {
    var w := wallets[row.wallet];
    var p, submitted := c.plan(row.plan.value.bytes).value, c.request(row.request).value;
    NothingElseIsPaid(p, submitted, w, c.text(row.changeAddress));
  }

  /** A plan that passes the check for a withdrawal starts with the approved outputs and pays others exactly what
      they pay; for a split it pays nobody else anything, in as many notes of the amount as were asked for. */
  lemma NothingElseIsPaid(p: TxPlan, submitted: Request, w: Setup, change: string)
    requires w.limits.Valid() && Normalise(submitted, w.limits).Some?
    requires PlanAgrees(p, Normalise(submitted, w.limits).value, w, change)
    ensures PaidAway(p.outputs, change) <= w.limits.maxAmount
    ensures var r := Normalise(submitted, w.limits).value;
            match r.split
            case None => r.outputs <= p.outputs && PaidAway(p.outputs, change) == PaidAway(r.outputs, change)
            case Some(split) =>
              && |p.outputs| == split.count && PaidAway(p.outputs, change) == 0
              && forall i | 0 <= i < |p.outputs| :: p.outputs[i] == Output(change, split.zat, "")
  {
    var r := Normalise(submitted, w.limits).value;
    OutputsAgreeExactlyWhen(p.outputs, r, change);
    match r.split
    case None =>
      ChangeStays(p.outputs, change, |r.outputs|);
      PaidAwayIsPart(r.outputs, change);
    case Some(split) =>
      ChangeStays(p.outputs, change, 0);
  }
}
