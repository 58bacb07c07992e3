/**
 Transaction requests: trimming and checking in place, with a running total in 64-bit arithmetic, and the
 outputs an approved request asks a plan for.
 */
module Requests {
  import opened Arithmetic
  import opened Common
  import opened Text

  newtype uint64 = x: int | 0 <= x <= 0xffff_ffff_ffff_ffff

  datatype Output = Output(to: string, amount: string, memo: string)

  datatype NoteSplit = NoteSplit(count: int, zat: string)

  datatype Request = Request(wallet: string, approval: string, outputs: seq<Output>, split: Option<NoteSplit>)

  /** What configuration fixes: the wallet asked for, the network's address prefix and the limits. */
  datatype Limits = Limits(wallet: string, hrp: string, maxOutputs: int, maxAmount: int, minNote: int) {
    predicate Valid() {
      1 <= maxOutputs <= 199 && 1 <= maxAmount <= 0x7fff_ffff_ffff_ffff && 0 <= minNote <= 0x7fff_ffff_ffff_ffff
    }
  }

  /** Length in bytes of the UTF-8 text. */
  function Bytes(s: string): nat {
    if s == "" then 0
    else
      var c := s[|s| - 1];
      Bytes(s[..|s| - 1]) + if c < '\U{80}' then 1 else if c < '\U{800}' then 2 else if c < '\U{10000}' then 3 else 4
  }

  predicate MemoOk(m: string) {
    |m| <= 1024 && |m| % 2 == 0 && forall i | 0 <= i < |m| :: '0' <= m[i] <= '9' || 'a' <= m[i] <= 'f'
  }

  function Clean(o: Output): Output { Output(Trim(o.to), Trim(o.amount), Trim(o.memo)) }

  predicate OutputOk(o: Output, l: Limits) {
    && o.to != "" && HasPrefix(o.to, l.hrp + "1")
    && ParseDecimal(o.amount).Some? && 0 < ParseDecimal(o.amount).value <= l.maxAmount
    && MemoOk(o.memo)
  }

  function CleanAll(s: seq<Output>): (r: seq<Output>)
    ensures |r| == |s| && forall i | 0 <= i < |s| :: r[i] == Clean(s[i])
  {
    if s == [] then [] else CleanAll(s[..|s| - 1]) + [Clean(s[|s| - 1])]
  }

  function Amount(o: Output): nat { if ParseDecimal(o.amount).Some? then ParseDecimal(o.amount).value else 0 }

  function Total(s: seq<Output>): nat { if s == [] then 0 else Total(s[..|s| - 1]) + Amount(s[|s| - 1]) }

  predicate OutputsOk(s: seq<Output>, l: Limits) {
    1 <= |s| <= l.maxOutputs && (forall i | 0 <= i < |s| :: OutputOk(s[i], l)) && Total(s) <= l.maxAmount
  }

  predicate SplitOk(s: NoteSplit, l: Limits) {
    && 2 <= s.count <= l.maxOutputs
    && ParseDecimal(s.zat).Some? && 0 < ParseDecimal(s.zat).value && l.minNote <= ParseDecimal(s.zat).value
    && ParseDecimal(s.zat).value * s.count <= l.maxAmount
  }

  function Normalise(r: Request, l: Limits): Option<Request> {
    var wallet, approval := Trim(r.wallet), Trim(r.approval);
    if wallet != l.wallet || approval == "" || Bytes(approval) > 128 then None
    else
      match r.split
      case Some(s) =>
        var split := s.(zat := Trim(s.zat));
        if r.outputs == [] && SplitOk(split, l) then Some(Request(wallet, approval, [], Some(split))) else None
      case None =>
        var outputs := CleanAll(r.outputs);
        if OutputsOk(outputs, l) then Some(Request(wallet, approval, outputs, None)) else None
  }

  // ---------- In place ----------

  lemma {:induction false} TotalGrows(s: seq<Output>, n: nat)
    requires n <= |s|
    ensures Total(s[..n]) <= Total(s)
  {
    if n < |s| {
      TotalGrows(s[..|s| - 1], n);
      assert s[..|s| - 1][..n] == s[..n];
    } else {
      assert s[..n] == s;
    }
  }

  lemma CleanCleans(o: Output)
    ensures Clean(Clean(o)) == Clean(o)
  {
    TrimTrims(o.to);
    TrimTrims(o.amount);
    TrimTrims(o.memo);
  }

  /** The first n outputs have been rewritten. */
  predicate Rewritten(was: seq<Output>, now: seq<Output>, n: nat) {
    |now| == |was| && forall k | 0 <= k < |was| :: now[k] == if k < n then Clean(was[k]) else was[k]
  }

  /** Rewriting one more, even partly, leaves a list that trims to the same. */
  lemma RewriteStep(was: seq<Output>, before: seq<Output>, now: seq<Output>, i: nat, o: Output)
    requires i < |was| && Rewritten(was, before, i) && now == before[i := o] && Clean(o) == Clean(was[i])
    ensures CleanAll(now) == CleanAll(was)
    ensures o == Clean(was[i]) ==> Rewritten(was, now, i + 1)
  {
    forall k | 0 <= k < |was| ensures CleanAll(now)[k] == CleanAll(was)[k] { CleanCleans(was[k]); }
  }

  lemma RewrittenIsClean(was: seq<Output>, now: seq<Output>, n: nat)
    requires Rewritten(was, now, n)
    ensures CleanAll(now) == CleanAll(was)
    ensures n >= |was| ==> now == CleanAll(was)
  {
    forall k | 0 <= k < |was| ensures CleanAll(now)[k] == CleanAll(was)[k] { CleanCleans(was[k]); }
  }

  lemma TotalAdds(s: seq<Output>, n: nat)
    requires n < |s|
    ensures Total(s[..n + 1]) == Total(s[..n]) + Amount(s[n])
  {
    assert s[..n + 1][..n] == s[..n];
  }

  /** The first n outputs have been rewritten and accepted, and the total is theirs. */
  predicate Accepted(was: seq<Output>, now: seq<Output>, n: nat, total: int, l: Limits) {
    && n <= |was| && Rewritten(was, now, n)
    && (forall k | 0 <= k < n :: OutputOk(Clean(was[k]), l)) && total == Total(CleanAll(was)[..n]) <= l.maxAmount
  }

  /** One round: the output is rewritten, and refused exactly when it or the total so far is. */
  method AcceptOne(outputs: array<Output>, i: nat, total: uint64, l: Limits, ghost was: seq<Output>)
    returns (ok: bool, sum: uint64)
    requires l.Valid() && i < outputs.Length && Accepted(was, outputs[..], i, total as int, l)
    modifies outputs
    ensures CleanAll(outputs[..]) == CleanAll(was)
    ensures if ok then Accepted(was, outputs[..], i + 1, sum as int, l) else !OutputsOk(CleanAll(was), l)
  {
    ghost var clean, before := CleanAll(was), outputs[..];
    assert before[i] == was[i] && clean[i] == Clean(was[i]);
    var max := l.maxAmount as uint64;
    var fine: bool, amount: uint64 := CleanOne(outputs, i, l);
    RewriteStep(was, before, outputs[..], i, outputs[i]);
    TotalAdds(clean, i);
    if !fine || amount > max || total > max - amount {
      TotalGrows(clean, i + 1);
      assert !OutputOk(clean[i], l) || Total(clean) > l.maxAmount;
      return false, total;
    }
    return true, total + amount;
  }

  /** Rewrites the outputs one by one and keeps a 64-bit running total that cannot overflow. */
  method NormaliseOutputs(outputs: array<Output>, l: Limits) returns (ok: bool)
    requires l.Valid()
    modifies outputs
    ensures ok <==> OutputsOk(CleanAll(old(outputs[..])), l)
    ensures ok ==> outputs[..] == CleanAll(old(outputs[..]))
    ensures CleanAll(outputs[..]) == CleanAll(old(outputs[..]))
  {
    ghost var was := outputs[..];
    if outputs.Length < 1 || outputs.Length > l.maxOutputs { return false; }
    var total: uint64 := 0;
    var i := 0;
    while i < outputs.Length
      invariant i <= outputs.Length && Accepted(was, outputs[..], i, total as int, l)
    {
      ok, total := AcceptOne(outputs, i, total, l, was);
      if !ok { return; }
      i := i + 1;
    }
    RewrittenIsClean(was, outputs[..], i);
    assert CleanAll(was)[..i] == CleanAll(was);
    ok := true;
  }

  predicate NoUpperCase(m: string) { forall i | 0 <= i < |m| :: !('A' <= m[i] <= 'Z') }

  /** Trims one output where it stands, and checks it; the amount is checked against the limit by the caller. */
  method CleanOne(outputs: array<Output>, i: nat, l: Limits) returns (fine: bool, amount: uint64)
    requires i < outputs.Length && l.Valid()
    modifies outputs
    ensures outputs[..] == old(outputs[..])[i := outputs[i]] && Clean(outputs[i]) == Clean(old(outputs[i]))
    ensures fine ==> outputs[i] == Clean(old(outputs[i]))
    ensures fine ==> amount as int == Amount(outputs[i]) && (amount as int <= l.maxAmount <==> OutputOk(outputs[i], l))
    ensures !fine ==> !OutputOk(Clean(old(outputs[i])), l)
  {
    CleanCleans(outputs[i]);
    TrimTrims(outputs[i].to);
    TrimTrims(outputs[i].amount);
    amount := 0;
    var out := outputs[i];
    out := out.(to := Trim(out.to), amount := Trim(out.amount));
    outputs[i] := out;
    var memo := Trim(out.memo);
    if !NoUpperCase(memo) { return false, amount; }
    out := out.(memo := memo);
    outputs[i] := out;
    if out.to == "" || !HasPrefix(out.to, l.hrp + "1") { return false, amount; }
    var parsed := ParseDecimal(out.amount);
    if parsed.None? || parsed.value == 0 { return false, amount; }
    amount := parsed.value as uint64;
    fine := MemoOk(out.memo);
  }

  /** A rejected request may be left partly trimmed; trimming it again would give the same. */
  method NormaliseRequest(wallet: string, approval: string, outputs: array<Output>, split: Option<NoteSplit>, l: Limits)
    returns (r: Option<Request>)
    requires l.Valid()
    modifies outputs
    ensures r == Normalise(Request(wallet, approval, old(outputs[..]), split), l)
    ensures r.Some? ==> outputs[..] == r.value.outputs
    ensures CleanAll(outputs[..]) == CleanAll(old(outputs[..]))
  {
    var w, a := Trim(wallet), Trim(approval);
    if w != l.wallet { return None; }
    if a == "" || Bytes(a) > 128 { return None; }
    if split.Some? {
      if outputs.Length != 0 { return None; }
      assert outputs[..] == [];
      var s := split.value.(zat := Trim(split.value.zat));
      if s.count < 2 || s.count > l.maxOutputs { return None; }
      var zat := ParseDecimal(s.zat);
      if zat.None? || zat.value == 0 { return None; }
      if zat.value < l.minNote { return None; }
      DivIsTimes(zat.value, s.count, l.maxAmount);
      if zat.value > l.maxAmount / s.count { return None; }
      return Some(Request(w, a, [], Some(s)));
    }
    var ok := NormaliseOutputs(outputs, l);
    if !ok { return None; }
    return Some(Request(w, a, outputs[..], None));
  }

  // ---------- What normalisation promises ----------

  /** A normalised request normalises to itself: what was stored reads back unchanged. */
  lemma NormalisedIsStable(r: Request, l: Limits)
    requires Normalise(r, l).Some?
    ensures Normalise(Normalise(r, l).value, l) == Normalise(r, l)
  {
    TrimTrims(r.wallet);
    TrimTrims(r.approval);
    if r.split.Some? {
      TrimTrims(r.split.value.zat);
    } else {
      RewrittenIsClean(r.outputs, CleanAll(r.outputs), |r.outputs|);
    }
  }

  // ---------- Which requests are accepted ----------

  /** How many characters need more than so many bytes. */
  function Beyond(s: string, limit: char): nat { |set i | 0 <= i < |s| && s[i] >= limit| }

  lemma BeyondOne(s: string, limit: char)
    requires s != ""
    ensures Beyond(s, limit) == Beyond(s[..|s| - 1], limit) + if s[|s| - 1] >= limit then 1 else 0
  {
    var n := |s| - 1;
    var before, all := set i | 0 <= i < n && s[..n][i] >= limit, set i | 0 <= i < |s| && s[i] >= limit;
    assert all == if s[n] >= limit then before + {n} else before;
  }

  /** The length that is limited is that of the UTF-8 text: one byte a character, and one more for each that lies
      beyond what one, two or three bytes can hold. */
  lemma {:induction false} BytesOfText(s: string)
    ensures Bytes(s) == |s| + Beyond(s, '\U{80}') + Beyond(s, '\U{800}') + Beyond(s, '\U{10000}')
  {
    if s != "" {
      BytesOfText(s[..|s| - 1]);
      BeyondOne(s, '\U{80}');
      BeyondOne(s, '\U{800}');
      BeyondOne(s, '\U{10000}');
    }
  }

  function SumOf(amounts: seq<nat>): nat {
    if amounts == [] then 0 else SumOf(amounts[..|amounts| - 1]) + amounts[|amounts| - 1]
  }

  /** The submitted outputs ask for these amounts, each written as its decimal, at addresses of the network. */
  predicate AsksFor(s: seq<Output>, amounts: seq<nat>, l: Limits) {
    |amounts| == |s| && forall k | 0 <= k < |s| ::
      && l.hrp + "1" <= Trim(s[k].to) && Trim(s[k].amount) == Decimal(amounts[k]) && 1 <= amounts[k] <= l.maxAmount
      && IsMemo(Trim(s[k].memo))
  }

  /** Up to 512 bytes, each written as two lower-case hexadecimal digits. */
  predicate IsMemo(m: string) {
    |m| <= 1024 && |m| % 2 == 0 && forall i | 0 <= i < |m| :: m[i] in "0123456789abcdef"
  }

  /** The amounts a list of outputs is read as. */
  function Amounts(s: seq<Output>): (r: seq<nat>)
    ensures |r| == |s| && forall k | 0 <= k < |s| :: r[k] == Amount(Clean(s[k]))
  {
    seq(|s|, k requires 0 <= k < |s| => Amount(Clean(s[k])))
  }

  lemma HexDigits(c: char)
    ensures c in "0123456789abcdef" <==> '0' <= c <= '9' || 'a' <= c <= 'f'
  {
    var digits := "0123456789abcdef";
    if '0' <= c <= '9' {
      assert digits[c as int - '0' as int] == c;
    } else if 'a' <= c <= 'f' {
      assert digits[10 + (c as int - 'a' as int)] == c;
    }
  }

  lemma OneIsRead(o: Output, n: nat, l: Limits)
    requires l.Valid()
    ensures OutputOk(Clean(o), l) && Amount(Clean(o)) == n <==>
              && l.hrp + "1" <= Trim(o.to) && Trim(o.amount) == Decimal(n) && 1 <= n <= l.maxAmount
              && IsMemo(Trim(o.memo))
  {
    AmountsAreCanonical(Trim(o.amount), n);
    var m, digits := Trim(o.memo), "0123456789abcdef";
    forall i | 0 <= i < |m| ensures m[i] in digits <==> '0' <= m[i] <= '9' || 'a' <= m[i] <= 'f' {
      HexDigits(m[i]);
    }
  }

  lemma {:induction false} TotalIsSum(s: seq<Output>, amounts: seq<nat>)
    requires |amounts| == |s| && forall k | 0 <= k < |s| :: amounts[k] == Amount(Clean(s[k]))
    ensures Total(CleanAll(s)) == SumOf(amounts)
  {
    if s != [] {
      var n := |s| - 1;
      TotalIsSum(s[..n], amounts[..n]);
      assert CleanAll(s)[..n] == CleanAll(s[..n]);
    }
  }

  lemma OutputsAcceptedExactlyWhen(s: seq<Output>, l: Limits)
    requires l.Valid()
    ensures OutputsOk(CleanAll(s), l) <==>
              1 <= |s| <= l.maxOutputs && exists amounts :: AsksFor(s, amounts, l) && SumOf(amounts) <= l.maxAmount
  {
    if OutputsOk(CleanAll(s), l) {
      var amounts := Amounts(s);
      forall k | 0 <= k < |s| ensures OutputOk(CleanAll(s)[k], l) { OneIsRead(s[k], amounts[k], l); }
      TotalIsSum(s, amounts);
      assert AsksFor(s, amounts, l) by { forall k | 0 <= k < |s| { OneIsRead(s[k], amounts[k], l); } }
    }
    if 1 <= |s| <= l.maxOutputs && exists amounts :: AsksFor(s, amounts, l) && SumOf(amounts) <= l.maxAmount {
      var amounts :| AsksFor(s, amounts, l) && SumOf(amounts) <= l.maxAmount;
      forall k | 0 <= k < |s| ensures OutputOk(CleanAll(s)[k], l) && amounts[k] == Amount(Clean(s[k])) {
        OneIsRead(s[k], amounts[k], l);
      }
      TotalIsSum(s, amounts);
    }
  }

  /** A split asks for `count` notes of an amount written as its decimal. */
  predicate AsksToSplit(s: NoteSplit, each: nat, l: Limits) {
    2 <= s.count <= l.maxOutputs && Trim(s.zat) == Decimal(each) && 1 <= each && l.minNote <= each
        && each * s.count <= l.maxAmount
  }

  lemma SplitAcceptedExactlyWhen(s: NoteSplit, l: Limits)
    requires l.Valid()
    ensures SplitOk(s.(zat := Trim(s.zat)), l) <==> exists each: nat :: AsksToSplit(s, each, l)
  {
    var zat := ParseDecimal(Trim(s.zat));
    if SplitOk(s.(zat := Trim(s.zat)), l) {
      AmountsAreCanonical(Trim(s.zat), zat.value);
      assert AsksToSplit(s, zat.value, l);
    }
    if exists each: nat :: AsksToSplit(s, each, l) {
      var each: nat :| AsksToSplit(s, each, l);
      MulMono(1, s.count, each);
      AmountsAreCanonical(Trim(s.zat), each);
    }
  }

  /** A request is accepted if and only if it names the wallet and an approval and asks either for outputs whose
      amounts are within the maximum together or for a split within it; what is accepted is the request itself
      with its texts trimmed. */
  lemma AcceptedExactlyWhen(r: Request, l: Limits)
    requires l.Valid()
    ensures Normalise(r, l).Some? <==>
              && Trim(r.wallet) == l.wallet && Trim(r.approval) != "" && Bytes(Trim(r.approval)) <= 128
              && match r.split
                 case None =>
                   && 1 <= |r.outputs| <= l.maxOutputs
                   && exists amounts :: AsksFor(r.outputs, amounts, l) && SumOf(amounts) <= l.maxAmount
                 case Some(s) => r.outputs == [] && exists each: nat :: AsksToSplit(s, each, l)
    ensures Normalise(r, l).Some? ==>
              var n := Normalise(r, l).value;
              && n.wallet == Trim(r.wallet) && n.approval == Trim(r.approval) && |n.outputs| == |r.outputs|
              && (forall k | 0 <= k < |r.outputs| ::
                    n.outputs[k] == Output(Trim(r.outputs[k].to), Trim(r.outputs[k].amount), Trim(r.outputs[k].memo)))
              && n.split == if r.split.None? then None
                            else Some(NoteSplit(r.split.value.count, Trim(r.split.value.zat)))
  {
    match r.split
    case None => OutputsAcceptedExactlyWhen(r.outputs, l);
    case Some(s) => SplitAcceptedExactlyWhen(s, l);
  }

  /** The outputs a plan must start with: the approved ones, or the equal notes of a split paid to oneself. */
  function PlanOutputs(r: Request, change: string): (s: seq<Output>)
    ensures r.split.Some? ==> forall i | 0 <= i < |s| :: s[i] == Output(change, r.split.value.zat, "")
  {
    match r.split
    case None => r.outputs
    case Some(split) => if split.count < 0 then [] else Repeated(Output(change, split.zat, ""), split.count)
  }

  function Repeated(o: Output, n: nat): (s: seq<Output>)
    ensures |s| == n && forall i | 0 <= i < n :: s[i] == o
  {
    if n == 0 then [] else Repeated(o, n - 1) + [o]
  }

  lemma {:induction false} RepeatedTotal(o: Output, n: nat)
    ensures Total(Repeated(o, n)) == Amount(o) * n
  {
    if n > 0 {
      RepeatedTotal(o, n - 1);
      assert Repeated(o, n)[..n - 1] == Repeated(o, n - 1);
      OneMore(Amount(o), n - 1);
    }
  }

  /** An accepted request asks for a positive total within the maximum, over no more outputs than allowed. */
  lemma ApprovedTotal(r: Request, l: Limits, change: string)
    requires l.Valid() && Normalise(r, l).Some?
    ensures var outputs := PlanOutputs(Normalise(r, l).value, change);
            1 <= |outputs| <= l.maxOutputs && 0 < Total(outputs) <= l.maxAmount
  {
    var n := Normalise(r, l).value;
    var outputs := PlanOutputs(n, change);
    if n.split.Some? {
      RepeatedTotal(Output(change, n.split.value.zat, ""), n.split.value.count);
      MulMono(1, Amount(outputs[0]), n.split.value.count);
    } else {
      assert OutputOk(outputs[|outputs| - 1], l);
    }
  }
}
