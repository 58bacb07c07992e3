/**
 The scanner's note summary and the gateway's check of it, in 64-bit arithmetic. The check is proved to say
 exactly what it would say over unbounded integers, and to accept the summary of every list of notes.
 */
module NoteSummary {
  import opened Arithmetic
  import opened Common

  const MAX_INT64: int := 0x7fff_ffff_ffff_ffff

  newtype int64 = x: int | -MAX_INT64 - 1 <= x <= MAX_INT64

  datatype Sum = Sum(count: int64, value: int64)

  datatype Summary = Summary(
    wallet: Token, minConfirmations: int64, minNote: int64, height: int64, hash: string, total: Sum,
    spendable: Sum, smallest: Option<int64>, largest: Option<int64>, immature: Sum,
    pending: Sum, knownExpiries: int64, nextExpiry: Option<int64>, lastExpiry: Option<int64>,
    belowMin: Sum, witnessUnavailable: Sum)

  predicate LowerHexDigit(c: char) { '0' <= c <= '9' || 'a' <= c <= 'f' }

  predicate LowerHex64(s: string) { |s| == 64 && forall i | 0 <= i < |s| :: LowerHexDigit(s[i]) }

  function Buckets(s: Summary): seq<Sum> {
    [s.spendable, s.immature, s.pending, s.belowMin, s.witnessUnavailable]
  }

  // ---------- What the check means, over unbounded integers ----------

  function TotalCount(b: seq<Sum>): int { if b == [] then 0 else TotalCount(b[..|b| - 1]) + b[|b| - 1].count as int }

  function TotalValue(b: seq<Sum>): int { if b == [] then 0 else TotalValue(b[..|b| - 1]) + b[|b| - 1].value as int }

  predicate Sane(b: Sum) { b.count >= 0 && b.value >= 0 && (b.count == 0 ==> b.value == 0) }

  predicate TotalsAgree(s: Summary, maxNotes: int) {
    && (forall i | 0 <= i < |Buckets(s)| :: Sane(Buckets(s)[i]))
    && TotalCount(Buckets(s)) == s.total.count as int && TotalValue(Buckets(s)) == s.total.value as int
    && s.total.count as int <= maxNotes
  }

  /** The spendable value lies between count times the smallest note and count times the largest. */
  predicate SpendableAgrees(s: Summary, minNote: int) {
    if s.spendable.count == 0 then s.smallest.None? && s.largest.None?
    else
      s.smallest.Some? && s.largest.Some? &&
      var count, value, low, high := s.spendable.count as int, s.spendable.value as int, s.smallest.value as int,
          s.largest.value as int;
      0 < low && minNote <= low <= high <= value && low * count <= value <= high * count
  }

  predicate ExpiriesAgree(s: Summary) {
    && 0 <= s.knownExpiries <= s.pending.count
    && if s.knownExpiries == 0 then s.nextExpiry.None? && s.lastExpiry.None?
       else s.nextExpiry.Some? && s.lastExpiry.Some? && s.height <= s.nextExpiry.value <= s.lastExpiry.value
  }

  /** Notes below the minimum are worth at most one zatoshi less than it, and nothing when there is none. */
  predicate BelowMinAgrees(s: Summary, minNote: int) {
    s.belowMin.value as int <= s.belowMin.count as int * Max(minNote - 1, 0)
  }

  predicate IdentityAgrees(s: Summary, wallet: Token, minConfirmations: int64, minNote: int64, maxNotes: int) {
    && s.wallet == wallet && s.minConfirmations == minConfirmations && s.minNote == minNote
    && minConfirmations >= 0 && minNote >= 0 && s.height >= 0 && LowerHex64(s.hash) && maxNotes >= 1
  }

  predicate Valid(s: Summary, wallet: Token, minConfirmations: int64, minNote: int64, maxNotes: int) {
    && IdentityAgrees(s, wallet, minConfirmations, minNote, maxNotes)
    && TotalsAgree(s, maxNotes) && SpendableAgrees(s, minNote as int) && ExpiriesAgree(s)
    && BelowMinAgrees(s, minNote as int)
  }

  // ---------- The check ----------

  method IsLowerHex64(s: string) returns (ok: bool)
    ensures ok == LowerHex64(s)
  {
    if |s| != 64 { return false; }
    for i := 0 to |s|
      invariant forall k | 0 <= k < i :: LowerHexDigit(s[k])
    {
      if !LowerHexDigit(s[i]) { return false; }
    }
    return true;
  }

  /** Adds the buckets up and gives in before a total would overflow. */
  method AddUp(buckets: seq<Sum>) returns (ok: bool, count: int64, value: int64)
    ensures ok <==>
              && (forall i | 0 <= i < |buckets| :: Sane(buckets[i]))
              && TotalCount(buckets) <= MAX_INT64
              && TotalValue(buckets) <= MAX_INT64
    ensures ok ==> count as int == TotalCount(buckets) && value as int == TotalValue(buckets)
  {
    ok, count, value := true, 0, 0;
    var max: int64 := 0x7fff_ffff_ffff_ffff;
    for i := 0 to |buckets|
      invariant ok && count >= 0 && value >= 0 && forall k | 0 <= k < i :: Sane(buckets[k])
      invariant count as int == TotalCount(buckets[..i]) && value as int == TotalValue(buckets[..i])
    {
      var b := buckets[i];
      assert buckets[..i + 1][..i] == buckets[..i];
      if b.count < 0 || b.value < 0 || (b.count == 0 && b.value != 0) {
        assert !Sane(buckets[i]);
        return false, count, value;
      }
      if count > max - b.count || value > max - b.value {
        if forall k | 0 <= k < |buckets| :: Sane(buckets[k]) { TotalsGrow(buckets, i + 1); }
        return false, count, value;
      }
      count, value := count + b.count, value + b.value;
    }
    assert buckets[..|buckets|] == buckets;
  }

  lemma {:induction false} TotalsGrow(b: seq<Sum>, n: nat)
    requires n <= |b| && forall i | 0 <= i < |b| :: Sane(b[i])
    ensures TotalCount(b[..n]) <= TotalCount(b) && TotalValue(b[..n]) <= TotalValue(b)
  {
    if n < |b| {
      var rest := b[..|b| - 1];
      assert forall i | 0 <= i < |rest| :: rest[i] == b[i];
      TotalsGrow(rest, n);
      assert rest[..n] == b[..n];
    } else {
      assert b[..n] == b;
    }
  }

  /** The spendable part; no product is formed that could overflow. */
  method SpendableOk(s: Summary, minNote: int64) returns (ok: bool)
    requires Sane(s.spendable) && minNote >= 0
    ensures ok == SpendableAgrees(s, minNote as int)
  {
    var max: int64 := 0x7fff_ffff_ffff_ffff;
    var n := s.spendable.count;
    if n == 0 { return s.smallest.None? && s.largest.None?; }
    if s.smallest.None? || s.largest.None? { return false; }
    var low, high, value := s.smallest.value, s.largest.value, s.spendable.value;
    if low <= 0 || low < minNote || low > high || high > value { return false; }
    DivIsTimes(low as int, n as int, MAX_INT64);
    DivIsTimes(high as int, n as int, MAX_INT64);
    if low > max / n { return false; }
    Nonnegative(low as int, n as int);
    if low * n > value { return false; }
    if high <= max / n {
      Nonnegative(high as int, n as int);
      if high * n < value { return false; }
    }
    return true;
  }

  method BelowMinOk(s: Summary, minNote: int64) returns (ok: bool)
    requires Sane(s.belowMin) && minNote >= 0
    ensures ok == BelowMinAgrees(s, minNote as int)
  {
    var max: int64 := 0x7fff_ffff_ffff_ffff;
    if s.belowMin.count == 0 { return s.belowMin.value == 0; }
    if minNote == 0 { return s.belowMin.value == 0; }
    var each := minNote - 1;
    if each == 0 { return s.belowMin.value == 0; }
    DivIsTimes(s.belowMin.count as int, each as int, MAX_INT64);
    if s.belowMin.count > max / each { return true; }
    Nonnegative(s.belowMin.count as int, each as int);
    return s.belowMin.value <= s.belowMin.count * each;
  }

  method ValidFor(s: Summary, wallet: Token, minConfirmations: int64, minNote: int64, maxNotes: int64)
    returns (ok: bool)
    ensures ok == Valid(s, wallet, minConfirmations, minNote, maxNotes as int)
  {
    var hex := IsLowerHex64(s.hash);
    if s.wallet != wallet || s.minConfirmations != minConfirmations || s.minNote != minNote ||
       minConfirmations < 0 || minNote < 0 || s.height < 0 || !hex || maxNotes < 1 {
      return false;
    }
    var fits, count, value := AddUp(Buckets(s));
    if !fits { return false; }
    if s.total.count < 0 || s.total.value < 0 || s.total.count > maxNotes || count != s.total.count
       || value != s.total.value {
      TotalsAreNonnegative(Buckets(s));
      return false;
    }
    assert Sane(Buckets(s)[0]) && Sane(Buckets(s)[3]);
    var spendable := SpendableOk(s, minNote);
    if !spendable { return false; }
    if s.knownExpiries < 0 || s.knownExpiries > s.pending.count { return false; }
    if s.knownExpiries == 0 {
      if s.nextExpiry.Some? || s.lastExpiry.Some? { return false; }
    } else if s.nextExpiry.None? || s.lastExpiry.None? || s.nextExpiry.value < s.height
        || s.nextExpiry.value > s.lastExpiry.value {
      return false;
    }
    ok := BelowMinOk(s, minNote);
  }

  lemma TotalsAreNonnegative(b: seq<Sum>)
    requires forall i | 0 <= i < |b| :: Sane(b[i])
    ensures TotalCount(b) >= 0 && TotalValue(b) >= 0
  {
    TotalsGrow(b, 0);
  }

  // ---------- The summary of a list of notes ----------

  datatype Note = Note(value: nat, pendingSpend: bool, expiry: Option<nat>, mature: bool, witnessed: bool)

  datatype Bucket = Spendable | Immature | PendingSpend | BelowMin | WitnessUnavailable

  /** The first bucket that matches, in the documented order; a note worth nothing is never spendable. */
  function BucketOf(n: Note, minNote: nat): Bucket {
    if n.pendingSpend then PendingSpend
    else if !n.mature then Immature
    else if !n.witnessed then WitnessUnavailable
    else if n.value < minNote || n.value == 0 then BelowMin
    else Spendable
  }

  function Values(notes: seq<Note>, b: Bucket, minNote: nat): seq<nat> {
    if notes == [] then []
    else
      Values(notes[..|notes| - 1], b, minNote) +
      if BucketOf(notes[|notes| - 1], minNote) == b then [notes[|notes| - 1].value] else []
  }

  function Expiries(notes: seq<Note>): seq<nat> {
    if notes == [] then []
    else
      var n := notes[|notes| - 1];
      Expiries(notes[..|notes| - 1]) + if n.pendingSpend && n.expiry.Some? then [n.expiry.value] else []
  }

  function SumOf(v: seq<nat>): nat { if v == [] then 0 else SumOf(v[..|v| - 1]) + v[|v| - 1] }

  function WorthOf(notes: seq<Note>): nat {
    if notes == [] then 0 else WorthOf(notes[..|notes| - 1]) + notes[|notes| - 1].value
  }

  function Least(v: seq<nat>): nat
    requires v != []
  {
    if |v| == 1 then v[0] else Min(Least(v[..|v| - 1]), v[|v| - 1])
  }

  function Greatest(v: seq<nat>): nat
    requires v != []
  {
    if |v| == 1 then v[0] else Max(Greatest(v[..|v| - 1]), v[|v| - 1])
  }

  lemma {:induction false} Bounds(v: seq<nat>)
    requires v != []
    ensures Least(v) <= Greatest(v) <= SumOf(v)
    ensures Least(v) in v && Greatest(v) in v
  {
    var n := |v| - 1;
    if n == 0 {
      assert SumOf(v[..0]) == 0;
    } else {
      Bounds(v[..n]);
      assert v == v[..n] + [v[n]];
    }
  }

  lemma {:induction false} Averages(v: seq<nat>)
    requires v != []
    ensures Least(v) * |v| <= SumOf(v) <= Greatest(v) * |v|
  {
    var n := |v| - 1;
    if n == 0 {
      assert SumOf(v[..0]) == 0;
    } else {
      Averages(v[..n]);
      MulMono(Least(v), Least(v[..n]), n);
      MulMono(Greatest(v[..n]), Greatest(v), n);
      OneMore(Least(v), n);
      OneMore(Greatest(v), n);
    }
  }

  function Ones(b: bool): nat { if b then 1 else 0 }

  lemma OneNote(notes: seq<Note>, b: Bucket, m: nat)
    requires notes != []
    ensures var n := |notes| - 1; var here := BucketOf(notes[n], m) == b;
            && |Values(notes, b, m)| == |Values(notes[..n], b, m)| + Ones(here)
            && SumOf(Values(notes, b, m)) == SumOf(Values(notes[..n], b, m)) + if here then notes[n].value else 0
  {
    var before := Values(notes[..|notes| - 1], b, m);
    SumAdds(before, notes[|notes| - 1].value);
    assert before + [] == before;
  }

  lemma SumAdds(v: seq<nat>, x: nat)
    ensures SumOf(v + [x]) == SumOf(v) + x
  {
    assert (v + [x])[..|v|] == v;
  }

  /** The buckets partition the notes. */
  lemma {:induction false} Partition(notes: seq<Note>, m: nat)
    ensures |notes| == |Values(notes, Spendable, m)| + |Values(notes, Immature, m)| + |Values(notes, PendingSpend, m)|
                       + |Values(notes, BelowMin, m)| + |Values(notes, WitnessUnavailable, m)|
    ensures WorthOf(notes) ==
              SumOf(Values(notes, Spendable, m)) + SumOf(Values(notes, Immature, m))
              + SumOf(Values(notes, PendingSpend, m)) + SumOf(Values(notes, BelowMin, m))
              + SumOf(Values(notes, WitnessUnavailable, m))
  {
    if notes != [] {
      Partition(notes[..|notes| - 1], m);
      OneNote(notes, Spendable, m);
      OneNote(notes, Immature, m);
      OneNote(notes, PendingSpend, m);
      OneNote(notes, BelowMin, m);
      OneNote(notes, WitnessUnavailable, m);
    }
  }

  lemma {:induction false} SpendableValues(notes: seq<Note>, m: nat)
    ensures forall x | x in Values(notes, Spendable, m) :: x > 0 && x >= m
  {
    if notes != [] { SpendableValues(notes[..|notes| - 1], m); }
  }

  lemma {:induction false} BelowMinValues(notes: seq<Note>, m: nat)
    ensures SumOf(Values(notes, BelowMin, m)) <= |Values(notes, BelowMin, m)| * Max(m - 1, 0)
  {
    if notes != [] {
      BelowMinValues(notes[..|notes| - 1], m);
      OneNote(notes, BelowMin, m);
      OneMore(Max(m - 1, 0), |Values(notes[..|notes| - 1], BelowMin, m)|);
    }
  }

  predicate ExpiriesFit(notes: seq<Note>, low: nat) {
    forall i | 0 <= i < |notes| && notes[i].pendingSpend && notes[i].expiry.Some? ::
        low <= notes[i].expiry.value <= MAX_INT64
  }

  lemma {:induction false} KnownExpiries(notes: seq<Note>, m: nat, low: nat)
    requires ExpiriesFit(notes, low)
    ensures |Expiries(notes)| <= |Values(notes, PendingSpend, m)|
    ensures forall x | x in Expiries(notes) :: low <= x <= MAX_INT64
  {
    if notes != [] { KnownExpiries(notes[..|notes| - 1], m, low); }
  }

  // ---------- Every list's summary is accepted ----------

  predicate Fits(v: seq<nat>) { |v| <= MAX_INT64 && SumOf(v) <= MAX_INT64 }

  /** What the gateway may be asked to summarise: totals within 64 bits, pending notes that have not expired. */
  predicate Summarisable(notes: seq<Note>, minNote: nat, height: nat) {
    && |notes| <= MAX_INT64 && WorthOf(notes) <= MAX_INT64 && minNote <= MAX_INT64 && height <= MAX_INT64
    && ExpiriesFit(notes, height)
  }

  lemma AllFit(notes: seq<Note>, minNote: nat, height: nat)
    requires Summarisable(notes, minNote, height)
    ensures forall b: Bucket :: Fits(Values(notes, b, minNote))
    ensures |Expiries(notes)| <= |Values(notes, PendingSpend, minNote)|
    ensures forall x | x in Expiries(notes) :: height <= x <= MAX_INT64
  {
    Partition(notes, minNote);
    KnownExpiries(notes, minNote, height);
    forall b: Bucket ensures Fits(Values(notes, b, minNote)) {
      match b case Spendable => case Immature => case PendingSpend => case BelowMin => case WitnessUnavailable =>
    }
  }

  function SumUp(v: seq<nat>): Sum
    requires Fits(v)
  {
    Sum(|v| as int64, SumOf(v) as int64)
  }

  ghost function LeastOf(v: seq<nat>): (r: Option<int64>)
    requires forall x | x in v :: x <= MAX_INT64
  {
    if v == [] then None else Bounds(v); Some(Least(v) as int64)
  }

  ghost function GreatestOf(v: seq<nat>): (r: Option<int64>)
    requires forall x | x in v :: x <= MAX_INT64
  {
    if v == [] then None else Bounds(v); Some(Greatest(v) as int64)
  }

  lemma {:induction false} NoneExceedsSum(v: seq<nat>)
    ensures forall x | x in v :: x <= SumOf(v)
  {
    if v != [] {
      NoneExceedsSum(v[..|v| - 1]);
      assert v == v[..|v| - 1] + [v[|v| - 1]];
    }
  }

  /** The summary the documentation describes. */
  ghost function Summarise(notes: seq<Note>, wallet: Token, minConfirmations: int64, minNote: nat, height: nat,
                           hash: string): Summary
    requires Summarisable(notes, minNote, height)
  {
    AllFit(notes, minNote, height);
    var spendable, pending := Values(notes, Spendable, minNote), Values(notes, PendingSpend, minNote);
    NoneExceedsSum(spendable);
    assert Fits(spendable) && Fits(pending);
    Summary(wallet, minConfirmations, minNote as int64, height as int64, hash,
        Sum(|notes| as int64, WorthOf(notes) as int64),
            SumUp(spendable), LeastOf(spendable), GreatestOf(spendable), SumUp(Values(notes, Immature, minNote)),
            SumUp(pending), |Expiries(notes)| as int64, LeastOf(Expiries(notes)), GreatestOf(Expiries(notes)),
            SumUp(Values(notes, BelowMin, minNote)), SumUp(Values(notes, WitnessUnavailable, minNote)))
  }

  lemma OneTotal(b: seq<Sum>, x: Sum)
    ensures TotalCount(b + [x]) == TotalCount(b) + x.count as int
            && TotalValue(b + [x]) == TotalValue(b) + x.value as int
  {
    assert (b + [x])[..|b|] == b;
  }

  lemma FiveTotals(a: Sum, b: Sum, c: Sum, d: Sum, e: Sum)
    ensures TotalCount([a, b, c, d, e])
            == a.count as int + b.count as int + c.count as int + d.count as int + e.count as int
    ensures TotalValue([a, b, c, d, e])
            == a.value as int + b.value as int + c.value as int + d.value as int + e.value as int
  {
    OneTotal([], a);
    OneTotal([a], b);
    OneTotal([a, b], c);
    OneTotal([a, b, c], d);
    OneTotal([a, b, c, d], e);
    assert [] + [a] == [a] && [a] + [b] == [a, b] && [a, b] + [c] == [a, b, c] && [a, b, c] + [d] == [a, b, c, d];
    assert [a, b, c, d] + [e] == [a, b, c, d, e];
  }

  /** The gateway accepts the summary of every list of notes, whatever their states and values: even ones
      worth nothing, and with any minimum. */
  lemma EverySummaryIsValid(notes: seq<Note>, wallet: Token, minConfirmations: int64, minNote: nat, maxNotes: int,
                            height: nat, hash: string)
    requires Summarisable(notes, minNote, height) && minConfirmations >= 0 && LowerHex64(hash) && maxNotes >= 1
             && |notes| <= maxNotes
    ensures Valid(Summarise(notes, wallet, minConfirmations, minNote, height, hash), wallet, minConfirmations,
            minNote as int64, maxNotes)
  {
    var s := Summarise(notes, wallet, minConfirmations, minNote, height, hash);
    AllFit(notes, minNote, height);
    Partition(notes, minNote);
    assert TotalsAgree(s, maxNotes) by {
      FiveTotals(s.spendable, s.immature, s.pending, s.belowMin, s.witnessUnavailable);
    }
    assert SpendableAgrees(s, minNote) by {
      var v := Values(notes, Spendable, minNote);
      SpendableValues(notes, minNote);
      if v != [] {
        Bounds(v);
        Averages(v);
      }
    }
    assert ExpiriesAgree(s) by {
      if Expiries(notes) != [] { Bounds(Expiries(notes)); }
    }
    assert BelowMinAgrees(s, minNote) by { BelowMinValues(notes, minNote); }
  }

  // ---------- Which accepted summaries are summaries of notes ----------

  /** The smallest and the largest spendable note are two of the counted ones, or the same one. */
  predicate SpendableTight(s: Summary) {
    s.spendable.count > 0 && s.smallest.Some? && s.largest.Some? ==>
      var others, low, high := s.spendable.count as int - 1, s.smallest.value as int, s.largest.value as int;
      low * others + high <= s.spendable.value as int <= low + high * others
  }

  /** What acceptance leaves open: the extremes, and that a single known expiry is both the next and the last. */
  predicate Tight(s: Summary) {
    && SpendableTight(s)
    && (s.knownExpiries == 1 ==> s.nextExpiry == s.lastExpiry)
  }

  /** The summary is the documented one of these notes. */
  ghost predicate SummaryOf(s: Summary, notes: seq<Note>, maxNotes: int)
    requires s.minNote >= 0 && s.height >= 0
  {
    && Summarisable(notes, s.minNote as nat, s.height as nat) && |notes| <= maxNotes
    && Summarise(notes, s.wallet, s.minConfirmations, s.minNote as nat, s.height as nat, s.hash) == s
  }

  /** One spendable note worth five, with a smallest value of three: accepted, and the summary of nothing. */
  function OddSummary(hash: string): Summary {
    Summary(0, 0, 0, 0, hash, Sum(1, 5), Sum(1, 5), Some(3), Some(5), Sum(0, 0), Sum(0, 0), 0, None, None, Sum(0, 0),
        Sum(0, 0))
  }

  lemma OddSummaryIsAccepted(hash: string)
    requires LowerHex64(hash)
    ensures Valid(OddSummary(hash), 0, 0, 0, 1) && !Tight(OddSummary(hash))
    ensures forall notes :: !SummaryOf(OddSummary(hash), notes, 1)
  {
    var s := OddSummary(hash);
    FiveTotals(s.spendable, s.immature, s.pending, s.belowMin, s.witnessUnavailable);
    forall notes ensures !SummaryOf(s, notes, 1) {
      if SummaryOf(s, notes, 1) { SummariesAreTight(s, notes, 1); }
    }
  }

  lemma {:induction false} TightAverages(v: seq<nat>)
    requires v != []
    ensures Least(v) * (|v| - 1) + Greatest(v) <= SumOf(v) <= Least(v) + Greatest(v) * (|v| - 1)
  {
    var n := |v| - 1;
    if n == 0 {
      assert SumOf(v[..0]) == 0;
    } else {
      TightAverages(v[..n]);
      var low, high := Least(v[..n]), Greatest(v[..n]);
      MulMono(Least(v), low, n - 1);
      MulMono(high, Greatest(v), n - 1);
      OneMore(Least(v), n - 1);
      OneMore(Greatest(v), n - 1);
    }
  }

  lemma ValuesAreTight(s: Summary, v: seq<nat>)
    requires Fits(v) && (forall x | x in v :: x <= MAX_INT64)
    requires s.spendable == SumUp(v) && s.smallest == LeastOf(v) && s.largest == GreatestOf(v)
    ensures SpendableTight(s)
  {
    if v != [] {
      Bounds(v);
      TightAverages(v);
    }
  }

  lemma OneExpiryIsBoth(s: Summary, e: seq<nat>)
    requires |e| <= MAX_INT64 && (forall x | x in e :: x <= MAX_INT64)
    requires s.knownExpiries == |e| as int64 && s.nextExpiry == LeastOf(e) && s.lastExpiry == GreatestOf(e)
    ensures s.knownExpiries == 1 ==> s.nextExpiry == s.lastExpiry
  {
  }

  lemma SummariesAreTight(s: Summary, notes: seq<Note>, maxNotes: int)
    requires s.minNote >= 0 && s.height >= 0 && SummaryOf(s, notes, maxNotes)
    ensures Tight(s)
  {
    AllFit(notes, s.minNote as nat, s.height as nat);
    var v := Values(notes, Spendable, s.minNote as nat);
    NoneExceedsSum(v);
    ValuesAreTight(s, v);
    OneExpiryIsBoth(s, Expiries(notes));
  }

  // ---------- Notes for a tight summary ----------

  /** n values between low and high that add up to v, the first ones as large as possible. */
  function Fill(n: nat, v: nat, low: nat, high: nat): (r: seq<nat>)
    requires low <= high && low * n <= v <= high * n
    ensures |r| == n && SumOf(r) == v && forall x | x in r :: low <= x <= high
  {
    if n == 0 then []
    else
      OneMore(low, n - 1);
      OneMore(high, n - 1);
      var x := Min(high, v - low * (n - 1));
      assert low * (n - 1) <= v - x <= high * (n - 1);
      var rest := Fill(n - 1, v - x, low, high);
      SumAdds(rest, x);
      rest + [x]
  }

  /** A note of the bucket. */
  function NoteIn(b: Bucket, value: nat, expiry: Option<nat>): Note {
    match b
    case PendingSpend => Note(value, true, expiry, false, false)
    case Immature => Note(value, false, None, false, false)
    case WitnessUnavailable => Note(value, false, None, true, false)
    case _ => Note(value, false, None, true, true)
  }

  predicate Belongs(value: nat, b: Bucket, m: nat) {
    (b.Spendable? ==> value > 0 && value >= m) && (b.BelowMin? ==> value < m || value == 0)
  }

  /** Notes with these values, the first of them with these expiries. */
  function Group(b: Bucket, values: seq<nat>, expiries: seq<nat>): (r: seq<Note>)
    ensures |r| == |values|
  {
    if values == [] then []
    else
      var n := |values| - 1;
      Group(b, values[..n], expiries) + [NoteIn(b, values[n], if n < |expiries| then Some(expiries[n]) else None)]
  }

  lemma {:induction false} GroupValues(b: Bucket, values: seq<nat>, expiries: seq<nat>, c: Bucket, m: nat)
    requires forall x | x in values :: Belongs(x, b, m)
    ensures Values(Group(b, values, expiries), c, m) == if c == b then values else []
  {
    if values != [] {
      var n := |values| - 1;
      assert values == values[..n] + [values[n]];
      GroupValues(b, values[..n], expiries, c, m);
      var g := Group(b, values, expiries);
      assert g[..|g| - 1] == Group(b, values[..n], expiries);
      assert Belongs(values[n], b, m)
             && BucketOf(NoteIn(b, values[n], if n < |expiries| then Some(expiries[n]) else None), m) == b;
    }
  }

  lemma {:induction false} GroupExpiries(b: Bucket, values: seq<nat>, expiries: seq<nat>)
    ensures Expiries(Group(b, values, expiries)) == if b.PendingSpend? then expiries[..Min(|values|, |expiries|)]
            else []
  {
    if values == [] {
      assert expiries[..0] == [];
    } else {
      var n := |values| - 1;
      GroupExpiries(b, values[..n], expiries);
      var g := Group(b, values, expiries);
      assert g[..|g| - 1] == Group(b, values[..n], expiries);
      assert b.PendingSpend? && n < |expiries| ==> expiries[..n + 1] == expiries[..n] + [expiries[n]];
    }
  }

  lemma {:induction false} GroupExpiriesFit(b: Bucket, values: seq<nat>, expiries: seq<nat>, low: nat)
    requires forall x | x in expiries :: low <= x <= MAX_INT64
    ensures ExpiriesFit(Group(b, values, expiries), low)
  {
    if values != [] {
      var n := |values| - 1;
      GroupExpiriesFit(b, values[..n], expiries, low);
      if n < |expiries| { assert expiries[n] in expiries; }
    }
  }

  lemma JoinFits(a: seq<Note>, b: seq<Note>, low: nat)
    requires ExpiriesFit(a, low) && ExpiriesFit(b, low)
    ensures ExpiriesFit(a + b, low)
  {
  }

  lemma {:induction false} JoinNotes(a: seq<Note>, b: seq<Note>, c: Bucket, m: nat)
    ensures Values(a + b, c, m) == Values(a, c, m) + Values(b, c, m)
  {
    if b == [] {
      assert a + b == a;
    } else {
      var n := |b| - 1;
      assert (a + b)[..|a + b| - 1] == a + b[..n];
      JoinNotes(a, b[..n], c, m);
    }
  }

  lemma {:induction false} JoinExpiries(a: seq<Note>, b: seq<Note>)
    ensures Expiries(a + b) == Expiries(a) + Expiries(b)
  {
    if b == [] {
      assert a + b == a;
    } else {
      var n := |b| - 1;
      assert (a + b)[..|a + b| - 1] == a + b[..n];
      JoinExpiries(a, b[..n]);
    }
  }

  lemma NoExpiriesBefore(a: seq<Note>, b: seq<Note>)
    requires Expiries(a) == []
    ensures Expiries(a + b) == Expiries(b)
  {
    JoinExpiries(a, b);
  }

  lemma NoExpiriesAfter(a: seq<Note>, b: seq<Note>)
    requires Expiries(b) == []
    ensures Expiries(a + b) == Expiries(a)
  {
    JoinExpiries(a, b);
  }

  /** Values for the spendable notes: both extremes, and the rest in between. */
  function SpendableValuesFor(n: nat, v: nat, low: nat, high: nat): (r: seq<nat>)
    requires low <= high && (n > 0 ==> low * (n - 1) + high <= v <= low + high * (n - 1)) && (n == 0 ==> v == 0)
    ensures |r| == n && SumOf(r) == v && (forall x | x in r :: low <= x <= high)
    ensures n > 0 ==> Least(r) == low && Greatest(r) == high
  {
    if n == 0 then []
    else if n == 1 then
      assert [v][..0] == [];
      [v]
    else
      OneMore(low, n - 2);
      OneMore(high, n - 2);
      var inner := Fill(n - 2, v - low - high, low, high);
      Extremes(inner, low, high);
      inner + [low] + [high]
  }

  lemma {:induction false} WithinBounds(v: seq<nat>, low: nat, high: nat)
    requires v != [] && forall x | x in v :: low <= x <= high
    ensures low <= Least(v) && Greatest(v) <= high
  {
    var n := |v| - 1;
    assert v[n] in v;
    if n > 0 {
      forall x | x in v[..n] ensures low <= x <= high { assert x in v; }
      WithinBounds(v[..n], low, high);
    }
  }

  lemma Extremes(inner: seq<nat>, low: nat, high: nat)
    requires low <= high && forall x | x in inner :: low <= x <= high
    ensures var r := inner + [low] + [high];
            && SumOf(r) == SumOf(inner) + low + high && Least(r) == low && Greatest(r) == high
            && forall x | x in r :: low <= x <= high
  {
    var r, s := inner + [low] + [high], inner + [low];
    SumAdds(inner, low);
    SumAdds(s, high);
    WithinBounds(s, low, high);
    assert r[..|r| - 1] == s && s[..|s| - 1] == inner;
  }

  function ExpiriesFor(known: nat, next: nat, last: nat): (r: seq<nat>)
    requires next <= last && (known == 1 ==> next == last)
    ensures |r| == known && (forall x | x in r :: next <= x <= last)
    ensures known > 0 ==> Least(r) == next && Greatest(r) == last
  {
    if known == 0 then []
    else if known == 1 then [next]
    else
      var inner := seq(known - 2, _ => next);
      Extremes(inner, next, last);
      inner + [next] + [last]
  }

  function NotesOf(spendable: seq<nat>, immature: seq<nat>, pending: seq<nat>, expiries: seq<nat>, below: seq<nat>,
                   unseen: seq<nat>): seq<Note> {
    Group(Spendable, spendable, []) + Group(Immature, immature, []) + Group(PendingSpend, pending, expiries)
    + Group(BelowMin, below, []) + Group(WitnessUnavailable, unseen, [])
  }

  lemma NotesOfValues(spendable: seq<nat>, immature: seq<nat>, pending: seq<nat>, expiries: seq<nat>, below: seq<nat>,
                      unseen: seq<nat>,
                      b: Bucket, m: nat)
    requires (forall x | x in spendable :: Belongs(x, Spendable, m))
             && (forall x | x in below :: Belongs(x, BelowMin, m))
    ensures Values(NotesOf(spendable, immature, pending, expiries, below, unseen), b, m) ==
              match b
              case Spendable => spendable
              case Immature => immature
              case PendingSpend => pending
              case BelowMin => below
              case WitnessUnavailable => unseen
  {
    var g1, g2, g3 := Group(Spendable, spendable, []), Group(Immature, immature, []),
        Group(PendingSpend, pending, expiries);
    var g4, g5 := Group(BelowMin, below, []), Group(WitnessUnavailable, unseen, []);
    GroupValues(Spendable, spendable, [], b, m);
    GroupValues(Immature, immature, [], b, m);
    GroupValues(PendingSpend, pending, expiries, b, m);
    GroupValues(BelowMin, below, [], b, m);
    GroupValues(WitnessUnavailable, unseen, [], b, m);
    JoinEmpty(g1, g2, b, m);
    JoinEmpty(g1 + g2, g3, b, m);
    JoinEmpty(g1 + g2 + g3, g4, b, m);
    JoinEmpty(g1 + g2 + g3 + g4, g5, b, m);
  }

  lemma JoinEmpty(a: seq<Note>, g: seq<Note>, c: Bucket, m: nat)
    ensures Values(a, c, m) == [] ==> Values(a + g, c, m) == Values(g, c, m)
    ensures Values(g, c, m) == [] ==> Values(a + g, c, m) == Values(a, c, m)
  {
    JoinNotes(a, g, c, m);
  }

  lemma NotesOfExpiries(spendable: seq<nat>, immature: seq<nat>, pending: seq<nat>, expiries: seq<nat>,
                        below: seq<nat>, unseen: seq<nat>)
    requires |expiries| <= |pending|
    ensures Expiries(NotesOf(spendable, immature, pending, expiries, below, unseen)) == expiries
  {
    var g1, g2, g3 := Group(Spendable, spendable, []), Group(Immature, immature, []),
        Group(PendingSpend, pending, expiries);
    var g4, g5 := Group(BelowMin, below, []), Group(WitnessUnavailable, unseen, []);
    GroupExpiries(Spendable, spendable, []);
    GroupExpiries(Immature, immature, []);
    GroupExpiries(PendingSpend, pending, expiries);
    GroupExpiries(BelowMin, below, []);
    GroupExpiries(WitnessUnavailable, unseen, []);
    assert Expiries(g3) == expiries by { assert expiries[..|expiries|] == expiries; }
    NoExpiriesBefore(g1, g2);
    NoExpiriesBefore(g1 + g2, g3);
    NoExpiriesAfter(g1 + g2 + g3, g4);
    NoExpiriesAfter(g1 + g2 + g3 + g4, g5);
  }

  lemma NotesOfFit(spendable: seq<nat>, immature: seq<nat>, pending: seq<nat>, expiries: seq<nat>, below: seq<nat>,
                   unseen: seq<nat>, low: nat)
    requires forall x | x in expiries :: low <= x <= MAX_INT64
    ensures ExpiriesFit(NotesOf(spendable, immature, pending, expiries, below, unseen), low)
  {
    var g1, g2, g3 := Group(Spendable, spendable, []), Group(Immature, immature, []),
        Group(PendingSpend, pending, expiries);
    var g4, g5 := Group(BelowMin, below, []), Group(WitnessUnavailable, unseen, []);
    GroupExpiriesFit(Spendable, spendable, [], low);
    GroupExpiriesFit(Immature, immature, [], low);
    GroupExpiriesFit(PendingSpend, pending, expiries, low);
    GroupExpiriesFit(BelowMin, below, [], low);
    GroupExpiriesFit(WitnessUnavailable, unseen, [], low);
    JoinFits(g1, g2, low);
    JoinFits(g1 + g2, g3, low);
    JoinFits(g1 + g2 + g3, g4, low);
    JoinFits(g1 + g2 + g3 + g4, g5, low);
  }

  /** Any count and value, as long as nothing is worth nothing. */
  function AnyValues(b: Sum): (r: seq<nat>)
    requires Sane(b)
    ensures |r| == b.count as int && SumOf(r) == b.value as int
  {
    if b.count > 0 then MulMono(1, b.count as int, b.value as int); Nonnegative(b.value as int, b.count as int);
      Fill(b.count as nat, b.value as nat, 0, b.value as nat)
    else []
  }

  function BelowValues(s: Summary): (r: seq<nat>)
    requires Sane(s.belowMin) && s.minNote >= 0 && BelowMinAgrees(s, s.minNote as int)
    ensures |r| == s.belowMin.count as int && SumOf(r) == s.belowMin.value as int
    ensures forall x | x in r :: Belongs(x, BelowMin, s.minNote as nat)
  {
    Fill(s.belowMin.count as nat, s.belowMin.value as nat, 0, Max(s.minNote as int - 1, 0))
  }

  lemma SaneBuckets(s: Summary, maxNotes: int)
    requires TotalsAgree(s, maxNotes)
    ensures Sane(s.spendable) && Sane(s.immature) && Sane(s.pending) && Sane(s.belowMin) && Sane(s.witnessUnavailable)
  {
    var b := Buckets(s);
    assert Sane(b[0]) && Sane(b[1]) && Sane(b[2]) && Sane(b[3]) && Sane(b[4]);
  }

  /** Notes that have an accepted and tight summary. */
  ghost function NotesFor(s: Summary, wallet: Token, minConfirmations: int64, minNote: int64, maxNotes: int): seq<Note>
    requires Valid(s, wallet, minConfirmations, minNote, maxNotes) && Tight(s)
  {
    SaneBuckets(s, maxNotes);
    NotesOf(SpendableOf(s), AnyValues(s.immature), AnyValues(s.pending), ExpiriesOf(s), BelowValues(s),
        AnyValues(s.witnessUnavailable))
  }

  function SpendableOf(s: Summary): (r: seq<nat>)
    requires Sane(s.spendable) && s.minNote >= 0 && SpendableAgrees(s, s.minNote as int) && Tight(s)
    ensures |r| == s.spendable.count as int && SumOf(r) == s.spendable.value as int
    ensures forall x | x in r :: Belongs(x, Spendable, s.minNote as nat)
    ensures r != [] ==>
            s.smallest.Some? && s.largest.Some? && Least(r) == s.smallest.value as int
            && Greatest(r) == s.largest.value as int
  {
    if s.spendable.count == 0 then []
    else SpendableValuesFor(s.spendable.count as nat, s.spendable.value as nat, s.smallest.value as nat,
        s.largest.value as nat)
  }

  function ExpiriesOf(s: Summary): (r: seq<nat>)
    requires s.height >= 0 && ExpiriesAgree(s) && Tight(s)
    ensures |r| == s.knownExpiries as int && forall x | x in r :: s.height as int <= x <= MAX_INT64
    ensures r != [] ==>
            s.nextExpiry.Some? && s.lastExpiry.Some? && Least(r) == s.nextExpiry.value as int
            && Greatest(r) == s.lastExpiry.value as int
  {
    if s.knownExpiries == 0 then []
    else ExpiriesFor(s.knownExpiries as nat, s.nextExpiry.value as nat, s.lastExpiry.value as nat)
  }

  lemma NotesForValues(s: Summary, wallet: Token, minConfirmations: int64, minNote: int64, maxNotes: int, b: Bucket)
    requires Valid(s, wallet, minConfirmations, minNote, maxNotes) && Tight(s)
    ensures var v := Values(NotesFor(s, wallet, minConfirmations, minNote, maxNotes), b, minNote as nat);
            var sum := match b
                       case Spendable => s.spendable
                       case Immature => s.immature
                       case PendingSpend => s.pending
                       case BelowMin => s.belowMin
                       case WitnessUnavailable => s.witnessUnavailable;
            |v| == sum.count as int && SumOf(v) == sum.value as int && (b.Spendable? ==> v == SpendableOf(s))
  {
    SaneBuckets(s, maxNotes);
    NotesOfValues(SpendableOf(s), AnyValues(s.immature), AnyValues(s.pending), ExpiriesOf(s), BelowValues(s),
        AnyValues(s.witnessUnavailable), b, minNote as nat);
  }

  lemma NotesForTotals(s: Summary, wallet: Token, minConfirmations: int64, minNote: int64, maxNotes: int)
    requires Valid(s, wallet, minConfirmations, minNote, maxNotes) && Tight(s)
    ensures var notes := NotesFor(s, wallet, minConfirmations, minNote, maxNotes);
            && |notes| == s.total.count as int <= maxNotes && WorthOf(notes) == s.total.value as int
            && Expiries(notes) == ExpiriesOf(s) && ExpiriesFit(notes, s.height as nat)
  {
    var notes := NotesFor(s, wallet, minConfirmations, minNote, maxNotes);
    Partition(notes, minNote as nat);
    NotesForValues(s, wallet, minConfirmations, minNote, maxNotes, Spendable);
    NotesForValues(s, wallet, minConfirmations, minNote, maxNotes, Immature);
    NotesForValues(s, wallet, minConfirmations, minNote, maxNotes, PendingSpend);
    NotesForValues(s, wallet, minConfirmations, minNote, maxNotes, BelowMin);
    NotesForValues(s, wallet, minConfirmations, minNote, maxNotes, WitnessUnavailable);
    FiveTotals(s.spendable, s.immature, s.pending, s.belowMin, s.witnessUnavailable);
    SaneBuckets(s, maxNotes);
    NotesOfExpiries(SpendableOf(s), AnyValues(s.immature), AnyValues(s.pending), ExpiriesOf(s), BelowValues(s),
        AnyValues(s.witnessUnavailable));
    NotesOfFit(SpendableOf(s), AnyValues(s.immature), AnyValues(s.pending), ExpiriesOf(s), BelowValues(s),
        AnyValues(s.witnessUnavailable), s.height as nat);
  }

  lemma TightHasNotes(s: Summary, wallet: Token, minConfirmations: int64, minNote: int64, maxNotes: int)
    requires Valid(s, wallet, minConfirmations, minNote, maxNotes) && Tight(s)
    ensures SummaryOf(s, NotesFor(s, wallet, minConfirmations, minNote, maxNotes), maxNotes)
  {
    var notes := NotesFor(s, wallet, minConfirmations, minNote, maxNotes);
    NotesForTotals(s, wallet, minConfirmations, minNote, maxNotes);
    AllFit(notes, minNote as nat, s.height as nat);
    NotesForValues(s, wallet, minConfirmations, minNote, maxNotes, Spendable);
    NotesForValues(s, wallet, minConfirmations, minNote, maxNotes, Immature);
    NotesForValues(s, wallet, minConfirmations, minNote, maxNotes, PendingSpend);
    NotesForValues(s, wallet, minConfirmations, minNote, maxNotes, BelowMin);
    NotesForValues(s, wallet, minConfirmations, minNote, maxNotes, WitnessUnavailable);
  }

  /** The accepted summaries that are summaries of some list of notes are exactly the tight ones, and all
      others that are summaries at all would be accepted: a caller can read off which it got. */
  lemma SummaryHasNotesExactlyWhen(s: Summary, wallet: Token, minConfirmations: int64, minNote: int64, maxNotes: int)
    requires IdentityAgrees(s, wallet, minConfirmations, minNote, maxNotes)
    ensures (exists notes :: SummaryOf(s, notes, maxNotes)) <==>
            Valid(s, wallet, minConfirmations, minNote, maxNotes) && Tight(s)
  {
    if Valid(s, wallet, minConfirmations, minNote, maxNotes) && Tight(s) {
      TightHasNotes(s, wallet, minConfirmations, minNote, maxNotes);
    }
    forall notes | SummaryOf(s, notes, maxNotes)
      ensures Valid(s, wallet, minConfirmations, minNote, maxNotes) && Tight(s)
    {
      SummariesAreTight(s, notes, maxNotes);
      EverySummaryIsValid(notes, wallet, minConfirmations, minNote as nat, maxNotes, s.height as nat, s.hash);
    }
  }
}
