/**
 * The negotiation memory ("brain") an agent accumulates: one profile per supplier it has
 * called, keyed by the lowercased supplier name, with price statistics, the categories it
 * was asked about, how willing it was to come down, and a short log of successful tactics.
 * Prices and percentages are exact reals; JavaScript's `Infinity` "no price yet" is `Unpriced`.
 */
module Brain {
  import opened Wrappers
  import opened Text
  import opened Base64
  import opened Storage

  /** `bestPriceUsd`: `Infinity` until a price is known. */
  datatype PriceBound = Unpriced | Priced(usd: real)

  datatype Willingness = Low | Medium | High {
    function Name(): (r: string) {
      match this
      case Low => "low"
      case Medium => "medium"
      case High => "high"
    }
  }

  datatype NegotiationRecord = NegotiationRecord(
    date: string,
    rfqId: string,
    item: string,
    quantity: int,
    unitPriceUsd: real,
    moq: int,
    leadTimeDays: int,
    negotiatedDown: bool,
    openingPriceUsd: Option<real>,
    savingsPercent: Option<real>)

  datatype SupplierProfile = SupplierProfile(
    name: string,
    phone: string,
    totalCalls: int,
    bestPriceUsd: PriceBound,
    avgPriceUsd: real,
    categories: seq<string>,
    willingness: Willingness,
    lastContactedAt: int,
    negotiations: seq<NegotiationRecord>,
    tacticsLog: seq<string>)

  /** The supplier table, in the insertion order of the JavaScript object that holds it. */
  type Suppliers = seq<(string, SupplierProfile)>

  datatype BrainData = BrainData(
    version: int,
    updatedAt: int,
    agentId: string,
    suppliers: Suppliers,
    totalNegotiations: int,
    totalSavingsPercent: real)

  /** `emptyBrain(agentId)`, stamped `now`. */
  function EmptyBrain(agentId: string, now: int): (b: BrainData)
    ensures b.version == 1 && b.agentId == agentId && b.suppliers == []
    ensures b.totalNegotiations == 0 && b.totalSavingsPercent == 0.0
  {
    BrainData(1, now, agentId, [], 0, 0.0)
  }

  // ---------------------------------------------------------------------------------------
  // The supplier table

  predicate HasKey(es: Suppliers, k: string) {
    exists i :: 0 <= i < |es| && es[i].0 == k
  }

  predicate UniqueKeys(es: Suppliers) {
    forall i, j :: 0 <= i < j < |es| ==> es[i].0 != es[j].0
  }

  /** The own entry under `k` (`Object.hasOwn(suppliers, k)` and its value). */
  function Lookup(es: Suppliers, k: string): (r: Option<SupplierProfile>)
    ensures r.Some? <==> HasKey(es, k)
  {
    if es == [] then None
    else if es[0].0 == k then Some(es[0].1)
    else
      assert HasKey(es[1..], k) <==> HasKey(es, k) by {
        if HasKey(es, k) { var i :| 0 <= i < |es| && es[i].0 == k; assert es[1..][i - 1].0 == k; }
      }
      Lookup(es[1..], k)
  }

  /** What a lookup finds is stored under that key: the first entry with it. */
  lemma {:induction false} LookupFound(es: Suppliers, k: string) returns (i: nat)
    requires Lookup(es, k).Some?
    ensures i < |es| && es[i] == (k, Lookup(es, k).value)
    ensures forall j :: 0 <= j < i ==> es[j].0 != k
  {
    if es[0].0 == k {
      i := 0;
    } else {
      var t := LookupFound(es[1..], k);
      i := t + 1;
      assert forall j :: 1 <= j < i ==> es[j] == es[1..][j - 1];
    }
  }

  /** With distinct keys, the entry at any position is what its key looks up. */
  lemma {:induction false} LookupAt(es: Suppliers, i: nat)
    requires UniqueKeys(es) && i < |es|
    ensures Lookup(es, es[i].0) == Some(es[i].1)
    decreases i
  {
    if i > 0 {
      LookupAt(es[1..], i - 1);
    }
  }

  /**
   * The keys that a plain object literal answers from `Object.prototype` when it has no own
   * entry under them, among the all-lowercase keys a lowercased name can be: `suppliers[k]`
   * then finds `Object` or `Object.prototype`, both truthy and neither a profile.
   */
  predicate InheritedKey(k: string) {
    k == "constructor" || k == "__proto__"
  }

  /** What `suppliers[k]` finds on the plain object. */
  datatype Found = Own(profile: SupplierProfile) | Inherited | Absent

  /** `suppliers[k]`: the own entry, else an inherited member, else `undefined`. */
  function Find(es: Suppliers, k: string): (r: Found)
    ensures r.Own? <==> HasKey(es, k)
    ensures r.Own? ==> Lookup(es, k) == Some(r.profile)
    ensures r.Inherited? <==> !HasKey(es, k) && InheritedKey(k)
  {
    match Lookup(es, k)
    case Some(p) => Own(p)
    case None => if InheritedKey(k) then Inherited else Absent
  }

  /** `suppliers[k] = p`. */
  function Put(es: Suppliers, k: string, p: SupplierProfile): (r: Suppliers) {
    if es == [] then [(k, p)]
    else if es[0].0 == k then [(k, p)] + es[1..]
    else [es[0]] + Put(es[1..], k, p)
  }

  lemma TailKey(es: Suppliers, k: string)
    requires es != [] && es[0].0 != k
    ensures HasKey(es[1..], k) <==> HasKey(es, k)
  {
    if HasKey(es, k) { var i :| 0 <= i < |es| && es[i].0 == k; assert es[1..][i - 1].0 == k; }
  }

  /** With distinct keys, an existing key keeps its position and a new one goes last. */
  lemma {:induction false} PutShape(es: Suppliers, k: string, p: SupplierProfile)
    requires UniqueKeys(es)
    ensures var r := Put(es, k, p);
      HasKey(es, k) ==> |r| == |es| && forall i :: 0 <= i < |es| ==> r[i] == (if es[i].0 == k then (k, p) else es[i])
    ensures !HasKey(es, k) ==> Put(es, k, p) == es + [(k, p)]
  {
    if es != [] {
      if es[0].0 == k {
        assert forall i :: 1 <= i < |es| ==> es[i].0 != k;
      } else {
        TailKey(es, k);
        PutShape(es[1..], k, p);
        var r := Put(es, k, p);
        assert r[1..] == Put(es[1..], k, p);
        assert forall i :: 1 <= i < |es| ==> es[1..][i - 1] == es[i];
        if !HasKey(es, k) {
          assert r == [es[0]] + (es[1..] + [(k, p)]);
          assert es == [es[0]] + es[1..];
        }
      }
    }
  }

  /** Only the written key changes. */
  lemma {:induction false} PutLookup(es: Suppliers, k: string, p: SupplierProfile, j: string)
    ensures Lookup(Put(es, k, p), j) == if j == k then Some(p) else Lookup(es, j)
    decreases |es|
  {
    if es != [] && es[0].0 != k {
      PutLookup(es[1..], k, p, j);
      assert Put(es, k, p)[1..] == Put(es[1..], k, p);
    } else if es != [] {
      assert Put(es, k, p)[1..] == es[1..];
    }
  }

  /** Writing adds no entry other than the written one. */
  lemma {:induction false} PutMember(es: Suppliers, k: string, p: SupplierProfile)
    ensures forall e :: e in Put(es, k, p) ==> e in es || e == (k, p)
    decreases |es|
  {
    if es != [] && es[0].0 != k {
      PutMember(es[1..], k, p);
      assert Put(es, k, p) == [es[0]] + Put(es[1..], k, p);
    } else if es != [] {
      assert Put(es, k, p) == [(k, p)] + es[1..];
    }
  }

  /** Keys stay distinct. */
  lemma {:induction false} PutUnique(es: Suppliers, k: string, p: SupplierProfile)
    requires UniqueKeys(es)
    ensures UniqueKeys(Put(es, k, p))
    decreases |es|
  {
    if es != [] && es[0].0 != k {
      PutUnique(es[1..], k, p);
      PutMember(es[1..], k, p);
      var t := Put(es[1..], k, p);
      forall i | 0 <= i < |t|
        ensures t[i].0 != es[0].0
      {
        assert t[i] in t;
        if t[i] in es[1..] {
          var j :| 0 <= j < |es[1..]| && es[1..][j] == t[i];
          assert es[j + 1] == t[i];
        }
      }
      assert Put(es, k, p) == [es[0]] + t;
    } else if es != [] {
      var r := Put(es, k, p);
      assert forall i :: 1 <= i < |r| ==> r[i] == es[i];
    }
  }

  /** Σ totalCalls. */
  function SumCalls(es: Suppliers): (r: int) {
    if es == [] then 0 else es[0].1.totalCalls + SumCalls(es[1..])
  }

  /** Σ negotiations.length. */
  function SumNegotiations(es: Suppliers): (r: nat) {
    if es == [] then 0 else |es[0].1.negotiations| + SumNegotiations(es[1..])
  }

  /** `Object.values(suppliers).flatMap((s) => s.negotiations)`. */
  function AllRecords(es: Suppliers): (r: seq<NegotiationRecord>) {
    if es == [] then [] else es[0].1.negotiations + AllRecords(es[1..])
  }

  /** Replacing a profile changes the call total by the difference of the two profiles' counts. */
  lemma {:induction false} PutSumCalls(es: Suppliers, k: string, p: SupplierProfile)
    ensures SumCalls(Put(es, k, p)) == SumCalls(es) + p.totalCalls
              - (match Lookup(es, k) case Some(q) => q.totalCalls case None => 0)
    decreases |es|
  {
    if es != [] && es[0].0 != k {
      PutSumCalls(es[1..], k, p);
      assert Put(es, k, p)[1..] == Put(es[1..], k, p);
    } else if es != [] {
      assert Put(es, k, p)[1..] == es[1..];
    }
  }

  // ---------------------------------------------------------------------------------------
  // Statistics of one supplier's negotiations

  function Prices(ns: seq<NegotiationRecord>): (ps: seq<real>)
    ensures |ps| == |ns| && forall i :: 0 <= i < |ns| ==> ps[i] == ns[i].unitPriceUsd
  {
    seq(|ns|, i requires 0 <= i < |ns| => ns[i].unitPriceUsd)
  }

  /** `Math.min(...ps)` on a non-empty list. */
  function MinOf(ps: seq<real>): (m: real)
    requires ps != []
    ensures m in ps && forall i :: 0 <= i < |ps| ==> m <= ps[i]
  {
    if |ps| == 1 then ps[0]
    else
      var m := MinOf(ps[..|ps| - 1]);
      assert forall i :: 0 <= i < |ps| - 1 ==> ps[..|ps| - 1][i] == ps[i];
      if ps[|ps| - 1] < m then ps[|ps| - 1] else m
  }

  /** `ps.reduce((a, b) => a + b, 0)`. */
  function SumOf(ps: seq<real>): (r: real) {
    if ps == [] then 0.0 else SumOf(ps[..|ps| - 1]) + ps[|ps| - 1]
  }

  /** The best price: the minimum of all prices, `Infinity` when there are none. */
  function BestOf(ns: seq<NegotiationRecord>): (r: PriceBound) {
    if ns == [] then Unpriced else Priced(MinOf(Prices(ns)))
  }

  /** The best price is unset exactly before the first negotiation, and then is one of the prices and below all. */
  lemma BestIsLowest(ns: seq<NegotiationRecord>)
    ensures ns == [] <==> BestOf(ns).Unpriced?
    ensures BestOf(ns).Priced? ==> (exists i :: 0 <= i < |ns| && ns[i].unitPriceUsd == BestOf(ns).usd)
                                   && forall i :: 0 <= i < |ns| ==> BestOf(ns).usd <= ns[i].unitPriceUsd
  {
    if ns != [] {
      var m := MinOf(Prices(ns));
      var i :| 0 <= i < |ns| && Prices(ns)[i] == m;
    }
  }

  /** The average price: their arithmetic mean (0 before the first negotiation). */
  function AvgOf(ns: seq<NegotiationRecord>): (r: real) {
    if ns == [] then 0.0 else SumOf(Prices(ns)) / (|ns| as real)
  }

  /** How many of the negotiations brought the price down. */
  function CountDown(ns: seq<NegotiationRecord>): (n: nat)
    ensures n <= |ns|
  {
    if ns == [] then 0 else CountDown(ns[..|ns| - 1]) + if ns[|ns| - 1].negotiatedDown then 1 else 0
  }

  /** The three willingness bands: above 0.6 is high, above 0.3 medium, the rest low. */
  function Classify(ratio: real): (w: Willingness)
    ensures w == High <==> ratio > 0.6
    ensures w == Medium <==> 0.3 < ratio <= 0.6
    ensures w == Low <==> ratio <= 0.3
  {
    if ratio > 0.6 then High else if ratio > 0.3 then Medium else Low
  }

  /** The share of negotiations brought down, 0.5 when there are none. */
  function DownRatio(ns: seq<NegotiationRecord>): (r: real) {
    if |ns| > 0 then (CountDown(ns) as real) / (|ns| as real) else 0.5
  }

  function WillingnessOf(ns: seq<NegotiationRecord>): (r: Willingness) {
    Classify(DownRatio(ns))
  }

  /** The categories: the lowercased items, each once, in the order first seen. */
  function Categories(ns: seq<NegotiationRecord>): (r: seq<string>) {
    if ns == [] then []
    else
      var c := Categories(ns[..|ns| - 1]);
      var item := Lower(ns[|ns| - 1].item);
      if item in c then c else c + [item]
  }

  predicate NoDuplicates(s: seq<string>) {
    forall i, j :: 0 <= i < j < |s| ==> s[i] != s[j]
  }

  /** The category list never repeats an entry and holds exactly the lowercased items. */
  lemma {:induction false} CategoriesExact(ns: seq<NegotiationRecord>)
    ensures NoDuplicates(Categories(ns))
    ensures forall x :: x in Categories(ns) <==> exists i :: 0 <= i < |ns| && Lower(ns[i].item) == x
  {
    if ns != [] {
      var p := ns[..|ns| - 1];
      CategoriesExact(p);
      forall x
        ensures x in Categories(ns) <==> exists i :: 0 <= i < |ns| && Lower(ns[i].item) == x
      {
        if x in Categories(p) {
          var i :| 0 <= i < |p| && Lower(p[i].item) == x;
          assert Lower(ns[i].item) == x;
        }
        if i :| 0 <= i < |ns| - 1 && Lower(ns[i].item) == x {
          assert Lower(p[i].item) == x;
        }
      }
    }
  }

  /** Whether a record adds a line to the tactics log. */
  predicate Qualifies(r: NegotiationRecord) {
    r.negotiatedDown && r.savingsPercent.Some? && r.savingsPercent.value > 0.0
  }

  /**
   * The tactics line of a record: date, the saving rendered by `toFixed(1)` (given as
   * `fixed1`), item and quantity.
   */
  function TacticLine(r: NegotiationRecord, fixed1: real -> string): (res: string) {
    r.date + ": Got " + fixed1(r.savingsPercent.GetOr(0.0)) + "% off on " + r.item
      + " (qty " + IntToString(r.quantity) + ")"
  }

  /** The tactics lines of all qualifying records, in order. */
  function TacticLines(ns: seq<NegotiationRecord>, fixed1: real -> string): (r: seq<string>) {
    if ns == [] then []
    else
      var r := ns[|ns| - 1];
      TacticLines(ns[..|ns| - 1], fixed1) + if Qualifies(r) then [TacticLine(r, fixed1)] else []
  }

  /** `s.length > n ? s.slice(-n) : s`. */
  function LastN<T>(s: seq<T>, n: nat): (r: seq<T>)
    ensures |r| <= n || r == s
    ensures |r| <= |s| && r == s[|s| - |r|..]
  {
    if |s| > n then s[|s| - n..] else s
  }

  /** Cutting before appending one more and cutting again keeps the same most recent entries. */
  lemma LastNStep<T>(s: seq<T>, t: T, n: nat)
    requires n >= 1
    ensures LastN(LastN(s, n) + [t], n) == LastN(s + [t], n)
  {
    if |s| > n {
      assert (s[|s| - n..] + [t])[1..] == (s + [t])[|s| + 1 - n..];
    }
  }

  /** The profile a supplier gets on first contact. */
  function FirstContact(name: string, phone: string, now: int): (p: SupplierProfile)
    ensures p.name == name && p.phone == phone && p.totalCalls == 0 && p.bestPriceUsd.Unpriced?
    ensures p.avgPriceUsd == 0.0 && p.categories == [] && p.willingness == Medium
    ensures p.negotiations == [] && p.tacticsLog == []
  {
    SupplierProfile(name, phone, 0, Unpriced, 0.0, [], Medium, now, [], [])
  }

  /**
   * The profile after one more record: one call more, the record appended, price statistics
   * and willingness recomputed over all records, the item's category added when new, and a
   * tactics line kept among the ten most recent when the record qualifies. The first-seen
   * name is kept; phone and contact time are overwritten.
   */
  function RecordedProfile(s: SupplierProfile, phone: string, r: NegotiationRecord, now: int,
                           fixed1: real -> string): (p: SupplierProfile)
  {
    var ns := s.negotiations + [r];
    var item := Lower(r.item);
    s.(totalCalls := s.totalCalls + 1,
       lastContactedAt := now,
       phone := phone,
       negotiations := ns,
       bestPriceUsd := BestOf(ns),
       avgPriceUsd := AvgOf(ns),
       categories := if item in s.categories then s.categories else s.categories + [item],
       willingness := WillingnessOf(ns),
       tacticsLog := if Qualifies(r) then LastN(s.tacticsLog + [TacticLine(r, fixed1)], 10) else s.tacticsLog)
  }

  /** The mean of the positive `savingsPercent` values, 0 when there is none. */
  function Savings(rs: seq<NegotiationRecord>): (r: seq<real>) {
    if rs == [] then []
    else
      var r := rs[|rs| - 1];
      Savings(rs[..|rs| - 1])
        + if r.savingsPercent.Some? && r.savingsPercent.value > 0.0 then [r.savingsPercent.value] else []
  }

  lemma {:induction false} SavingsPositive(rs: seq<NegotiationRecord>)
    ensures forall i :: 0 <= i < |Savings(rs)| ==> Savings(rs)[i] > 0.0
  {
    if rs != [] {
      SavingsPositive(rs[..|rs| - 1]);
    }
  }

  function SavingsMean(rs: seq<NegotiationRecord>): (r: real) {
    var w := Savings(rs);
    if |w| > 0 then SumOf(w) / (|w| as real) else 0.0
  }

  /** The supplier table after a record: the supplier's profile, or a fresh one, recorded into and written back. */
  function Recorded(es: Suppliers, supplierName: string, supplierPhone: string, r: NegotiationRecord,
                    now: int, fixed1: real -> string): (suppliers: Suppliers)
  {
    var key := Lower(supplierName);
    Put(es, key, RecordedProfile(Lookup(es, key).GetOr(FirstContact(supplierName, supplierPhone, now)),
                                 supplierPhone, r, now, fixed1))
  }

  /** The brain-wide figures after the table has become `suppliers`. */
  function Totals(b: BrainData, suppliers: Suppliers, now: int): (r: BrainData) {
    b.(suppliers := suppliers,
       totalNegotiations := b.totalNegotiations + 1,
       totalSavingsPercent := SavingsMean(AllRecords(suppliers)),
       updatedAt := now)
  }

  /** `recordNegotiation` on a brain value when it completes, `now` being the clock. */
  function Record(b: BrainData, supplierName: string, supplierPhone: string, r: NegotiationRecord,
                  now: int, fixed1: real -> string): (b': BrainData)
  {
    Totals(b, Recorded(b.suppliers, supplierName, supplierPhone, r, now, fixed1), now)
  }

  /**
   * `recordNegotiation` on a brain value: the recorded brain, or the `TypeError` thrown at
   * `supplier.negotiations.push` when the lowercased name finds an inherited member, which has
   * no `negotiations` list.
   */
  function RecordOutcome(b: BrainData, supplierName: string, supplierPhone: string, r: NegotiationRecord,
                         now: int, fixed1: real -> string): (o: Result<BrainData>)
    ensures o.Err? <==> !HasKey(b.suppliers, Lower(supplierName)) && InheritedKey(Lower(supplierName))
    ensures o.Ok? ==> o.value.suppliers == Recorded(b.suppliers, supplierName, supplierPhone, r, now, fixed1)
  {
    if Find(b.suppliers, Lower(supplierName)).Inherited? then Err(PushOnInherited)
    else Ok(Record(b, supplierName, supplierPhone, r, now, fixed1))
  }

  const PushOnInherited: string := "TypeError: supplier.negotiations is undefined"

  // ---------------------------------------------------------------------------------------
  // The invariant recordNegotiation keeps

  /** Every statistic of a profile is what its negotiation list determines. */
  predicate ProfileValid(p: SupplierProfile, fixed1: real -> string) {
    p.totalCalls == |p.negotiations|
    && p.bestPriceUsd == BestOf(p.negotiations)
    && p.avgPriceUsd == AvgOf(p.negotiations)
    && p.categories == Categories(p.negotiations)
    && p.willingness == WillingnessOf(p.negotiations)
    && p.tacticsLog == LastN(TacticLines(p.negotiations, fixed1), 10)
  }

  /** An entry sits under the lowercased name of a valid profile. */
  predicate EntryValid(e: (string, SupplierProfile), fixed1: real -> string) {
    e.0 == Lower(e.1.name) && ProfileValid(e.1, fixed1)
  }

  predicate EntriesValid(es: Suppliers, fixed1: real -> string) {
    forall e :: e in es ==> EntryValid(e, fixed1)
  }

  /**
   * A brain built by recording: distinct keys, valid entries, the negotiation total equal to
   * the sum of the call counts, and the savings figure the mean over every stored record.
   */
  predicate BrainValid(b: BrainData, fixed1: real -> string) {
    UniqueKeys(b.suppliers)
    && EntriesValid(b.suppliers, fixed1)
    && b.totalNegotiations == SumCalls(b.suppliers)
    && b.totalSavingsPercent == SavingsMean(AllRecords(b.suppliers))
  }

  lemma EmptyBrainValid(agentId: string, now: int, fixed1: real -> string)
    ensures BrainValid(EmptyBrain(agentId, now), fixed1)
  {
  }

  lemma FirstContactValid(name: string, phone: string, now: int, fixed1: real -> string)
    ensures ProfileValid(FirstContact(name, phone, now), fixed1)
  {
    assert DownRatio([]) == 0.5;
  }

  /** Recording into a valid profile gives a valid profile. */
  lemma RecordedProfileValid(s: SupplierProfile, phone: string, r: NegotiationRecord, now: int,
                             fixed1: real -> string)
    requires ProfileValid(s, fixed1)
    ensures ProfileValid(RecordedProfile(s, phone, r, now, fixed1), fixed1)
  {
    var ns := s.negotiations + [r];
    assert ns[..|ns| - 1] == s.negotiations;
    if Qualifies(r) {
      LastNStep(TacticLines(s.negotiations, fixed1), TacticLine(r, fixed1), 10);
    }
  }

  /** A profile found in valid entries is valid and stored under its lowercased name. */
  lemma LookupValid(es: Suppliers, k: string, fixed1: real -> string)
    requires EntriesValid(es, fixed1)
    ensures var f := Lookup(es, k); f.Some? ==> k == Lower(f.value.name) && ProfileValid(f.value, fixed1)
  {
    if Lookup(es, k).Some? {
      var i := LookupFound(es, k);
      assert es[i] in es;
    }
  }

  /** Writing a valid profile under its lowercased name keeps the entries valid. */
  lemma PutValid(es: Suppliers, p: SupplierProfile, fixed1: real -> string)
    requires EntriesValid(es, fixed1) && ProfileValid(p, fixed1)
    ensures EntriesValid(Put(es, Lower(p.name), p), fixed1)
  {
    PutMember(es, Lower(p.name), p);
    assert EntryValid((Lower(p.name), p), fixed1);
  }

  /** The profile recording writes: a valid one, under its lowercased name. */
  lemma RecordedEntry(es: Suppliers, supplierName: string, supplierPhone: string, r: NegotiationRecord,
                      now: int, fixed1: real -> string)
    requires EntriesValid(es, fixed1)
    ensures var key := Lower(supplierName);
      var p := RecordedProfile(Lookup(es, key).GetOr(FirstContact(supplierName, supplierPhone, now)),
                               supplierPhone, r, now, fixed1);
      key == Lower(p.name) && ProfileValid(p, fixed1)
  {
    var key := Lower(supplierName);
    LookupValid(es, key, fixed1);
    FirstContactValid(supplierName, supplierPhone, now, fixed1);
    var s := Lookup(es, key).GetOr(FirstContact(supplierName, supplierPhone, now));
    RecordedProfileValid(s, supplierPhone, r, now, fixed1);
  }

  /** Recording keeps the keys distinct and every entry valid. */
  lemma RecordedEntries(es: Suppliers, supplierName: string, supplierPhone: string, r: NegotiationRecord,
                        now: int, fixed1: real -> string)
    requires UniqueKeys(es) && EntriesValid(es, fixed1)
    ensures var t := Recorded(es, supplierName, supplierPhone, r, now, fixed1);
      UniqueKeys(t) && EntriesValid(t, fixed1)
  {
    var key := Lower(supplierName);
    var p := RecordedProfile(Lookup(es, key).GetOr(FirstContact(supplierName, supplierPhone, now)),
                             supplierPhone, r, now, fixed1);
    RecordedEntry(es, supplierName, supplierPhone, r, now, fixed1);
    PutValid(es, p, fixed1);
    PutUnique(es, key, p);
  }

  /** Recording adds exactly one call to the table's total. */
  lemma RecordedCalls(es: Suppliers, supplierName: string, supplierPhone: string, r: NegotiationRecord,
                      now: int, fixed1: real -> string)
    ensures SumCalls(Recorded(es, supplierName, supplierPhone, r, now, fixed1)) == SumCalls(es) + 1
  {
    var key := Lower(supplierName);
    var p := RecordedProfile(Lookup(es, key).GetOr(FirstContact(supplierName, supplierPhone, now)),
                             supplierPhone, r, now, fixed1);
    PutSumCalls(es, key, p);
  }

  /** Recording keeps the brain invariant. */
  lemma RecordValid(b: BrainData, supplierName: string, supplierPhone: string, r: NegotiationRecord,
                    now: int, fixed1: real -> string)
    requires BrainValid(b, fixed1)
    ensures BrainValid(Record(b, supplierName, supplierPhone, r, now, fixed1), fixed1)
  {
    RecordedEntries(b.suppliers, supplierName, supplierPhone, r, now, fixed1);
    RecordedCalls(b.suppliers, supplierName, supplierPhone, r, now, fixed1);
  }

  /** In a valid brain the negotiation total is also the number of stored records. */
  lemma {:induction false} TotalsAgree(es: Suppliers, fixed1: real -> string)
    requires EntriesValid(es, fixed1)
    ensures SumCalls(es) == SumNegotiations(es) == |AllRecords(es)|
  {
    if es != [] {
      assert es[0] in es;
      assert forall e :: e in es[1..] ==> e in es;
      TotalsAgree(es[1..], fixed1);
    }
  }

  /** What one record does to the brain: one negotiation more, under this supplier only. */
  lemma RecordEffect(b: BrainData, supplierName: string, supplierPhone: string, r: NegotiationRecord,
                     now: int, fixed1: real -> string, other: string)
    ensures var b' := Record(b, supplierName, supplierPhone, r, now, fixed1);
      var old_ := Lookup(b.suppliers, Lower(supplierName));
      var new_ := Lookup(b'.suppliers, Lower(supplierName));
      b'.totalNegotiations == b.totalNegotiations + 1 && b'.version == b.version && b'.agentId == b.agentId
      && new_.Some?
      && new_.value.negotiations == (if old_.Some? then old_.value.negotiations else []) + [r]
      && new_.value.totalCalls == (if old_.Some? then old_.value.totalCalls else 0) + 1
      && new_.value.name == (if old_.Some? then old_.value.name else supplierName)
      && new_.value.phone == supplierPhone
      && (other != Lower(supplierName) ==> Lookup(b'.suppliers, other) == Lookup(b.suppliers, other))
  {
    var key := Lower(supplierName);
    var s := Lookup(b.suppliers, key).GetOr(FirstContact(supplierName, supplierPhone, now));
    var p := RecordedProfile(s, supplierPhone, r, now, fixed1);
    PutLookup(b.suppliers, key, p, key);
    PutLookup(b.suppliers, key, p, other);
  }

  /** The tactics log grows only for a qualifying record, and then holds at most ten lines, newest last. */
  lemma TacticsBound(s: SupplierProfile, phone: string, r: NegotiationRecord, now: int, fixed1: real -> string)
    ensures var t := RecordedProfile(s, phone, r, now, fixed1).tacticsLog;
      (!Qualifies(r) ==> t == s.tacticsLog)
      && (Qualifies(r) ==> |t| <= 10 && |t| >= 1 && t[|t| - 1] == TacticLine(r, fixed1)
                           && t == (s.tacticsLog + [TacticLine(r, fixed1)])[|s.tacticsLog| + 1 - |t|..])
  {
  }

  /** Exactly 0.6 is still medium and exactly 0.3 is low. */
  lemma ClassifyEdges()
    ensures Classify(0.6) == Medium && Classify(0.3) == Low
  {
  }

  /** The mean of the positive savings is positive exactly when some record has a positive saving. */
  lemma SavingsMeanPositive(rs: seq<NegotiationRecord>)
    ensures SavingsMean(rs) > 0.0 <==> |Savings(rs)| > 0
    ensures SavingsMean(rs) == 0.0 <==> |Savings(rs)| == 0
  {
    var w := Savings(rs);
    if |w| > 0 {
      SavingsPositive(rs);
      SumPositive(w);
      QuotientPositive(SumOf(w), |w| as real);
    }
  }

  lemma QuotientPositive(a: real, b: real)
    requires a > 0.0 && b > 0.0
    ensures a / b > 0.0
  {
  }

  lemma {:induction false} SumPositive(ps: seq<real>)
    requires ps != [] && forall i :: 0 <= i < |ps| ==> ps[i] > 0.0
    ensures SumOf(ps) > 0.0
  {
    if |ps| > 1 {
      SumPositive(ps[..|ps| - 1]);
    }
  }

  // ---------------------------------------------------------------------------------------
  // Loading

  /** A profile as parsed from JSON: `null` numbers and missing lists are possible. */
  datatype RawProfile = RawProfile(
    name: string,
    phone: string,
    totalCalls: int,
    bestPriceUsd: Option<real>,
    avgPriceUsd: Option<real>,
    categories: Option<seq<string>>,
    willingness: Willingness,
    lastContactedAt: int,
    negotiations: Option<seq<NegotiationRecord>>,
    tacticsLog: Option<seq<string>>)

  /** A brain as parsed from JSON; a missing or zero `version` is 0. */
  datatype RawBrain = RawBrain(
    version: int,
    updatedAt: int,
    agentId: string,
    suppliers: seq<(string, RawProfile)>,
    totalNegotiations: int,
    totalSavingsPercent: real)

  /** The repair `sanitizeBrain` applies to one profile. */
  function SanitizeProfile(p: RawProfile): (r: SupplierProfile) {
    SupplierProfile(
      p.name, p.phone, p.totalCalls,
      match p.bestPriceUsd case None => Unpriced case Some(v) => Priced(v),
      p.avgPriceUsd.GetOr(0.0),
      p.categories.GetOr([]),
      p.willingness,
      p.lastContactedAt,
      p.negotiations.GetOr([]),
      p.tacticsLog.GetOr([]))
  }

  function Sanitize(raw: RawBrain): (b: BrainData)
    ensures |b.suppliers| == |raw.suppliers|
    ensures forall i :: 0 <= i < |raw.suppliers| ==>
              b.suppliers[i] == (raw.suppliers[i].0, SanitizeProfile(raw.suppliers[i].1))
  {
    BrainData(raw.version, raw.updatedAt, raw.agentId,
              seq(|raw.suppliers|, i requires 0 <= i < |raw.suppliers| =>
                    (raw.suppliers[i].0, SanitizeProfile(raw.suppliers[i].1))),
              raw.totalNegotiations, raw.totalSavingsPercent)
  }

  /** `sanitizeBrain(brain)`: the loop that repairs every profile in turn. */
  method SanitizeBrain(raw: RawBrain) returns (b: BrainData)
    ensures b == Sanitize(raw)
  {
    var fixed: Suppliers := [];
    for i := 0 to |raw.suppliers|
      invariant |fixed| == i
      invariant forall k :: 0 <= k < i ==> fixed[k] == (raw.suppliers[k].0, SanitizeProfile(raw.suppliers[k].1))
    {
      var s := raw.suppliers[i].1;
      var best := if s.bestPriceUsd.None? then Unpriced else Priced(s.bestPriceUsd.value);
      var avg := if s.avgPriceUsd.None? then 0.0 else s.avgPriceUsd.value;
      var negotiations := if s.negotiations.None? then [] else s.negotiations.value;
      var tactics := if s.tacticsLog.None? then [] else s.tacticsLog.value;
      var categories := if s.categories.None? then [] else s.categories.value;
      fixed := fixed + [(raw.suppliers[i].0, SupplierProfile(s.name, s.phone, s.totalCalls, best, avg, categories,
                                                             s.willingness, s.lastContactedAt, negotiations, tactics))];
    }
    b := BrainData(raw.version, raw.updatedAt, raw.agentId, fixed, raw.totalNegotiations, raw.totalSavingsPercent);
  }

  /** What `JSON.stringify` then `JSON.parse` make of a profile: `Infinity` comes back as `null`. */
  function ProfileToRaw(p: SupplierProfile): (r: RawProfile) {
    RawProfile(p.name, p.phone, p.totalCalls,
               match p.bestPriceUsd case Unpriced => None case Priced(v) => Some(v),
               Some(p.avgPriceUsd), Some(p.categories), p.willingness, p.lastContactedAt,
               Some(p.negotiations), Some(p.tacticsLog))
  }

  function ToRaw(b: BrainData): (r: RawBrain) {
    RawBrain(b.version, b.updatedAt, b.agentId,
             seq(|b.suppliers|, i requires 0 <= i < |b.suppliers| => (b.suppliers[i].0, ProfileToRaw(b.suppliers[i].1))),
             b.totalNegotiations, b.totalSavingsPercent)
  }

  /** Sanitizing undoes the JSON round trip: a stored brain loads back as it was. */
  lemma SanitizeRoundTrip(b: BrainData)
    ensures Sanitize(ToRaw(b)) == b
  {
    var s := Sanitize(ToRaw(b)).suppliers;
    assert forall i :: 0 <= i < |b.suppliers| ==> SanitizeProfile(ProfileToRaw(b.suppliers[i].1)) == b.suppliers[i].1;
    assert s == b.suppliers;
  }

  /** `data && typeof data === "object" && data.version`, then the repair. */
  function Accept(v: JsonValue<RawBrain>): (r: Option<BrainData>)
    ensures r.Some? <==> v.Object? && v.fields.version != 0
    ensures r.Some? ==> r.value == Sanitize(v.fields)
  {
    if v.Object? && v.fields.version != 0 then Some(Sanitize(v.fields)) else None
  }

  /**
   * The on-chain attempt: `uri` is the profile's `brainBundleURI` (`None` when the lookup
   * threw), `download` is `downloadJSON` on a root hash, `parse` is `JSON.parse` on the
   * decoded bytes (`None` when it threw).
   */
  function FromChain(uri: Option<string>, download: string -> JsonValue<RawBrain>,
                     parse: seq<byte> -> Option<JsonValue<RawBrain>>): (r: Option<BrainData>)
  {
    if uri.None? then None
    else if StartsWith(uri.value, NativeScheme) then Accept(download(uri.value[|NativeScheme|..]))
    else if StartsWith(uri.value, InlineScheme) then
      match Decode(uri.value[|InlineScheme|..])
      case None => None
      case Some(bytes) =>
        match parse(bytes)
        case None => None
        case Some(v) => Accept(v)
    else None
  }

  /** The brain a cache miss produces: from the chain, else the local file, else a fresh one. */
  function Loaded(key: string, uri: Option<string>, download: string -> JsonValue<RawBrain>,
                  parse: seq<byte> -> Option<JsonValue<RawBrain>>, local: Option<RawBrain>, now: int): (b: BrainData)
  {
    match FromChain(uri, download, parse)
    case Some(b) => b
    case None =>
      match local
      case Some(l) => Sanitize(l)
      case None => EmptyBrain(key, now)
  }

  /** A brain saved as an inline `json://` URI loads back unchanged. */
  lemma InlineBrainLoads(b: BrainData, json: seq<byte>, parse: seq<byte> -> Option<JsonValue<RawBrain>>,
                         download: string -> JsonValue<RawBrain>)
    requires b.version != 0 && parse(json) == Some(Object(ToRaw(b)))
    ensures FromChain(Some(InlineScheme + Encode(json)), download, parse) == Some(b)
  {
    var u := InlineScheme + Encode(json);
    assert StartsWith(u, InlineScheme);
    assert !StartsWith(u, NativeScheme) by { assert u[0] == 'j'; }
    assert u[|InlineScheme|..] == Encode(json);
    RoundTrip(json);
    SanitizeRoundTrip(b);
  }

  /** A brain saved as a `0g://` blob loads back unchanged. */
  lemma NativeBrainLoads(b: BrainData, rootHash: string, parse: seq<byte> -> Option<JsonValue<RawBrain>>,
                         download: string -> JsonValue<RawBrain>)
    requires b.version != 0 && download(rootHash) == Object(ToRaw(b))
    ensures FromChain(Some(NativeScheme + rootHash), download, parse) == Some(b)
  {
    var u := NativeScheme + rootHash;
    assert StartsWith(u, NativeScheme) && u[|NativeScheme|..] == rootHash;
    SanitizeRoundTrip(b);
  }

  /** A URI of any other scheme, or none at all, leaves the decision to the local file. */
  lemma OtherSchemeFallsBack(key: string, uri: Option<string>, download: string -> JsonValue<RawBrain>,
                             parse: seq<byte> -> Option<JsonValue<RawBrain>>, local: Option<RawBrain>, now: int)
    requires uri.None? || (!StartsWith(uri.value, NativeScheme) && !StartsWith(uri.value, InlineScheme))
    ensures Loaded(key, uri, download, parse, local, now)
              == if local.Some? then Sanitize(local.value) else EmptyBrain(key, now)
  {
  }

  /** The profile updates of `recordNegotiation`, field by field as they are made. */
  method UpdateProfile(s: SupplierProfile, supplierPhone: string, record: NegotiationRecord, now: int,
                       fixed1: real -> string) returns (supplier: SupplierProfile)
    ensures supplier == RecordedProfile(s, supplierPhone, record, now, fixed1)
  {
    supplier := s.(totalCalls := s.totalCalls + 1, lastContactedAt := now, phone := supplierPhone);
    supplier := supplier.(negotiations := supplier.negotiations + [record]);
    var prices := Prices(supplier.negotiations);
    supplier := supplier.(bestPriceUsd := Priced(MinOf(prices)),
                          avgPriceUsd := SumOf(prices) / (|prices| as real));
    var itemLower := Lower(record.item);
    if itemLower !in supplier.categories {
      supplier := supplier.(categories := supplier.categories + [itemLower]);
    }
    supplier := supplier.(willingness := Classify(DownRatio(supplier.negotiations)));
    if Qualifies(record) {
      var log := supplier.tacticsLog + [TacticLine(record, fixed1)];
      if |log| > 10 {
        log := log[|log| - 10..];
      }
      supplier := supplier.(tacticsLog := log);
    }
  }

  /**
   * The table updates of `recordNegotiation`: look the supplier up, create it when nothing is
   * found, update it and write it back. An inherited member is truthy, so it is updated in
   * place of a profile, and the update throws at `negotiations.push`.
   */
  method RecordSupplier(es: Suppliers, supplierName: string, supplierPhone: string, record: NegotiationRecord,
                        now: int, fixed1: real -> string) returns (r: Result<Suppliers>)
    ensures r.Err? <==> Find(es, Lower(supplierName)).Inherited?
    ensures r.Ok? ==> r.value == Recorded(es, supplierName, supplierPhone, record, now, fixed1)
  {
    var supplierKey := Lower(supplierName);
    var supplier: SupplierProfile;
    match Find(es, supplierKey) {
      case Own(p) => supplier := p;
      case Absent => supplier := FirstContact(supplierName, supplierPhone, now);
      case Inherited => return Err(PushOnInherited);
    }
    supplier := UpdateProfile(supplier, supplierPhone, record, now, fixed1);
    r := Ok(Put(es, supplierKey, supplier));
  }

  /** The global statistics of `recordNegotiation`: one negotiation more, the savings mean over all records. */
  method UpdateTotals(b: BrainData, suppliers: Suppliers, now: int) returns (brain: BrainData)
    ensures brain == Totals(b, suppliers, now)
  {
    var withSavings := Savings(AllRecords(suppliers));
    brain := b.(suppliers := suppliers, totalNegotiations := b.totalNegotiations + 1);
    brain := brain.(totalSavingsPercent := if |withSavings| > 0 then SumOf(withSavings) / (|withSavings| as real) else 0.0);
    brain := brain.(updatedAt := now);
  }

  // ---------------------------------------------------------------------------------------
  // The module-level cache and the operations on it

  /** The in-memory `brains` map, keyed by the decimal agent id. */
  class BrainCache {
    var brains: map<string, BrainData>

    constructor ()
      ensures brains == map[]
    {
      brains := map[];
    }

    /** `getBrain(agentId)`. */
    function GetBrain(key: string): (r: Option<BrainData>)
      reads this
      ensures r.Some? <==> key in brains
      ensures r.Some? ==> r.value == brains[key]
    {
      if key in brains then Some(brains[key]) else None
    }

    /**
     * `loadBrain(agentId)`: a cached brain is returned as is; otherwise the on-chain URI is
     * tried (`0g://` download, then inline `json://`, each accepted only as an object with a
     * truthy version), then the local file, then a fresh brain. Whatever is found is cached.
     */
    method LoadBrain(agentId: int, uri: Option<string>, download: string -> JsonValue<RawBrain>,
                     parse: seq<byte> -> Option<JsonValue<RawBrain>>, local: Option<RawBrain>, now: int)
      returns (b: BrainData)
      modifies this
      ensures var key := IntToString(agentId);
        key in old(brains) ==> b == old(brains)[key] && brains == old(brains)
      ensures var key := IntToString(agentId);
        key !in old(brains) ==> b == Loaded(key, uri, download, parse, local, now) && brains == old(brains)[key := b]
    {
      var key := IntToString(agentId);
      if key in brains {
        return brains[key];
      }
      var fromChain := FromChain(uri, download, parse);
      if fromChain.Some? {
        b := fromChain.value;
        brains := brains[key := b];
        return;
      }
      if local.Some? {
        b := SanitizeBrain(local.value);
        brains := brains[key := b];
        return;
      }
      b := EmptyBrain(key, now);
      brains := brains[key := b];
    }

    /**
     * `recordNegotiation(agentId, supplierName, supplierPhone, record)` up to the point where
     * the brain is cached; `now` is the clock and `fixed1` renders a saving with one decimal.
     * The result is the brain cached, or the error thrown, in which case nothing is cached.
     */
    method RecordNegotiation(agentId: int, supplierName: string, supplierPhone: string,
                             record: NegotiationRecord, now: int, fixed1: real -> string)
      returns (r: Result<BrainData>)
      modifies this
      ensures var key := IntToString(agentId);
        var before := if key in old(brains) then old(brains)[key] else EmptyBrain(key, now);
        r == RecordOutcome(before, supplierName, supplierPhone, record, now, fixed1)
      ensures r.Ok? ==> brains == old(brains)[IntToString(agentId) := r.value]
      ensures r.Err? ==> brains == old(brains)
    {
      var key := IntToString(agentId);
      var brain := if key in brains then brains[key] else EmptyBrain(key, now);
      var suppliers := RecordSupplier(brain.suppliers, supplierName, supplierPhone, record, now, fixed1);
      if suppliers.Err? {
        return Err(PushOnInherited);
      }
      brain := UpdateTotals(brain, suppliers.value, now);
      brains := brains[key := brain];
      r := Ok(brain);
    }
  }

  // ---------------------------------------------------------------------------------------
  // Reading the brain

  /**
   * `findSupplier(brain, name)`: a case-insensitive lookup on the plain object, which finds an
   * inherited member for "constructor" and "__proto__" when no such supplier was stored.
   */
  function FindSupplier(b: BrainData, supplierName: string): (r: Found)
    ensures r.Own? <==> HasKey(b.suppliers, Lower(supplierName))
    ensures r.Inherited? <==> !HasKey(b.suppliers, Lower(supplierName)) && InheritedKey(Lower(supplierName))
  {
    Find(b.suppliers, Lower(supplierName))
  }

  /**
   * When recording completes, the supplier is then found under any spelling with the same
   * lowercase, holding the records it had with this one appended.
   */
  lemma RecordThenFind(b: BrainData, supplierName: string, spelling: string, supplierPhone: string,
                       r: NegotiationRecord, now: int, fixed1: real -> string)
    requires Lower(spelling) == Lower(supplierName)
    ensures var o := RecordOutcome(b, supplierName, supplierPhone, r, now, fixed1);
      var before := FindSupplier(b, spelling);
      o.Ok? ==> var p := FindSupplier(o.value, spelling);
        p.Own? && p.profile.negotiations == (if before.Own? then before.profile.negotiations else []) + [r]
  {
    var key := Lower(supplierName);
    var s := Lookup(b.suppliers, key).GetOr(FirstContact(supplierName, supplierPhone, now));
    PutLookup(b.suppliers, key, RecordedProfile(s, supplierPhone, r, now, fixed1), key);
  }

  /** A supplier counts as a competitor under another lowercased name and with a finite positive best price. */
  predicate IsCompetitor(p: SupplierProfile, supplierName: string) {
    Lower(p.name) != Lower(supplierName) && p.bestPriceUsd.Priced? && p.bestPriceUsd.usd > 0.0
  }

  /** The lowest best price among the competitors: the head of the list sorted by best price. */
  function LowestCompetitor(es: Suppliers, supplierName: string): (r: Option<real>)
    ensures r.None? <==> forall i :: 0 <= i < |es| ==> !IsCompetitor(es[i].1, supplierName)
    ensures r.Some? ==> exists i :: 0 <= i < |es| && IsCompetitor(es[i].1, supplierName) && es[i].1.bestPriceUsd.usd == r.value
    ensures r.Some? ==> forall i :: 0 <= i < |es| && IsCompetitor(es[i].1, supplierName) ==> r.value <= es[i].1.bestPriceUsd.usd
  {
    if es == [] then None
    else
      var rest := LowestCompetitor(es[1..], supplierName);
      assert forall i :: 1 <= i < |es| ==> es[1..][i - 1] == es[i];
      var p := es[0].1;
      if !IsCompetitor(p, supplierName) then rest
      else if rest.Some? && rest.value < p.bestPriceUsd.usd then rest
      else Some(p.bestPriceUsd.usd)
  }

  /** `toFixed(2)` of a best price: `Infinity` renders as "Infinity". */
  function PriceText(p: PriceBound, fixed2: real -> string): (r: string) {
    match p
    case Unpriced => "Infinity"
    case Priced(v) => fixed2(v)
  }

  /** The context lines for the prompt: what is known about this supplier, then the competitor price. */
  function ContextLines(b: BrainData, supplierName: string, fixed2: real -> string): (lines: seq<string>)
    ensures var s := FindSupplier(b, supplierName);
      |lines| == (if !s.Own? then 0 else if s.profile.negotiations == [] then 2 else 3)
                 + (if LowestCompetitor(b.suppliers, supplierName).Some? then 1 else 0)
  {
    var own :=
      match FindSupplier(b, supplierName)
      case Own(s) =>
        ["This supplier has been called " + IntToString(s.totalCalls) + " time(s) before.",
         "Best price achieved: $" + PriceText(s.bestPriceUsd, fixed2) + "/unit. Willingness to negotiate: "
           + s.willingness.Name() + "."]
        + if s.negotiations == [] then []
          else
            var last := s.negotiations[|s.negotiations| - 1];
            ["Last deal: $" + fixed2(last.unitPriceUsd) + "/unit for " + last.item + " (" + last.date + ")."]
      case _ => [];
    own + match LowestCompetitor(b.suppliers, supplierName)
      case None => []
      case Some(low) => [CompetitorLead + fixed2(low) + "/unit."]
  }

  const CompetitorLead: string := "Another supplier has quoted as low as $"

  /**
   * The supplier lines say how often it was called, its best price and willingness, and its
   * last deal's price, item and date when there is one.
   */
  lemma ContextOwnLines(b: BrainData, supplierName: string, fixed2: real -> string)
    ensures var f := FindSupplier(b, supplierName);
      var lines := ContextLines(b, supplierName, fixed2);
      f.Own? ==>
        var s := f.profile;
        && Contains(lines[0], IntToString(s.totalCalls))
        && Contains(lines[1], PriceText(s.bestPriceUsd, fixed2)) && Contains(lines[1], s.willingness.Name())
        && (s.negotiations != [] ==>
              var last := s.negotiations[|s.negotiations| - 1];
              Contains(lines[2], fixed2(last.unitPriceUsd)) && Contains(lines[2], last.item)
              && Contains(lines[2], last.date))
  {
    var f := FindSupplier(b, supplierName);
    if f.Own? {
      var s := f.profile;
      var lines := ContextLines(b, supplierName, fixed2);
      ContainsWithin("This supplier has been called ", IntToString(s.totalCalls), " time(s) before.");
      PriceLineShows(PriceText(s.bestPriceUsd, fixed2), s.willingness.Name());
      if s.negotiations != [] {
        var last := s.negotiations[|s.negotiations| - 1];
        DealLineShows(fixed2(last.unitPriceUsd), last.item, last.date);
        assert lines[2] == "Last deal: $" + fixed2(last.unitPriceUsd) + "/unit for " + last.item + " ("
                           + last.date + ").";
      }
    }
  }

  lemma PriceLineShows(price: string, will: string)
    ensures var line := "Best price achieved: $" + price + "/unit. Willingness to negotiate: " + will + ".";
      Contains(line, price) && Contains(line, will)
  {
    var head := "Best price achieved: $" + price;
    var mid := head + "/unit. Willingness to negotiate: ";
    ContainsEnd("Best price achieved: $", price);
    ContainsExtend(head, price, "/unit. Willingness to negotiate: ");
    ContainsExtend(mid, price, will);
    ContainsExtend(mid + will, price, ".");
    ContainsWithin(mid, will, ".");
  }

  lemma DealLineShows(usd: string, item: string, date: string)
    ensures var line := "Last deal: $" + usd + "/unit for " + item + " (" + date + ").";
      Contains(line, usd) && Contains(line, item) && Contains(line, date)
  {
    var l0 := "Last deal: $" + usd;
    var l1 := l0 + "/unit for ";
    var l2 := l1 + item;
    var l3 := l2 + " (";
    var l4 := l3 + date;
    ContainsEnd("Last deal: $", usd);
    ContainsExtend(l0, usd, "/unit for ");
    ContainsExtend(l1, usd, item);
    ContainsExtend(l2, usd, " (");
    ContainsExtend(l3, usd, date);
    ContainsExtend(l4, usd, ").");
    ContainsEnd(l1, item);
    ContainsExtend(l2, item, " (");
    ContainsExtend(l3, item, date);
    ContainsExtend(l4, item, ").");
    ContainsWithin(l3, date, ").");
  }

  /** The last line is the competitor line exactly when there is a competitor price, and it shows that price. */
  lemma ContextCompetitorLine(b: BrainData, supplierName: string, fixed2: real -> string)
    ensures var lines := ContextLines(b, supplierName, fixed2);
      var low := LowestCompetitor(b.suppliers, supplierName);
      && (low.Some? <==> |lines| > 0 && StartsWith(lines[|lines| - 1], CompetitorLead))
      && (low.Some? ==> Contains(lines[|lines| - 1], fixed2(low.value)))
  {
    var lines := ContextLines(b, supplierName, fixed2);
    var low := LowestCompetitor(b.suppliers, supplierName);
    if low.Some? {
      ContainsWithin(CompetitorLead, fixed2(low.value), "/unit.");
      assert lines[|lines| - 1] == CompetitorLead + fixed2(low.value) + "/unit.";
    } else if |lines| > 0 {
      var line := lines[|lines| - 1];
      assert line[0] in {'T', 'B', 'L'};
      assert CompetitorLead[0] == 'A';
    }
  }

  datatype SupplierContext = SupplierContext(context: string, lowestCompetitorPrice: Option<real>)

  /**
   * `buildSupplierContext(brain, supplierName)`; it reads the brain and changes nothing. An
   * inherited member has no `bestPriceUsd`, so `toFixed` throws on it.
   */
  function BuildSupplierContext(b: BrainData, supplierName: string, fixed2: real -> string): (r: Result<SupplierContext>)
    ensures r.Err? <==> FindSupplier(b, supplierName).Inherited?
    ensures r.Ok? ==> r.value.lowestCompetitorPrice == LowestCompetitor(b.suppliers, supplierName)
    ensures r.Ok? ==> var lines := ContextLines(b, supplierName, fixed2);
      && r.value.context == Join(lines, "\n")
      && forall i :: 0 <= i < |lines| ==> Contains(r.value.context, lines[i])
  {
    if FindSupplier(b, supplierName).Inherited? then Err(ToFixedOnInherited)
    else
      var lines := ContextLines(b, supplierName, fixed2);
      JoinHasParts(lines, "\n");
      Ok(SupplierContext(Join(lines, "\n"), LowestCompetitor(b.suppliers, supplierName)))
  }

  const ToFixedOnInherited: string := "TypeError: supplier.bestPriceUsd is undefined"

  /** Without other priced suppliers there is no competitor price and no competitor line. */
  lemma NoCompetitorAlone(b: BrainData, supplierName: string, fixed2: real -> string)
    requires forall i :: 0 <= i < |b.suppliers| ==> b.suppliers[i].0 == Lower(b.suppliers[i].1.name)
    requires forall i :: 0 <= i < |b.suppliers| ==> b.suppliers[i].0 == Lower(supplierName)
    ensures LowestCompetitor(b.suppliers, supplierName).None?
    ensures var r := BuildSupplierContext(b, supplierName, fixed2);
      r.Ok? ==> r.value.lowestCompetitorPrice.None?
  {
  }
}
