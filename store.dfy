/**
 * A phone store: a fixed catalog, a sales table kept in an insertion-ordered
 * map, and a repair service that can be used once. Prices and totals are in
 * cents, so that sums are exact (999.99 is 99999).
 */
module Shop {
  import opened Wrappers
  import opened OrderedMaps

  /** A catalog phone (the one concrete kind, a smartphone): its model name and its price in cents. */
  datatype Phone = Phone(model: string, price: nat)

  /** The value the sales table keeps per model: how many were bought and for how much in all. */
  datatype Tally = Tally(count: nat, total: nat)

  /** What `showStatistics` prints after its header. */
  datatype StatisticsReport = NothingSold | Sold(lines: seq<StatLine>)

  /** One printed statistics line: a model, its count and its total. */
  datatype StatLine = StatLine(model: string, count: nat, total: nat)

  /** How a call of `repairPhone` ends. */
  datatype RepairOutcome = Repaired | NotNeeded | AlreadyUsed

  /** The one answer that has the phone repaired. */
  const Affirmative: string := "да"

  /** The catalog every store starts with. */
  function InitialCatalog(): seq<Phone> {
    [Phone("iPhone 14", 99999), Phone("Samsung Galaxy S22", 89999), Phone("Google Pixel 7", 69999)]
  }

  ghost predicate IsFirstMatch(phones: seq<Phone>, model: string, i: int) {
    && 0 <= i < |phones|
    && phones[i].model == model
    && forall j :: 0 <= j < i ==> phones[j].model != model
  }

  /** `phones.find { it.model == model }`: the first phone with exactly this model name. */
  function Find(phones: seq<Phone>, model: string): (r: Option<Phone>)
    ensures r.None? <==> forall i :: 0 <= i < |phones| ==> phones[i].model != model
    ensures r.Some? ==> exists i :: IsFirstMatch(phones, model, i) && phones[i] == r.value
  {
    if phones == [] then None
    else if phones[0].model == model then
      assert IsFirstMatch(phones, model, 0);
      Some(phones[0])
    else
      var r := Find(phones[1..], model);
      assert r.Some? ==> exists i :: IsFirstMatch(phones, model, i) && phones[i] == r.value by {
        if r.Some? {
          var i :| IsFirstMatch(phones[1..], model, i) && phones[1..][i] == r.value;
          assert IsFirstMatch(phones, model, i + 1);
        }
      }
      r
  }

  /** Each model of the initial catalog is found, as itself, by its own name. */
  lemma InitialCatalogLookup()
    ensures forall i :: 0 <= i < |InitialCatalog()| ==>
      Find(InitialCatalog(), InitialCatalog()[i].model) == Some(InitialCatalog()[i])
    ensures Find(InitialCatalog(), "iphone 14") == None
  {
    var c := InitialCatalog();
    assert c[0].model != c[1].model && c[0].model != c[2].model && c[1].model != c[2].model;
    assert Find(c[1..], c[1].model) == Some(c[1]);
    assert Find(c[2..], c[2].model) == Some(c[2]);
    assert "iphone 14"[1] != c[0].model[1];
  }

  /** What `count` sales at `price` bring in: `price` added `count` times. */
  function Revenue(count: nat, price: nat): nat {
    if count == 0 then 0 else Revenue(count - 1, price) + price
  }

  /** Revenue is count times price. */
  lemma {:induction false} RevenueIsProduct(count: nat, price: nat)
    ensures Revenue(count, price) == count * price
  {
    if count > 0 {
      RevenueIsProduct(count - 1, price);
    }
  }

  /** What the sales table says of one model: bought at least once, at the catalog price each time. */
  ghost predicate WellTallied(phones: seq<Phone>, model: string, t: Tally) {
    && Find(phones, model).Some?
    && t.count >= 1
    && t.total == Revenue(t.count, Find(phones, model).value.price)
  }

  /** The invariant linking the sales table to the catalog. */
  ghost predicate SalesInvariant(phones: seq<Phone>, stats: seq<(string, Tally)>) {
    && DistinctKeys(stats)
    && forall model :: Get(stats, model).Some? ==> WellTallied(phones, model, Get(stats, model).value)
  }

  /** A tally after one more sale at `price`. */
  function Bump(t: Tally, price: nat): Tally {
    Tally(t.count + 1, t.total + price)
  }

  /**
   * The sales table after one `buyPhone(model)`: unchanged when no catalog
   * phone has this model; otherwise the model's tally, (0, 0) when absent,
   * gains one phone and that phone's price.
   */
  function Purchase(phones: seq<Phone>, stats: seq<(string, Tally)>, model: string): (r: seq<(string, Tally)>)
    ensures Find(phones, model).None? ==> r == stats
    ensures Find(phones, model).Some? ==>
      var before := GetOrDefault(stats, model, Tally(0, 0));
      Get(r, model) == Some(Tally(before.count + 1, before.total + Find(phones, model).value.price))
    ensures Keys(r) == if Find(phones, model).None? || model in Keys(stats) then Keys(stats) else Keys(stats) + [model]
  {
    if Find(phones, model).None? then stats
    else Put(stats, model, Bump(GetOrDefault(stats, model, Tally(0, 0)), Find(phones, model).value.price))
  }

  /** A purchase changes no entry but the bought model's. */
  lemma PurchaseKeepsOthers(phones: seq<Phone>, stats: seq<(string, Tally)>, model: string, other: string)
    requires other != model
    ensures Get(Purchase(phones, stats, model), other) == Get(stats, other)
  {
    if Find(phones, model).Some? {
      PutKeepsOthers(stats, model, Bump(GetOrDefault(stats, model, Tally(0, 0)), Find(phones, model).value.price), other);
    }
  }

  /** A purchase never removes an entry nor lowers a count or a total. */
  lemma PurchaseNeverLowers(phones: seq<Phone>, stats: seq<(string, Tally)>, model: string, m: string)
    requires Get(stats, m).Some?
    ensures Get(Purchase(phones, stats, model), m).Some?
    ensures Get(Purchase(phones, stats, model), m).value.count >= Get(stats, m).value.count
    ensures Get(Purchase(phones, stats, model), m).value.total >= Get(stats, m).value.total
  {
    if m != model {
      PurchaseKeepsOthers(phones, stats, model, m);
    }
  }

  /** A purchase keeps the sales table consistent with the catalog. */
  lemma PurchasePreservesInvariant(phones: seq<Phone>, stats: seq<(string, Tally)>, model: string)
    requires SalesInvariant(phones, stats)
    ensures SalesInvariant(phones, Purchase(phones, stats, model))
  {
    var r := Purchase(phones, stats, model);
    if Find(phones, model).Some? {
      var t := GetOrDefault(stats, model, Tally(0, 0));
      var p := Find(phones, model).value.price;
      PutKeepsKeysDistinct(stats, model, Bump(t, p));
      forall m | Get(r, m).Some? ensures WellTallied(phones, m, Get(r, m).value) {
        if m != model {
          PurchaseKeepsOthers(phones, stats, model, m);
        }
      }
    }
  }

  /** The sales table after buying `models` in order. */
  function PurchaseAll(phones: seq<Phone>, stats: seq<(string, Tally)>, models: seq<string>): seq<(string, Tally)>
    decreases |models|
  {
    if models == [] then stats else PurchaseAll(phones, Purchase(phones, stats, models[0]), models[1..])
  }

  /** A model outside the catalog never gets an entry, whatever is bought. */
  lemma {:induction false} UnknownModelUntouched(phones: seq<Phone>, stats: seq<(string, Tally)>, models: seq<string>, m: string)
    requires Find(phones, m).None?
    ensures Get(PurchaseAll(phones, stats, models), m) == Get(stats, m)
    decreases |models|
  {
    if models != [] {
      UnknownModelUntouched(phones, Purchase(phones, stats, models[0]), models[1..], m);
      if models[0] != m {
        PurchaseKeepsOthers(phones, stats, models[0], m);
      }
    }
  }

  /** Buying only other models leaves a model's entry as it was. */
  lemma {:induction false} OthersBoughtUntouched(phones: seq<Phone>, stats: seq<(string, Tally)>, models: seq<string>, m: string)
    requires m !in models
    ensures Get(PurchaseAll(phones, stats, models), m) == Get(stats, m)
    decreases |models|
  {
    if models != [] {
      OthersBoughtUntouched(phones, Purchase(phones, stats, models[0]), models[1..], m);
      PurchaseKeepsOthers(phones, stats, models[0], m);
    }
  }

  /** How many times `m` occurs in `models`. */
  function Occurrences(models: seq<string>, m: string): nat
    decreases |models|
  {
    if models == [] then 0 else (if models[0] == m then 1 else 0) + Occurrences(models[1..], m)
  }

  /**
   * After any sequence of purchases, a catalog model bought n > 0 times in it
   * has gained n in count and n times its price in total.
   */
  lemma {:induction false} TallyAfterPurchases(phones: seq<Phone>, stats: seq<(string, Tally)>, models: seq<string>, p: Phone)
    requires Find(phones, p.model) == Some(p)
    requires p.model in models
    ensures Get(PurchaseAll(phones, stats, models), p.model).Some?
    ensures Get(PurchaseAll(phones, stats, models), p.model).value.count ==
      GetOrDefault(stats, p.model, Tally(0, 0)).count + Occurrences(models, p.model)
    ensures Get(PurchaseAll(phones, stats, models), p.model).value.total ==
      GetOrDefault(stats, p.model, Tally(0, 0)).total + Revenue(Occurrences(models, p.model), p.price)
    decreases |models|
  {
    var first, rest := models[0], models[1..];
    var next := Purchase(phones, stats, first);
    var t := GetOrDefault(stats, p.model, Tally(0, 0));
    if first != p.model {
      assert p.model in rest;
      TallyAfterPurchases(phones, next, rest, p);
      PurchaseKeepsOthers(phones, stats, first, p.model);
    } else if p.model in rest {
      TallyAfterPurchases(phones, next, rest, p);
      assert GetOrDefault(next, p.model, Tally(0, 0)) == Bump(t, p.price);
    } else {
      OthersBoughtUntouched(phones, next, rest, p.model);
      NoOccurrences(rest, p.model);
    }
  }

  lemma {:induction false} NoOccurrences(models: seq<string>, m: string)
    requires m !in models
    ensures Occurrences(models, m) == 0
    decreases |models|
  {
    if models != [] {
      NoOccurrences(models[1..], m);
    }
  }

  /** From a fresh store, k purchases of a catalog model give count k and total k times its price. */
  lemma {:induction false} RepeatedPurchase(m: string, k: nat)
    requires Find(InitialCatalog(), m).Some? && k > 0
    ensures Get(PurchaseAll(InitialCatalog(), [], seq(k, _ => m)), m) == Some(Tally(k, Revenue(k, Find(InitialCatalog(), m).value.price)))
    ensures Get(PurchaseAll(InitialCatalog(), [], seq(k, _ => m)), m).value.total == k * Find(InitialCatalog(), m).value.price
  {
    RevenueIsProduct(k, Find(InitialCatalog(), m).value.price);
    RepeatedOccurrences(m, k);
    TallyAfterPurchases(InitialCatalog(), [], seq(k, _ => m), Find(InitialCatalog(), m).value);
  }

  lemma {:induction false} RepeatedOccurrences(m: string, k: nat)
    ensures Occurrences(seq(k, _ => m), m) == k
    decreases k
  {
    if k > 0 {
      assert seq(k, _ => m)[1..] == seq(k - 1, _ => m);
      RepeatedOccurrences(m, k - 1);
    }
  }

  /**
   * One `repairPhone` call from flag `used`, given the line the user would
   * answer with (None: end of input): the new flag and the outcome.
   */
  function RepairTransition(used: bool, response: Option<string>): (r: (bool, RepairOutcome))
    ensures r.0 <==> used || response == Some(Affirmative)
    ensures r.1 == AlreadyUsed <==> used
    ensures r.1 == Repaired <==> !used && response == Some(Affirmative)
  {
    if used then (true, AlreadyUsed)
    else if response == Some(Affirmative) then (true, Repaired)
    else (false, NotNeeded)
  }

  /** The final flag and the outcomes of one `repairPhone` call per response, in order. */
  function RepairRun(used: bool, responses: seq<Option<string>>): (bool, seq<RepairOutcome>)
    decreases |responses|
  {
    if responses == [] then (used, [])
    else
      var (used', outcome) := RepairTransition(used, responses[0]);
      var (final, outcomes) := RepairRun(used', responses[1..]);
      (final, [outcome] + outcomes)
  }

  /**
   * Over any sequence of calls the flag ends set exactly when it started set
   * or some answer was "да"; a repair happens at most once, and every call
   * after it reports that the service was already used.
   */
  lemma {:induction false} RepairAtMostOnce(used: bool, responses: seq<Option<string>>)
    ensures RepairRun(used, responses).0 <==> used || Some(Affirmative) in responses
    ensures |RepairRun(used, responses).1| == |responses|
    ensures Repaired in RepairRun(used, responses).1 <==> !used && Some(Affirmative) in responses
    ensures forall i, j :: 0 <= i < j < |responses| && RepairRun(used, responses).1[i] == Repaired ==>
      RepairRun(used, responses).1[j] == AlreadyUsed
    decreases |responses|
  {
    if responses != [] {
      var (used', outcome) := RepairTransition(used, responses[0]);
      RepairAtMostOnce(used', responses[1..]);
      assert responses == [responses[0]] + responses[1..];
      var outs := RepairRun(used, responses).1;
      assert outs == [outcome] + RepairRun(used', responses[1..]).1;
      if outcome == Repaired {
        StaysUsed(responses[1..]);
      }
    }
  }

  /** Once used, every further call is a no-op reporting that the service was already used. */
  lemma {:induction false} StaysUsed(responses: seq<Option<string>>)
    ensures RepairRun(true, responses).0
    ensures forall i :: 0 <= i < |RepairRun(true, responses).1| ==> RepairRun(true, responses).1[i] == AlreadyUsed
    ensures |RepairRun(true, responses).1| == |responses|
    decreases |responses|
  {
    if responses != [] {
      StaysUsed(responses[1..]);
    }
  }

  /** Every entry of a table that keeps the invariant, read by position, is a well-tallied catalog model. */
  lemma EntryIsTallied(phones: seq<Phone>, stats: seq<(string, Tally)>, i: nat)
    requires SalesInvariant(phones, stats) && i < |stats|
    ensures WellTallied(phones, stats[i].0, stats[i].1)
  {
    var (model, t) := stats[i];
    assert Keys(stats)[i] == model;
    var u := Get(stats, model).value;
    var j :| 0 <= j < |stats| && stats[j] == (model, u);
    assert Keys(stats)[j] == model;
    assert i == j;
  }

  /** `report` is what `showStatistics` prints for the table `stats`. */
  ghost predicate Reports(report: StatisticsReport, stats: seq<(string, Tally)>) {
    && (report.NothingSold? <==> stats == [])
    && (report.Sold? ==>
          && |report.lines| == |stats|
          && forall i :: 0 <= i < |stats| ==>
               report.lines[i] == StatLine(stats[i].0, stats[i].1.count, stats[i].1.total))
  }

  class Store {
    const city: string
    var phones: seq<Phone>
    var salesStatistics: seq<(string, Tally)>
    var hasUsedRepairService: bool

    ghost predicate Valid()
      reads this
    {
      SalesInvariant(phones, salesStatistics)
    }

    constructor (city: string)
      ensures Valid()
      ensures this.city == city
      ensures phones == InitialCatalog()
      ensures salesStatistics == []
      ensures !hasUsedRepairService
    {
      this.city := city;
      salesStatistics := [];
      hasUsedRepairService := false;
      phones := [];
      phones := phones + [Phone("iPhone 14", 99999)];
      phones := phones + [Phone("Samsung Galaxy S22", 89999)];
      phones := phones + [Phone("Google Pixel 7", 69999)];
    }

    /** The catalog in order, one printed line per phone. */
    method ShowPhones() returns (listing: seq<Phone>)
      ensures listing == phones
    {
      listing := [];
      for i := 0 to |phones|
        invariant listing == phones[..i]
      {
        listing := listing + [phones[i]];
      }
    }

    /**
     * Buys the first catalog phone named `model`, returning it (None: not
     * found). Only the sales table can change, and only the entry of `model`.
     */
    method BuyPhone(model: string) returns (bought: Option<Phone>)
      requires Valid()
      modifies this`salesStatistics
      ensures Valid()
      ensures bought == Find(phones, model)
      ensures salesStatistics == Purchase(phones, old(salesStatistics), model)
    {
      PurchasePreservesInvariant(phones, salesStatistics, model);
      bought := Find(phones, model);
      if bought.Some? {
        var t := GetOrDefault(salesStatistics, model, Tally(0, 0));
        salesStatistics := Put(salesStatistics, model, Bump(t, bought.value.price));
      }
    }

    /** The statistics listing: nothing sold when the table is empty, else one line per entry in table order. */
    method ShowStatistics() returns (report: StatisticsReport)
      requires Valid()
      ensures Reports(report, salesStatistics)
      ensures report.Sold? ==> forall i :: 0 <= i < |report.lines| ==>
        && report.lines[i].count >= 1
        && Find(phones, report.lines[i].model).Some?
        && report.lines[i].total == Revenue(report.lines[i].count, Find(phones, report.lines[i].model).value.price)
    {
      if salesStatistics == [] {
        report := NothingSold;
      } else {
        var lines: seq<StatLine> := [];
        for i := 0 to |salesStatistics|
          invariant |lines| == i
          invariant forall k :: 0 <= k < i ==>
            lines[k] == StatLine(salesStatistics[k].0, salesStatistics[k].1.count, salesStatistics[k].1.total)
        {
          var (model, stats) := salesStatistics[i];
          lines := lines + [StatLine(model, stats.count, stats.total)];
        }
        report := Sold(lines);
        forall i | 0 <= i < |lines|
          ensures WellTallied(phones, lines[i].model, Tally(lines[i].count, lines[i].total))
        {
          EntryIsTallied(phones, salesStatistics, i);
        }
      }
    }

    /**
     * One `repairPhone` call. `response` is the line the user would type at
     * the prompt (None: end of input); `asked` says whether the prompt was
     * shown and that line read, which happens only while the service is unused.
     */
    method RepairPhone(response: Option<string>) returns (asked: bool, outcome: RepairOutcome)
      modifies this`hasUsedRepairService
      ensures asked == !old(hasUsedRepairService)
      ensures (hasUsedRepairService, outcome) == RepairTransition(old(hasUsedRepairService), response)
    {
      asked := !hasUsedRepairService;
      if !hasUsedRepairService {
        if response == Some(Affirmative) {
          outcome := Repaired;
          hasUsedRepairService := true;
        } else {
          outcome := NotNeeded;
        }
      } else {
        outcome := AlreadyUsed;
      }
    }
  }
}
