/**
 * The text-menu front end: two stores, a top menu that picks one of them by
 * number, and a store menu that dispatches actions 1 to 5. Each method below
 * is one turn of a menu loop; what the user types arrives already read (and,
 * for numbers, already parsed, None standing for a missing line or one that
 * `toIntOrNull` cannot read as an Int), and what would be printed is returned.
 */
module App {
  import opened Wrappers
  import opened OrderedMaps
  import opened Shop

  /** How the top menu reads a parsed store number. */
  datatype StoreChoice = Exit | Select(index: nat) | Invalid

  /** How the store menu reads a parsed action number. */
  datatype MenuAction = ShowPhones | BuyPhone | ShowStatistics | RepairPhone | ReturnToStores | InvalidAction

  /** Where one turn of the top menu leads. */
  datatype TopStep = Quit | Enter(store: Store) | Retry

  /** What one turn of the store menu shows, or that it returns to the store list. */
  datatype MenuResult =
    | PhoneList(phones: seq<Phone>)
    | Purchased(bought: Option<Phone>)
    | EmptyModel
    | Statistics(report: StatisticsReport)
    | Repair(asked: bool, outcome: RepairOutcome)
    | InvalidChoice
    | Returned

  /**
   * The top menu's reading of a store number: 0 exits; 1 to `storeCount`
   * selects that store (as a 0-based index); anything else, a missing line or
   * one that is not an Int included, is an invalid choice.
   */
  function ClassifyStoreChoice(choice: Option<int>, storeCount: nat): (c: StoreChoice)
    ensures c == Exit <==> choice == Some(0)
    ensures c.Select? <==> choice.Some? && 1 <= choice.value <= storeCount
    ensures c.Select? ==> c.index < storeCount && c.index + 1 == choice.value
    ensures c == Invalid <==> choice.None? || choice.value < 0 || storeCount < choice.value
  {
    if choice == Some(0) then Exit
    else if choice.Some? && 1 <= choice.value <= storeCount then Select(choice.value - 1)
    else Invalid
  }

  /** The number the store menu shows for each action. */
  function ActionNumber(a: MenuAction): (n: int)
    requires a != InvalidAction
    ensures 1 <= n <= 5
  {
    match a
    case ShowPhones => 1
    case BuyPhone => 2
    case ShowStatistics => 3
    case RepairPhone => 4
    case ReturnToStores => 5
  }

  /** The store menu's reading of an action number: 1 to 5 name an action, anything else is invalid. */
  function ClassifyAction(choice: Option<int>): (a: MenuAction)
    ensures a == InvalidAction <==> !(choice.Some? && 1 <= choice.value <= 5)
    ensures a != InvalidAction ==> choice == Some(ActionNumber(a))
  {
    if choice == Some(1) then ShowPhones
    else if choice == Some(2) then BuyPhone
    else if choice == Some(3) then ShowStatistics
    else if choice == Some(4) then RepairPhone
    else if choice == Some(5) then ReturnToStores
    else InvalidAction
  }

  /** Every action is chosen by its own number, and by no other. */
  lemma ActionNumbersRoundTrip(a: MenuAction, n: int)
    requires a != InvalidAction
    ensures ClassifyAction(Some(ActionNumber(a))) == a
    ensures ClassifyAction(Some(n)) == a ==> n == ActionNumber(a)
  {
  }

  /** The model name typed at the buy prompt, or None when it is missing or empty. */
  function AcceptedModel(line: Option<string>): (m: Option<string>)
    ensures m.Some? <==> line.Some? && line.value != ""
    ensures m.Some? ==> m == line
  {
    if line.Some? && line.value != "" then line else None
  }

  class Application {
    const stores: seq<Store>

    /** Two distinct stores, each keeping its sales table consistent with its catalog. */
    ghost predicate Valid()
      reads this, stores
    {
      && |stores| == 2
      && stores[0] != stores[1]
      && forall s :: s in stores ==> s.Valid()
    }

    constructor ()
      ensures Valid()
      ensures |stores| == 2
      ensures stores[0].city == "Город A" && stores[1].city == "Город B"
      ensures stores[0] != stores[1]
      ensures forall s :: s in stores ==>
        && fresh(s) && s.Valid() && s.phones == InitialCatalog()
        && s.salesStatistics == [] && !s.hasUsedRepairService
    {
      var a := new Store("Город A");
      var b := new Store("Город B");
      stores := [a, b];
    }

    /** The numbered store list, 1-based, in list order. */
    method ShowStores() returns (listing: seq<(int, string)>)
      ensures |listing| == |stores|
      ensures forall i :: 0 <= i < |stores| ==> listing[i] == (i + 1, stores[i].city)
    {
      listing := [];
      for i := 0 to |stores|
        invariant |listing| == i
        invariant forall k :: 0 <= k < i ==> listing[k] == (k + 1, stores[k].city)
      {
        listing := listing + [(i + 1, stores[i].city)];
      }
    }

    /**
     * One turn of the top menu on a parsed store number: 0 quits, a number
     * in range enters `stores[number - 1]`, anything else asks again. No store
     * is touched.
     */
    method SelectStore(choice: Option<int>) returns (step: TopStep)
      ensures step == Quit <==> choice == Some(0)
      ensures step.Enter? <==> choice.Some? && 1 <= choice.value <= |stores|
      ensures step.Enter? ==> step.store == stores[choice.value - 1]
      ensures step == Retry <==> ClassifyStoreChoice(choice, |stores|) == Invalid
    {
      match ClassifyStoreChoice(choice, |stores|)
      case Exit =>
        step := Quit;
      case Select(i) =>
        step := Enter(stores[i]);
      case Invalid =>
        step := Retry;
    }

    /**
     * One turn of a store's menu. `action` is the parsed action number;
     * `modelLine` is the line that the buy prompt would read and `response`
     * the line that the repair prompt would read (None: end of input).
     * Only action 2 with a non-empty model name can change the sales table,
     * and only action 4 can set the repair flag.
     */
    method StoreMenuStep(store: Store, action: Option<int>, modelLine: Option<string>, response: Option<string>)
      returns (result: MenuResult)
      requires Valid() && store in stores
      modifies store`salesStatistics, store`hasUsedRepairService
      ensures Valid()
      ensures store.Valid()
      ensures result == Returned <==> ClassifyAction(action) == ReturnToStores
      ensures result == InvalidChoice <==> ClassifyAction(action) == InvalidAction
      ensures ClassifyAction(action) == ShowPhones ==> result == PhoneList(store.phones)
      ensures ClassifyAction(action) == ShowStatistics ==>
        result.Statistics? && Reports(result.report, store.salesStatistics)
      ensures ClassifyAction(action) == BuyPhone ==>
        if AcceptedModel(modelLine).None? then result == EmptyModel
        else result == Purchased(Find(store.phones, modelLine.value))
      ensures ClassifyAction(action) == BuyPhone && AcceptedModel(modelLine).Some? ==>
        store.salesStatistics == Purchase(store.phones, old(store.salesStatistics), modelLine.value)
      ensures !(ClassifyAction(action) == BuyPhone && AcceptedModel(modelLine).Some?) ==>
        store.salesStatistics == old(store.salesStatistics)
      ensures ClassifyAction(action) == RepairPhone ==>
        && result.Repair?
        && result.asked == !old(store.hasUsedRepairService)
        && (store.hasUsedRepairService, result.outcome) == RepairTransition(old(store.hasUsedRepairService), response)
      ensures ClassifyAction(action) != RepairPhone ==> store.hasUsedRepairService == old(store.hasUsedRepairService)
    {
      match ClassifyAction(action)
      case ShowPhones =>
        var listing := store.ShowPhones();
        result := PhoneList(listing);
      case BuyPhone =>
        var model := AcceptedModel(modelLine);
        if model.Some? {
          var bought := store.BuyPhone(model.value);
          result := Purchased(bought);
        } else {
          result := EmptyModel;
        }
      case ShowStatistics =>
        var report := store.ShowStatistics();
        result := Statistics(report);
      case RepairPhone =>
        var asked, outcome := store.RepairPhone(response);
        result := Repair(asked, outcome);
      case ReturnToStores =>
        result := Returned;
      case InvalidAction =>
        result := InvalidChoice;
    }
  }

  /**
   * Runs a fresh store through the scenarios its behaviour is known by:
   * buying "iPhone 14" twice, buying a model it does not sell, viewing an
   * empty table, and asking for the repair service twice.
   */
  method FreshStoreScenarios() {
    var store := new Store("Город A");

    var report := store.ShowStatistics();
    assert report == NothingSold;

    var missing := store.BuyPhone("Nonexistent Model");
    assert missing == None;
    assert store.salesStatistics == [];

    var first := store.BuyPhone("iPhone 14");
    var second := store.BuyPhone("iPhone 14");
    assert first == second == Some(Phone("iPhone 14", 99999));
    assert Get(store.salesStatistics, "iPhone 14") == Some(Tally(2, 199998));

    var asked, outcome := store.RepairPhone(Some("да"));
    assert asked && outcome == Repaired && store.hasUsedRepairService;
    asked, outcome := store.RepairPhone(Some("да"));
    assert !asked && outcome == AlreadyUsed;
  }
}
