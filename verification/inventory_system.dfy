/**
 * The keyed inventory store of the warehouse demo: a repository maps item
 * ids to items and reports three kinds of failure (duplicate id, missing id,
 * negative quantity); a warehouse manager owns one repository of electronic
 * items and one of grocery items and builds seeding, stock increase and
 * removal on top of them, catching and reporting every failure.
 *
 * The pure functions AddTo, RemoveFrom, UpdateIn, IncreaseIn and SeedInto
 * give the meaning of each operation on the stored map; the class methods
 * are proved against them.
 */
module InventorySystem {
  import opened Wrappers

  /** A clock value (an expiry date); it plays no part in the logic. */
  type Date = int

  /** The item variants; both carry the shared id, name and quantity. */
  datatype Item =
    | ElectronicItem(id: int, name: string, quantity: int, brand: string, warrantyMonths: int)
    | GroceryItem(id: int, name: string, quantity: int, expiryDate: Date)

  /** The operation a not-found failure came from (its message differs per operation). */
  datatype Operation = Lookup | Removal | Update

  /** The three exception classes a repository throws. */
  datatype InventoryError =
    | DuplicateItem(id: int)
    | ItemNotFound(id: int, op: Operation)
    | InvalidQuantity

  /** Completion of a void repository operation: normal return or the exception thrown. */
  datatype Outcome = Ok | Fail(error: InventoryError)

  type Store = map<int, Item>

  /** Every item is stored under its own id. */
  predicate KeyedById(m: Store) {
    forall k :: k in m ==> m[k].id == k
  }

  /** Every stored quantity is non-negative. */
  predicate NonNegative(m: Store) {
    forall k :: k in m ==> m[k].quantity >= 0
  }

  /** The store and the outcome after one repository operation. */
  datatype Step = Step(store: Store, outcome: Outcome)

  /** AddItem: refuse an id already present, otherwise store the item under its id. */
  function AddTo(m: Store, item: Item): (r: Step)
    ensures r.outcome == Ok <==> item.id !in m
    ensures r.outcome.Fail? ==> r.outcome.error == DuplicateItem(item.id) && r.store == m
    ensures r.store.Keys == m.Keys + {item.id}
    ensures forall k :: k in m ==> r.store[k] == m[k]
    ensures r.outcome == Ok ==> r.store[item.id] == item
    ensures KeyedById(m) ==> KeyedById(r.store)
  {
    if item.id in m then Step(m, Fail(DuplicateItem(item.id)))
    else Step(m[item.id := item], Ok)
  }

  /** RemoveItem: delete the entry for id, or report it missing. */
  function RemoveFrom(m: Store, id: int): (r: Step)
    ensures r.outcome == Ok <==> id in m
    ensures r.outcome.Fail? ==> r.outcome.error == ItemNotFound(id, Removal) && r.store == m
    ensures r.store.Keys == m.Keys - {id}
    ensures forall k :: k in r.store ==> r.store[k] == m[k]
  {
    if id in m then Step(m - {id}, Ok)
    else Step(m, Fail(ItemNotFound(id, Removal)))
  }

  /** UpdateQuantity: the negative check comes before the existence check. */
  function UpdateIn(m: Store, id: int, newQuantity: int): (r: Step)
    ensures newQuantity < 0 ==> r == Step(m, Fail(InvalidQuantity))
    ensures newQuantity >= 0 && id !in m ==> r == Step(m, Fail(ItemNotFound(id, Update)))
    ensures r.outcome == Ok <==> newQuantity >= 0 && id in m
    ensures r.store.Keys == m.Keys
    ensures forall k :: k in m && k != id ==> r.store[k] == m[k]
    ensures r.outcome == Ok ==> r.store[id] == m[id].(quantity := newQuantity)
    ensures KeyedById(m) ==> KeyedById(r.store)
  {
    if newQuantity < 0 then Step(m, Fail(InvalidQuantity))
    else if id !in m then Step(m, Fail(ItemNotFound(id, Update)))
    else Step(m[id := m[id].(quantity := newQuantity)], Ok)
  }

  /** IncreaseStock: look the item up, then update its quantity to the old one plus delta. */
  function IncreaseIn(m: Store, id: int, delta: int): (r: Step)
    ensures r.outcome == Ok <==> id in m && m[id].quantity + delta >= 0
    ensures r.outcome == Ok ==> r.store == m[id := m[id].(quantity := m[id].quantity + delta)]
    ensures r.outcome.Fail? ==> r.store == m
    ensures id !in m ==> r.outcome == Fail(ItemNotFound(id, Lookup))
    ensures id in m && m[id].quantity + delta < 0 ==> r.outcome == Fail(InvalidQuantity)
  {
    if id !in m then Step(m, Fail(ItemNotFound(id, Lookup)))
    else UpdateIn(m, id, m[id].quantity + delta)
  }

  const Laptop := ElectronicItem(1, "Laptop", 11, "HP", 22)
  const Smartphone := ElectronicItem(2, "Smartphone", 13, "iPhone", 18)

  function Maize(expiry: Date): Item { GroceryItem(1, "Maize", 40, expiry) }
  function Malt(expiry: Date): Item { GroceryItem(2, "Malt", 20, expiry) }

  /** Both stores and the reported outcome after SeedData. */
  datatype Seeding = Seeding(electronics: Store, groceries: Store, outcome: Outcome)

  /**
   * SeedData: four adds inside one try block; the first add that throws
   * skips all the adds after it, and the exception is reported, not rethrown.
   */
  function SeedInto(e: Store, g: Store, maizeExpiry: Date, maltExpiry: Date): (r: Seeding)
    ensures r.outcome == Ok <==> 1 !in e && 2 !in e && 1 !in g && 2 !in g
    ensures r.outcome == Ok ==>
      r.electronics == e[1 := Laptop][2 := Smartphone] &&
      r.groceries == g[1 := Maize(maizeExpiry)][2 := Malt(maltExpiry)]
    ensures 1 in e ==> r == Seeding(e, g, Fail(DuplicateItem(1)))
    ensures 1 !in e && 2 in e ==> r == Seeding(e[1 := Laptop], g, Fail(DuplicateItem(2)))
    ensures 1 !in e && 2 !in e && 1 in g ==>
      r == Seeding(e[1 := Laptop][2 := Smartphone], g, Fail(DuplicateItem(1)))
    ensures 1 !in e && 2 !in e && 1 !in g && 2 in g ==>
      r == Seeding(e[1 := Laptop][2 := Smartphone], g[1 := Maize(maizeExpiry)], Fail(DuplicateItem(2)))
    ensures forall k :: k in e ==> k in r.electronics && r.electronics[k] == e[k]
    ensures forall k :: k in g ==> k in r.groceries && r.groceries[k] == g[k]
    ensures r.groceries != g ==> r.electronics == e[1 := Laptop][2 := Smartphone]
  {
    var s1 := AddTo(e, Laptop);
    if s1.outcome.Fail? then Seeding(e, g, s1.outcome) else
    var s2 := AddTo(s1.store, Smartphone);
    if s2.outcome.Fail? then Seeding(s1.store, g, s2.outcome) else
    var s3 := AddTo(g, Maize(maizeExpiry));
    if s3.outcome.Fail? then Seeding(s2.store, g, s3.outcome) else
    var s4 := AddTo(s3.store, Malt(maltExpiry));
    Seeding(s2.store, s4.store, s4.outcome)
  }

  /** Seeding fresh stores stores all four items; id 1 and id 2 live in both keyspaces. */
  lemma SeedFresh(maizeExpiry: Date, maltExpiry: Date)
    ensures SeedInto(map[], map[], maizeExpiry, maltExpiry) ==
      Seeding(map[1 := Laptop, 2 := Smartphone],
              map[1 := Maize(maizeExpiry), 2 := Malt(maltExpiry)], Ok)
  {
  }

  /** A repeated SeedData fails on its first add and changes neither store. */
  lemma SeedTwice(maizeExpiry: Date, maltExpiry: Date, maizeExpiry': Date, maltExpiry': Date)
    ensures var first := SeedInto(map[], map[], maizeExpiry, maltExpiry);
            SeedInto(first.electronics, first.groceries, maizeExpiry', maltExpiry') ==
            Seeding(first.electronics, first.groceries, Fail(DuplicateItem(1)))
  {
    SeedFresh(maizeExpiry, maltExpiry);
  }

  /** An item added with a fresh id can be looked up and has not been changed. */
  lemma AddThenLookup(m: Store, item: Item)
    requires item.id !in m
    ensures item.id in AddTo(m, item).store && AddTo(m, item).store[item.id] == item
  {
  }

  /** Removing the same id twice succeeds at most once; the second removal reports it missing. */
  lemma RemoveTwice(m: Store, id: int)
    ensures var once := RemoveFrom(m, id);
            RemoveFrom(once.store, id) == Step(once.store, Fail(ItemNotFound(id, Removal)))
  {
  }

  /** A negative quantity on a missing id reports InvalidQuantity, not ItemNotFound. */
  lemma NegativeBeforeMissing(m: Store, id: int)
    requires id !in m
    ensures UpdateIn(m, id, -1).outcome == Fail(InvalidQuantity)
  {
  }

  /**
   * UpdateQuantity, RemoveItem and IncreaseStock keep every quantity
   * non-negative; AddItem makes no such check (see AddAdmitsNegative).
   */
  lemma MutationsKeepNonNegative(m: Store, id: int, q: int, delta: int)
    requires NonNegative(m)
    ensures NonNegative(UpdateIn(m, id, q).store)
    ensures NonNegative(RemoveFrom(m, id).store)
    ensures NonNegative(IncreaseIn(m, id, delta).store)
  {
  }

  /** AddItem accepts an item whose quantity is negative. */
  lemma AddAdmitsNegative(m: Store)
    requires 7 !in m
    ensures var item := GroceryItem(7, "Salt", -5, 0);
            AddTo(m, item).outcome == Ok && !NonNegative(AddTo(m, item).store)
  {
    var item := GroceryItem(7, "Salt", -5, 0);
    assert AddTo(m, item).store[7].quantity == -5;
  }

  /**
   * The demo: after seeding fresh stores, adding a tablet with id 1 is a
   * duplicate, removing grocery 99 reports it missing, setting grocery 1 to
   * -10 is refused and leaves 40.
   */
  lemma DemoScenario(maizeExpiry: Date, maltExpiry: Date)
    ensures var seeded := SeedInto(map[], map[], maizeExpiry, maltExpiry);
            && AddTo(seeded.electronics, ElectronicItem(1, "Tablet", 5, "Apple", 12)).outcome
               == Fail(DuplicateItem(1))
            && RemoveFrom(seeded.groceries, 99).outcome == Fail(ItemNotFound(99, Removal))
            && UpdateIn(seeded.groceries, 1, -10) == Step(seeded.groceries, Fail(InvalidQuantity))
            && seeded.groceries[1].quantity == 40
  {
    SeedFresh(maizeExpiry, maltExpiry);
  }

  /** No id occurs twice in an enumeration order. */
  predicate Distinct(ids: seq<int>) {
    forall i, j :: 0 <= i < j < |ids| ==> ids[i] != ids[j]
  }

  /** The enumeration order with one id taken out (the dictionary's slot freed). */
  function Without(ids: seq<int>, id: int): (r: seq<int>)
    ensures forall x :: x in r <==> x in ids && x != id
    ensures Distinct(ids) ==> Distinct(r)
    ensures Distinct(ids) && id in ids ==> |r| == |ids| - 1
    ensures id !in ids ==> r == ids
  {
    if ids == [] then []
    else if ids[0] == id then Without(ids[1..], id)
    else
      var rest := Without(ids[1..], id);
      assert Distinct(ids) ==> forall j :: 0 <= j < |ids| - 1 ==> ids[1..][j] != ids[0];
      assert Distinct(ids) ==> ids[0] !in rest;
      assert Distinct(ids) ==> forall k :: 0 <= k < |rest| ==> rest[k] != ids[0];
      [ids[0]] + rest
  }

  /**
   * InventoryRepository<T>: the map from id to item, owned by the
   * repository, and the order in which the dictionary enumerates its keys.
   */
  class InventoryRepository {
    var items: Store
    var order: seq<int>

    ghost predicate Valid()
      reads this
    {
      && KeyedById(items)
      && Distinct(order)
      && (forall k :: k in items <==> k in order)
      && |order| == |items|
    }

    constructor ()
      ensures Valid() && items == map[]
    {
      items := map[];
      order := [];
    }

    method AddItem(item: Item) returns (outcome: Outcome)
      requires Valid()
      modifies this
      ensures Valid()
      ensures Step(items, outcome) == AddTo(old(items), item)
    {
      if item.id in items {
        return Fail(DuplicateItem(item.id));
      }
      items := items[item.id := item];
      order := order + [item.id];
      outcome := Ok;
    }

    /** Read-only: the stored item, or ItemNotFound. */
    method GetItemById(id: int) returns (r: Result<Item, InventoryError>)
      requires Valid()
      ensures r.Success? <==> id in items
      ensures r.Success? ==> r.value == items[id] && r.value.id == id
      ensures r.Failure? ==> r.error == ItemNotFound(id, Lookup)
    {
      if id !in items {
        return Failure(ItemNotFound(id, Lookup));
      }
      r := Success(items[id]);
    }

    method RemoveItem(id: int) returns (outcome: Outcome)
      requires Valid()
      modifies this
      ensures Valid()
      ensures Step(items, outcome) == RemoveFrom(old(items), id)
    {
      if id !in items {
        return Fail(ItemNotFound(id, Removal));
      }
      items := items - {id};
      order := Without(order, id);
      outcome := Ok;
    }

    /**
     * Read-only: a new list holding every stored item exactly once, in the
     * dictionary's enumeration order.
     */
    method GetAllItems() returns (all: seq<Item>)
      requires Valid()
      ensures |all| == |items|
      ensures forall i :: 0 <= i < |all| ==> all[i].id in items && items[all[i].id] == all[i]
      ensures forall i, j :: 0 <= i < j < |all| ==> all[i].id != all[j].id
      ensures forall k :: k in items ==> exists i :: 0 <= i < |all| && all[i].id == k
    {
      all := [];
      var n := 0;
      while n < |order|
        invariant 0 <= n <= |order|
        invariant |all| == n
        invariant forall i :: 0 <= i < n ==> order[i] in items && all[i] == items[order[i]] && all[i].id == order[i]
      {
        assert order[n] in order;
        all := all + [items[order[n]]];
        n := n + 1;
      }
      forall k | k in items
        ensures exists i :: 0 <= i < |all| && all[i].id == k
      {
        var i :| 0 <= i < |order| && order[i] == k;
        assert all[i].id == k;
      }
    }

    method UpdateQuantity(id: int, newQuantity: int) returns (outcome: Outcome)
      requires Valid()
      modifies this
      ensures Valid()
      ensures Step(items, outcome) == UpdateIn(old(items), id, newQuantity)
    {
      if newQuantity < 0 {
        return Fail(InvalidQuantity);
      }
      if id !in items {
        return Fail(ItemNotFound(id, Update));
      }
      items := items[id := items[id].(quantity := newQuantity)];
      outcome := Ok;
    }
  }

  /** WareHouseManager: one repository per item variant, as independent keyspaces. */
  class WareHouseManager {
    const electronics: InventoryRepository
    const groceries: InventoryRepository

    ghost predicate Valid()
      reads this, electronics, groceries
    {
      electronics != groceries && electronics.Valid() && groceries.Valid()
    }

    constructor ()
      ensures Valid() && fresh(electronics) && fresh(groceries)
      ensures electronics.items == map[] && groceries.items == map[]
    {
      electronics := new InventoryRepository();
      groceries := new InventoryRepository();
    }

    /** SeedData; the expiry dates are the clock values the source computes from DateTime.Now. */
    method SeedData(maizeExpiry: Date, maltExpiry: Date) returns (report: Outcome)
      requires Valid()
      modifies electronics, groceries
      ensures Valid()
      ensures Seeding(electronics.items, groceries.items, report) ==
              SeedInto(old(electronics.items), old(groceries.items), maizeExpiry, maltExpiry)
    {
      report := electronics.AddItem(Laptop);
      if report.Fail? { return; }
      report := electronics.AddItem(Smartphone);
      if report.Fail? { return; }
      report := groceries.AddItem(Maize(maizeExpiry));
      if report.Fail? { return; }
      report := groceries.AddItem(Malt(maltExpiry));
    }

    /** IncreaseStock: a failure of either step is caught and reported; nothing is rethrown. */
    method IncreaseStock(repo: InventoryRepository, id: int, quantity: int) returns (report: Outcome)
      requires repo.Valid()
      modifies repo
      ensures repo.Valid()
      ensures Step(repo.items, report) == IncreaseIn(old(repo.items), id, quantity)
    {
      var found := repo.GetItemById(id);
      if found.Failure? {
        return Fail(found.error);
      }
      report := repo.UpdateQuantity(id, found.value.quantity + quantity);
    }

    /** RemoveItemById: a missing id is caught and reported; nothing is rethrown. */
    method RemoveItemById(repo: InventoryRepository, id: int) returns (report: Outcome)
      requires repo.Valid()
      modifies repo
      ensures repo.Valid()
      ensures Step(repo.items, report) == RemoveFrom(old(repo.items), id)
    {
      report := repo.RemoveItem(id);
    }
  }
}
