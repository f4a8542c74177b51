/** Index-based joins: the nested menu of the menu service and the batched receipt load of the order
    repository, against plain filtering. */
module Catalogue {
  import opened Domain
  import opened Spec
  import opened Tables

  // ---------- filtering by key ----------

  /** The rows with a given key, in their own order. */
  function Having<T>(rows: seq<T>, key: T -> Id, id: Id): seq<T> {
    if rows == [] then []
    else
      var n := |rows| - 1;
      Having(rows[..n], key, id) + if key(rows[n]) == id then [rows[n]] else []
  }

  lemma {:induction false} HavingCount<T>(rows: seq<T>, key: T -> Id, id: Id, row: T)
    ensures multiset(Having(rows, key, id))[row] == if key(row) == id then multiset(rows)[row] else 0
  {
    if rows != [] {
      var n := |rows| - 1;
      HavingCount(rows[..n], key, id, row);
      assert rows == rows[..n] + [rows[n]];
    }
  }

  /** Where the rows of a group stand in the list they were taken from. */
  ghost predicate PositionsOf<T(!new)>(rows: seq<T>, group: seq<T>, at: seq<nat>) {
    && |at| == |group|
    && (forall i :: 0 <= i < |at| ==> at[i] < |rows| && group[i] == rows[at[i]])
    && (forall i, j :: 0 <= i < j < |at| ==> at[i] < at[j])
  }

  lemma PositionsExtend<T(!new)>(rows: seq<T>, row: T, group: seq<T>, at: seq<nat>)
    requires PositionsOf(rows, group, at)
    ensures PositionsOf(rows + [row], group, at) && PositionsOf(rows + [row], group + [row], at + [|rows|])
  {
  }

  /** A group keeps the order of its rows. */
  lemma {:induction false} HavingInOrder<T(!new)>(rows: seq<T>, key: T -> Id, id: Id) returns (at: seq<nat>)
    ensures PositionsOf(rows, Having(rows, key, id), at)
  {
    at := [];
    if rows != [] {
      var n := |rows| - 1;
      at := HavingInOrder(rows[..n], key, id);
      assert rows == rows[..n] + [rows[n]];
      hide PositionsOf;
      PositionsExtend(rows[..n], rows[n], Having(rows[..n], key, id), at);
      if key(rows[n]) == id {
        at := at + [n];
      } else {
        assert Having(rows, key, id) == Having(rows[..n], key, id);
      }
    }
  }

  /** All groups one after the other. */
  function Flat<T>(groups: seq<seq<T>>): seq<T> {
    if groups == [] then [] else Flat(groups[..|groups| - 1]) + groups[|groups| - 1]
  }

  function Groups<T>(ids: seq<Id>, rows: seq<T>, key: T -> Id): (groups: seq<seq<T>>) {
    seq(|ids|, k requires 0 <= k < |ids| => Having(rows, key, ids[k]))
  }

  ghost predicate Distinct(ids: seq<Id>) {
    forall i, j :: 0 <= i < j < |ids| ==> ids[i] != ids[j]
  }

  /** The rows whose key has a group. */
  function Listed<T>(rows: seq<T>, key: T -> Id, ids: seq<Id>): seq<T> {
    if rows == [] then []
    else
      var n := |rows| - 1;
      Listed(rows[..n], key, ids) + if key(rows[n]) in ids then [rows[n]] else []
  }

  lemma {:induction false} ListedSplit<T>(rows: seq<T>, key: T -> Id, ids: seq<Id>, id: Id)
    requires id !in ids
    ensures multiset(Listed(rows, key, ids + [id]))
         == multiset(Listed(rows, key, ids)) + multiset(Having(rows, key, id))
  {
    if rows != [] {
      ListedSplit(rows[..|rows| - 1], key, ids, id);
    }
  }

  /** Grouping is filtering: the groups together are the rows that have a group, each once. */
  lemma {:induction false} GroupsAreListed<T>(ids: seq<Id>, rows: seq<T>, key: T -> Id)
    requires Distinct(ids)
    ensures multiset(Flat(Groups(ids, rows, key))) == multiset(Listed(rows, key, ids))
  {
    if ids == [] {
      NoneListed(rows, key);
    } else {
      var n := |ids| - 1;
      GroupsAreListed(ids[..n], rows, key);
      ListedSplit(rows, key, ids[..n], ids[n]);
      assert Groups(ids, rows, key)[..n] == Groups(ids[..n], rows, key);
      assert Groups(ids, rows, key)[n] == Having(rows, key, ids[n]);
      assert ids == ids[..n] + [ids[n]];
    }
  }

  lemma {:induction false} NoneListed<T>(rows: seq<T>, key: T -> Id)
    ensures Listed(rows, key, []) == []
  {
    if rows != [] {
      NoneListed(rows[..|rows| - 1], key);
    }
  }

  lemma {:induction false} AllListed<T>(rows: seq<T>, key: T -> Id, ids: seq<Id>)
    requires forall i :: 0 <= i < |rows| ==> key(rows[i]) in ids
    ensures Listed(rows, key, ids) == rows
  {
    if rows != [] {
      var n := |rows| - 1;
      AllListed(rows[..n], key, ids);
      assert rows == rows[..n] + [rows[n]];
    }
  }

  lemma {:induction false} SomeUnlisted<T>(rows: seq<T>, key: T -> Id, ids: seq<Id>, i: nat)
    requires i < |rows| && key(rows[i]) !in ids
    ensures |Listed(rows, key, ids)| < |rows|
  {
    var n := |rows| - 1;
    if i < n {
      SomeUnlisted(rows[..n], key, ids, i);
    } else {
      ListedSize(rows[..n], key, ids);
    }
  }

  lemma {:induction false} ListedSize<T>(rows: seq<T>, key: T -> Id, ids: seq<Id>)
    ensures |Listed(rows, key, ids)| <= |rows|
  {
    if rows != [] {
      ListedSize(rows[..|rows| - 1], key, ids);
    }
  }

  /** Grouping loses a row exactly when no group has its key: with a group for every key, and only then,
      the groups together hold every row as often as it was given. */
  lemma GroupsKeepAll<T>(ids: seq<Id>, rows: seq<T>, key: T -> Id)
    requires Distinct(ids)
    ensures multiset(Flat(Groups(ids, rows, key))) == multiset(rows)
            <==> forall i :: 0 <= i < |rows| ==> key(rows[i]) in ids
  {
    GroupsAreListed(ids, rows, key);
    if i :| 0 <= i < |rows| && key(rows[i]) !in ids {
      SomeUnlisted(rows, key, ids, i);
      assert |multiset(Listed(rows, key, ids))| == |Listed(rows, key, ids)|;
      assert |multiset(rows)| == |rows|;
    } else {
      AllListed(rows, key, ids);
    }
  }

  // ---------- the nested menu ----------

  datatype Section = Section(id: Id, category: Category, items: seq<Fetched>)

  function CategoryKey(item: Fetched): Id {
    item.dish.category
  }

  function IdsOf(categories: seq<(Id, Category)>): (ids: seq<Id>) {
    seq(|categories|, k requires 0 <= k < |categories| => categories[k].0)
  }

  function ItemsOf(menu: seq<Section>): (groups: seq<seq<Fetched>>) {
    seq(|menu|, k requires 0 <= k < |menu| => menu[k].items)
  }

  /** GetFullMenu: an index from category id to position, then one pass over the dishes that appends each
      to its section in place. A dish whose category is not listed is left out. */
  method GetFullMenu(categories: seq<(Id, Category)>, items: seq<Fetched>) returns (menu: seq<Section>)
    requires Distinct(IdsOf(categories))
    ensures |menu| == |categories|
    ensures forall k :: 0 <= k < |menu| ==> menu[k].id == categories[k].0 && menu[k].category == categories[k].1
    ensures ItemsOf(menu) == Groups(IdsOf(categories), items, CategoryKey)
  {
    var n := |categories|;
    ghost var ids := IdsOf(categories);
    var sections := new Section[n](k requires 0 <= k < n => Section(categories[k].0, categories[k].1, []));
    var index: map<Id, nat> := map[];
    for i := 0 to n
      invariant forall c | c in index :: index[c] < i && categories[index[c]].0 == c
      invariant forall k :: 0 <= k < i ==> categories[k].0 in index && index[categories[k].0] == k
    {
      assert categories[i].0 !in index by {
        forall c | c in index ensures c != categories[i].0 {
          assert ids[index[c]] != ids[i];
        }
      }
      index := index[categories[i].0 := i];
    }
    for i := 0 to |items|
      invariant forall k :: 0 <= k < n ==>
                  sections[k] == Section(categories[k].0, categories[k].1, Having(items[..i], CategoryKey, categories[k].0))
    {
      var c := items[i].dish.category;
      assert items[..i + 1][..i] == items[..i];
      if c in index {
        var k := index[c];
        sections[k] := sections[k].(items := sections[k].items + [items[i]]);
      }
    }
    assert items[..|items|] == items;
    menu := sections[..];
  }

  /** One restaurant's menu, as two queries on one snapshot return it. */
  ghost predicate MenuSnapshot(db: Db, restaurant: Id, ids: seq<Id>, items: seq<Fetched>) {
    && Distinct(ids)
    && (forall c :: c in ids <==> c in db.categories && db.categories[c].restaurant == restaurant)
    && (forall i :: 0 <= i < |items| ==>
          && items[i].id in db.dishes && items[i].dish == db.dishes[items[i].id]
          && items[i].dish.restaurant == restaurant)
  }

  /** Under the composite foreign key, the menu of one snapshot loses no dish and invents none. */
  lemma NoDishLost(db: Db, restaurant: Id, ids: seq<Id>, items: seq<Fetched>, menu: seq<Section>)
    requires WellFormed(db) && MenuSnapshot(db, restaurant, ids, items)
    requires ItemsOf(menu) == Groups(ids, items, CategoryKey)
    ensures multiset(Flat(ItemsOf(menu))) == multiset(items)
  {
    forall i | 0 <= i < |items| ensures CategoryKey(items[i]) in ids {
      assert DishOk(db.categories, db.dishes[items[i].id]);
    }
    GroupsKeepAll(ids, items, CategoryKey);
  }

  // ---------- the batched receipt load ----------

  /** A row of order_items. */
  datatype ReceiptRow = ReceiptRow(order: Id, item: OrderItem)

  function OrderKey(row: ReceiptRow): Id {
    row.order
  }

  /** ListOrders: one query for the lines of all listed orders, in no particular order, appended to their
      orders through an index. */
  method LoadItems(orders: seq<Id>, rows: seq<ReceiptRow>) returns (loaded: seq<seq<ReceiptRow>>)
    requires Distinct(orders) && forall i :: 0 <= i < |rows| ==> rows[i].order in orders
    ensures loaded == Groups(orders, rows, OrderKey)
  {
    var n := |orders|;
    var lists := new seq<ReceiptRow>[n](k => []);
    var index: map<Id, nat> := map[];
    for i := 0 to n
      invariant forall o | o in index :: index[o] < i && orders[index[o]] == o
      invariant forall k :: 0 <= k < i ==> orders[k] in index && index[orders[k]] == k
    {
      index := index[orders[i] := i];
    }
    for i := 0 to |rows|
      invariant forall k :: 0 <= k < n ==> lists[k] == Having(rows[..i], OrderKey, orders[k])
    {
      assert rows[..i + 1][..i] == rows[..i];
      var k := index[rows[i].order];
      lists[k] := lists[k] + [rows[i]];
    }
    assert rows[..|rows|] == rows;
    loaded := lists[..];
  }

  /** Whatever order the batch query returns its rows in, each order gets the lines it would get alone. */
  lemma BatchLoadsTheSame(table: seq<ReceiptRow>, orders: seq<Id>, rows: seq<ReceiptRow>, order: Id)
    requires order in orders
    requires forall row :: multiset(rows)[row] == if row.order in orders then multiset(table)[row] else 0
    ensures multiset(Having(rows, OrderKey, order)) == multiset(Having(table, OrderKey, order))
  {
    forall row ensures multiset(Having(rows, OrderKey, order))[row] == multiset(Having(table, OrderKey, order))[row] {
      HavingCount(rows, OrderKey, order, row);
      HavingCount(table, OrderKey, order, row);
    }
  }
}
