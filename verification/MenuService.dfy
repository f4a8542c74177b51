/** The partner's menu calls: an ownership check in one or two reads, then one autocommitted statement.
    Each call that runs alone is exactly the sequential call. */
module MenuService {
  import opened Domain
  import opened Spec
  import opened Tables
  import opened Store
  import opened Catalogue
  import opened MenuVerdict

  /** The menu statements, each under the table constraints and committed by itself: the menu service opens
      no transaction. */
  class MenuStatements {
    const db: Database

    constructor (db: Database)
      ensures this.db == db
    {
      this.db := db;
    }

    method GetCategoryByID(id: Id) returns (category: Option<Category>)
      ensures category == if id in db.categories then Some(db.categories[id]) else None
    {
      category := if id in db.categories then Some(db.categories[id]) else None;
    }

    method GetItemByID(id: Id) returns (dish: Option<Dish>)
      ensures dish == if id in db.dishes then Some(db.dishes[id]) else None
    {
      dish := if id in db.dishes then Some(db.dishes[id]) else None;
    }

    /** All categories of a restaurant, in some order. */
    method ListCategoriesByRestaurant(restaurant: Id) returns (rows: seq<(Id, Category)>)
      ensures Distinct(IdsOf(rows))
      ensures forall c :: c in IdsOf(rows) <==> c in db.categories && db.categories[c].restaurant == restaurant
      ensures forall k :: 0 <= k < |rows| ==> rows[k].0 in db.categories && rows[k].1 == db.categories[rows[k].0]
    {
      rows := [];
      var left := db.categories.Keys;
      while left != {}
        invariant left <= db.categories.Keys
        invariant Distinct(IdsOf(rows))
        invariant forall c :: c in IdsOf(rows) <==>
                    c in db.categories && c !in left && db.categories[c].restaurant == restaurant
        invariant forall k :: 0 <= k < |rows| ==> rows[k].0 in db.categories && rows[k].1 == db.categories[rows[k].0]
        decreases |left|
      {
        var c :| c in left;
        if db.categories[c].restaurant == restaurant {
          assert IdsOf(rows + [(c, db.categories[c])]) == IdsOf(rows) + [c];
          assert c !in IdsOf(rows);
          rows := rows + [(c, db.categories[c])];
        }
        left := left - {c};
      }
    }

    /** The dishes of a restaurant, or only the available ones, in some order, each once. */
    method ListItemsByRestaurant(restaurant: Id, onlyAvailable: bool) returns (rows: seq<Fetched>)
      ensures Distinct(Ids(rows))
      ensures forall row :: row in rows <==>
                row.id in db.dishes && row.dish == db.dishes[row.id] && Listable(row.dish, restaurant, onlyAvailable)
    {
      rows := [];
      var left := db.dishes.Keys;
      while left != {}
        invariant left <= db.dishes.Keys
        invariant Distinct(Ids(rows))
        invariant forall row :: row in rows <==>
                    row.id in db.dishes && row.id !in left && row.dish == db.dishes[row.id]
                    && Listable(row.dish, restaurant, onlyAvailable)
        decreases |left|
      {
        var d :| d in left;
        if Listable(db.dishes[d], restaurant, onlyAvailable) {
          var row := Fetched(d, db.dishes[d]);
          assert Ids(rows + [row]) == Ids(rows) + [d];
          assert forall k :: 0 <= k < |rows| ==> rows[k] in rows && Ids(rows)[k] == rows[k].id != d;
          rows := rows + [row];
        }
        left := left - {d};
      }
    }

    method InsertCategory(restaurant: Id, category: Id, name: string) returns (fault: Option<Error>)
      requires !db.open
      modifies db`categories
      ensures Wrote(old(db.Contents()), AddCategory(restaurant, category, name), db.Contents(), fault)
    {
      if category in db.categories || NameTaken(db.categories, restaurant, name, category) {
        return Some(Conflict);
      }
      db.categories := db.categories[category := Category(restaurant, name)];
      return None;
    }

    method UpdateCategory(restaurant: Id, category: Id, name: string) returns (fault: Option<Error>)
      requires !db.open
      modifies db`categories
      ensures Wrote(old(db.Contents()), RenameCategory(restaurant, category, name), db.Contents(), fault)
    {
      if category !in db.categories {
        return Some(CategoryNotFound);
      }
      if NameTaken(db.categories, db.categories[category].restaurant, name, category) {
        return Some(Conflict);
      }
      db.categories := db.categories[category := db.categories[category].(name := name)];
      return None;
    }

    /** ON DELETE RESTRICT: a category that still has dishes stays. */
    method DeleteCategory(restaurant: Id, category: Id) returns (fault: Option<Error>)
      requires !db.open
      modifies db`categories
      ensures Wrote(old(db.Contents()), DropCategory(restaurant, category), db.Contents(), fault)
    {
      if category !in db.categories {
        return Some(CategoryNotFound);
      }
      if CategoryUsed(db.Contents(), category) {
        return Some(Conflict);
      }
      db.categories := db.categories - {category};
      return None;
    }

    method InsertItem(item: Id, dish: Dish) returns (fault: Option<Error>)
      requires !db.open
      modifies db`dishes
      ensures Wrote(old(db.Contents()), AddItem(item, dish), db.Contents(), fault)
    {
      if item in db.dishes {
        return Some(Conflict);
      }
      if !DishInRange(dish) {
        return Some(InvalidInput);
      }
      if !CategoryOf(db.categories, dish.category, dish.restaurant) {
        return Some(Conflict);
      }
      db.dishes := db.dishes[item := dish];
      return None;
    }

    /** Sets the columns the patch names; with none named it is a read. */
    method UpdateItem(restaurant: Id, item: Id, patch: Patch) returns (fault: Option<Error>)
      requires !db.open
      modifies db`dishes
      ensures Wrote(old(db.Contents()), EditItem(restaurant, item, patch), db.Contents(), fault)
      ensures fault.None? ==>
                && item in old(db.dishes) && item in db.dishes && Edited(patch, old(db.dishes)[item], db.dishes[item])
    {
      if item !in db.dishes {
        return Some(MenuItemNotFound);
      }
      if patch == NoChange {
        return None;
      }
      var dish := db.dishes[item];
      if patch.category.Some? { dish := dish.(category := patch.category.value); }
      if patch.name.Some? { dish := dish.(name := patch.name.value); }
      if patch.description.Some? { dish := dish.(description := patch.description.value); }
      if patch.price.Some? { dish := dish.(price := patch.price.value); }
      if patch.stock.Some? { dish := dish.(stock := patch.stock.value); }
      if patch.available.Some? { dish := dish.(available := patch.available.value); }
      assert dish == Patched(db.dishes[item], patch);
      if !DishInRange(dish) {
        return Some(InvalidInput);
      }
      if !CategoryOf(db.categories, dish.category, dish.restaurant) {
        return Some(Conflict);
      }
      db.dishes := db.dishes[item := dish];
      return None;
    }

    /** ON DELETE RESTRICT: a dish on any receipt stays. */
    method DeleteItem(restaurant: Id, item: Id) returns (fault: Option<Error>)
      requires !db.open
      modifies db`dishes
      ensures Wrote(old(db.Contents()), DropItem(restaurant, item), db.Contents(), fault)
    {
      if item !in db.dishes {
        return Some(MenuItemNotFound);
      }
      if DishOrdered(db.Contents(), item) {
        return Some(Conflict);
      }
      db.dishes := db.dishes - {item};
      return None;
    }
  }

  predicate Listable(dish: Dish, restaurant: Id, onlyAvailable: bool) {
    dish.restaurant == restaurant && (onlyAvailable ==> dish.available)
  }

  /** The statement did what it says, or failed and changed nothing. */
  ghost predicate Wrote(before: Db, op: Op, after: Db, fault: Option<Error>)
    requires !op.IsOrderOp()
  {
    match Statement(before, op)
    case Err(error) => fault == Some(error) && after == before
    case Ok(db) => fault.None? && after == db
  }

  /** The call did what it says, or failed and changed nothing. */
  ghost predicate Done(before: Db, op: Op, after: Db, fault: Option<Error>) {
    match Apply(before, op)
    case Err(error) => fault == Some(error) && after == before
    case Ok(db) => fault.None? && after == db
  }

  /** The call did what it says, after a check that its restaurant exists, which invalid input precedes. */
  ghost predicate ForKnown(before: Db, op: Op, restaurant: Id, known: set<Id>, after: Db, fault: Option<Error>)
    requires op.AddCategory? || op.AddItem?
  {
    if restaurant in known || MenuFault(before, op) == Some(InvalidInput) then Done(before, op, after, fault)
    else fault == Some(RestaurantNotFound) && after == before
  }

  /** A restaurant's menu: a section for each of its categories, and in it every dish of that category,
      or every available one, exactly once. */
  ghost predicate MenuOf(db: Db, restaurant: Id, onlyAvailable: bool, menu: seq<Section>) {
    && (forall j, k :: 0 <= j < k < |menu| ==> menu[j].id != menu[k].id)
    && (forall c | c in db.categories && db.categories[c].restaurant == restaurant :: HasSection(menu, c))
    && (forall k :: 0 <= k < |menu| ==>
          && menu[k].id in db.categories && menu[k].category == db.categories[menu[k].id]
          && menu[k].category.restaurant == restaurant
          && Distinct(Ids(menu[k].items))
          && forall row :: row in menu[k].items <==>
               row.id in db.dishes && row.dish == db.dishes[row.id]
               && row.dish.restaurant == restaurant && row.dish.category == menu[k].id
               && (onlyAvailable ==> row.dish.available))
    && (forall d | d in db.dishes && db.dishes[d].restaurant == restaurant
                   && (onlyAvailable ==> db.dishes[d].available) :: HasSection(menu, db.dishes[d].category))
  }

  ghost predicate HasSection(menu: seq<Section>, c: Id) {
    exists k :: 0 <= k < |menu| && menu[k].id == c
  }

  /** Grouping both listings gives the menu. */
  lemma MenuIs(db: Db, restaurant: Id, onlyAvailable: bool,
               categories: seq<(Id, Category)>, items: seq<Fetched>, menu: seq<Section>)
    requires WellFormed(db)
    requires Distinct(IdsOf(categories))
    requires forall c :: c in IdsOf(categories) <==> c in db.categories && db.categories[c].restaurant == restaurant
    requires forall k :: 0 <= k < |categories| ==>
               categories[k].0 in db.categories && categories[k].1 == db.categories[categories[k].0]
    requires Distinct(Ids(items))
    requires forall row :: row in items <==>
               row.id in db.dishes && row.dish == db.dishes[row.id] && Listable(row.dish, restaurant, onlyAvailable)
    requires |menu| == |categories|
    requires forall k :: 0 <= k < |menu| ==> menu[k].id == categories[k].0 && menu[k].category == categories[k].1
    requires ItemsOf(menu) == Groups(IdsOf(categories), items, CategoryKey)
    ensures MenuOf(db, restaurant, onlyAvailable, menu)
  {
    var ids := IdsOf(categories);
    forall k | 0 <= k < |menu|
      ensures menu[k].category.restaurant == restaurant && Distinct(Ids(menu[k].items))
      ensures forall row :: row in menu[k].items <==> row in items && row.dish.category == menu[k].id
    {
      assert ids[k] in ids;
      assert ItemsOf(menu)[k] == menu[k].items == Groups(ids, items, CategoryKey)[k]
          == Having(items, CategoryKey, ids[k]);
      HavingIs(items, ids[k]);
    }
    forall c | c in ids ensures HasSection(menu, c) {
      var k :| 0 <= k < |ids| && ids[k] == c;
      assert menu[k].id == c;
    }
    forall d | d in db.dishes && Listable(db.dishes[d], restaurant, onlyAvailable)
      ensures db.dishes[d].category in ids
    {
      assert DishOk(db.categories, db.dishes[d]);
    }
    assert forall k :: 0 <= k < |menu| ==> menu[k].id == ids[k];
    forall j, k | 0 <= j < k < |menu| ensures menu[j].id != menu[k].id {
      assert ids[j] != ids[k];
    }
    forall c | c in db.categories && db.categories[c].restaurant == restaurant ensures HasSection(menu, c) {
      assert c in ids;
    }
    hide WellFormed, Groups, Having;
  }

  lemma {:induction false} HavingHas(items: seq<Fetched>, c: Id, row: Fetched)
    ensures row in Having(items, CategoryKey, c) <==> row in items && row.dish.category == c
  {
    if items != [] {
      var n := |items| - 1;
      HavingHas(items[..n], c, row);
      assert items == items[..n] + [items[n]];
    }
  }

  lemma {:induction false} HavingOnce(items: seq<Fetched>, c: Id)
    requires Distinct(Ids(items))
    ensures Distinct(Ids(Having(items, CategoryKey, c)))
  {
    if items != [] {
      var n := |items| - 1;
      var front, kept := items[..n], Having(items[..n], CategoryKey, c);
      assert Ids(front) == Ids(items)[..n];
      HavingOnce(front, c);
      forall i | 0 <= i < |kept| ensures Ids(kept)[i] != items[n].id {
        HavingHas(front, c, kept[i]);
        var j :| 0 <= j < n && front[j] == kept[i];
        assert Ids(items)[j] != Ids(items)[n];
      }
      if CategoryKey(items[n]) == c {
        assert Ids(kept + [items[n]]) == Ids(kept) + [items[n].id];
      } else {
        assert Having(items, CategoryKey, c) == kept;
      }
    }
  }

  /** A group keeps exactly the dishes of its category, each once. */
  lemma HavingIs(items: seq<Fetched>, c: Id)
    requires Distinct(Ids(items))
    ensures forall row :: row in Having(items, CategoryKey, c) <==> row in items && row.dish.category == c
    ensures Distinct(Ids(Having(items, CategoryKey, c)))
  {
    forall row ensures row in Having(items, CategoryKey, c) <==> row in items && row.dish.category == c {
      HavingHas(items, c, row);
    }
    HavingOnce(items, c);
  }

  class MenuService {
    const db: Database
    const menu: MenuStatements
    const restaurants: RestaurantRepository

    constructor (db: Database, restaurants: RestaurantRepository)
      ensures this.db == db && menu.db == db && this.restaurants == restaurants
    {
      this.db := db;
      this.menu := new MenuStatements(db);
      this.restaurants := restaurants;
    }

    /** GetFullMenu: two reads and the grouping. One section per category of the restaurant, in listing
        order, each with the dishes that name it; and no listed dish is lost or invented. */
    method GetFullMenu(restaurant: Id, onlyAvailable: bool) returns (answer: Result<seq<Section>>)
      requires menu.db == db && WellFormed(db.Contents())
      ensures restaurant == NIL ==> answer == Err(InvalidInput)
      ensures restaurant != NIL && restaurant !in restaurants.rows ==> answer == Err(RestaurantNotFound)
      ensures restaurant != NIL && restaurant in restaurants.rows ==>
                answer.Ok? && MenuOf(db.Contents(), restaurant, onlyAvailable, answer.value)
    {
      if restaurant == NIL {
        return Err(InvalidInput);
      }
      if restaurants.Sample(restaurant).None? {
        return Err(RestaurantNotFound);
      }
      var categories := menu.ListCategoriesByRestaurant(restaurant);
      var items := menu.ListItemsByRestaurant(restaurant, onlyAvailable);
      var sections := Catalogue.GetFullMenu(categories, items);
      MenuIs(db.Contents(), restaurant, onlyAvailable, categories, items, sections);
      return Ok(sections);
    }

    /** assertCategoryOwned. */
    method CategoryOwned(restaurant: Id, category: Id) returns (fault: Option<Error>)
      requires menu.db == db
      ensures fault == if restaurant == NIL || category == NIL then Some(InvalidInput)
                       else if !CategoryOf(db.categories, category, restaurant) then Some(CategoryNotFound)
                       else None
    {
      if restaurant == NIL || category == NIL {
        return Some(InvalidInput);
      }
      var row := menu.GetCategoryByID(category);
      if row.None? || row.value.restaurant != restaurant {
        return Some(CategoryNotFound);
      }
      return None;
    }

    /** assertItemOwned: somebody else's dish is reported as missing. */
    method ItemOwned(restaurant: Id, item: Id) returns (fault: Option<Error>)
      requires menu.db == db
      ensures fault == if restaurant == NIL || item == NIL then Some(InvalidInput)
                       else if item !in db.dishes || db.dishes[item].restaurant != restaurant then Some(MenuItemNotFound)
                       else None
    {
      if restaurant == NIL || item == NIL {
        return Some(InvalidInput);
      }
      var row := menu.GetItemByID(item);
      if row.None? || row.value.restaurant != restaurant {
        return Some(MenuItemNotFound);
      }
      return None;
    }

    method CreateCategory(restaurant: Id, category: Id, name: string) returns (fault: Option<Error>)
      requires menu.db == db && !db.open
      modifies db`categories
      ensures ForKnown(old(db.Contents()), AddCategory(restaurant, category, name), restaurant,
                       restaurants.rows.Keys, db.Contents(), fault)
    {
      if restaurant == NIL {
        return Some(InvalidInput);
      }
      if restaurants.Sample(restaurant).None? {
        return Some(RestaurantNotFound);
      }
      fault := menu.InsertCategory(restaurant, category, name);
    }

    /** Without a name the update touches no column of the model. */
    method UpdateCategory(restaurant: Id, category: Id, name: Option<string>) returns (fault: Option<Error>)
      requires menu.db == db && !db.open
      modifies db`categories
      ensures name.Some? ==>
                Done(old(db.Contents()), RenameCategory(restaurant, category, name.value), db.Contents(), fault)
      ensures name.None? ==>
                db.Contents() == old(db.Contents())
                && fault == MenuFault(old(db.Contents()), RenameCategory(restaurant, category, ""))
    {
      fault := CategoryOwned(restaurant, category);
      if fault.None? && name.Some? {
        fault := menu.UpdateCategory(restaurant, category, name.value);
      }
    }

    method DeleteCategory(restaurant: Id, category: Id) returns (fault: Option<Error>)
      requires menu.db == db && !db.open
      modifies db`categories
      ensures Done(old(db.Contents()), DropCategory(restaurant, category), db.Contents(), fault)
    {
      fault := CategoryOwned(restaurant, category);
      if fault.None? {
        fault := menu.DeleteCategory(restaurant, category);
      }
    }

    method CreateItem(item: Id, dish: Dish) returns (fault: Option<Error>)
      requires menu.db == db && !db.open
      modifies db`dishes
      ensures ForKnown(old(db.Contents()), AddItem(item, dish), dish.restaurant, restaurants.rows.Keys,
                       db.Contents(), fault)
    {
      if dish.restaurant == NIL || dish.category == NIL || !DishInRange(dish) {
        return Some(InvalidInput);
      }
      if restaurants.Sample(dish.restaurant).None? {
        return Some(RestaurantNotFound);
      }
      var category := menu.GetCategoryByID(dish.category);
      if category.None? || category.value.restaurant != dish.restaurant {
        return Some(CategoryNotFound);
      }
      fault := menu.InsertItem(item, dish);
    }

    /** The handler's validation of the patch, then both ownership checks, then the statement. */
    method UpdateItem(restaurant: Id, item: Id, patch: Patch) returns (fault: Option<Error>)
      requires menu.db == db && !db.open
      modifies db`dishes
      ensures Done(old(db.Contents()), EditItem(restaurant, item, patch), db.Contents(), fault)
      ensures fault.None? ==>
                && item in old(db.dishes) && item in db.dishes && Edited(patch, old(db.dishes)[item], db.dishes[item])
    {
      if !PatchInRange(patch) {
        return Some(InvalidInput);
      }
      fault := ItemOwned(restaurant, item);
      if fault.None? && patch.category.Some? {
        fault := CategoryOwned(restaurant, patch.category.value);
      }
      if fault.None? {
        fault := menu.UpdateItem(restaurant, item, patch);
      }
    }

    method DeleteItem(restaurant: Id, item: Id) returns (fault: Option<Error>)
      requires menu.db == db && !db.open
      modifies db`dishes
      ensures Done(old(db.Contents()), DropItem(restaurant, item), db.Contents(), fault)
    {
      fault := ItemOwned(restaurant, item);
      if fault.None? {
        fault := menu.DeleteItem(restaurant, item);
      }
    }
  }
}
