/** The verdicts on the partner's six menu calls over the rows they name: when a call is accepted, which
    check refuses it otherwise, and which columns of which row it changes. */
module MenuVerdict {
  import opened Domain
  import opened Spec
  import opened Tables

  /** The restaurant's own category, or dish. */
  predicate OwnsCategory(db: Db, restaurant: Id, category: Id) {
    category in db.categories && db.categories[category].restaurant == restaurant
  }

  predicate OwnsDish(db: Db, restaurant: Id, item: Id) {
    item in db.dishes && db.dishes[item].restaurant == restaurant
  }

  /** Another category of the restaurant already has the name. */
  ghost predicate NameInUse(db: Db, restaurant: Id, name: string, but: Id) {
    exists c | c in db.categories ::
      c != but && db.categories[c].restaurant == restaurant && db.categories[c].name == name
  }

  ghost predicate HasDishes(db: Db, category: Id) {
    exists d | d in db.dishes :: db.dishes[d].category == category
  }

  ghost predicate OnReceipt(db: Db, item: Id) {
    exists o, k :: o in db.orders && 0 <= k < |db.orders[o].items| && db.orders[o].items[k].dish == item
  }

  predicate PriceFits(price: int) {
    0 <= price < 0x8000_0000_0000_0000
  }

  predicate StockFits(stock: int) {
    0 <= stock <= 0x7FFF_FFFF
  }

  predicate PatchFits(patch: Patch) {
    && (patch.price.Some? ==> PriceFits(patch.price.value))
    && (patch.stock.Some? ==> StockFits(patch.stock.value))
    && (patch.category.Some? ==> patch.category.value != 0)
  }

  lemma InUseIsTaken(db: Db, restaurant: Id, name: string, but: Id)
    ensures NameTaken(db.categories, restaurant, name, but) <==> NameInUse(db, restaurant, name, but)
  {
    if c :| c in db.categories && c != but && db.categories[c] == Category(restaurant, name) {
      assert NameInUse(db, restaurant, name, but);
    }
    if c :| c in db.categories && c != but
            && db.categories[c].restaurant == restaurant && db.categories[c].name == name {
      assert db.categories[c] == Category(restaurant, name);
    }
  }

  lemma OnReceiptIsOrdered(db: Db, item: Id)
    ensures DishOrdered(db, item) <==> OnReceipt(db, item)
  {
    if o :| o in db.orders && Mentions(db.orders[o], item) {
      var k :| 0 <= k < |db.orders[o].items| && db.orders[o].items[k].dish == item;
    }
    if o, k :| o in db.orders && 0 <= k < |db.orders[o].items| && db.orders[o].items[k].dish == item {
      assert Mentions(db.orders[o], item);
    }
  }

  // ---------- categories ----------

  /** A new category: any restaurant, a name it does not use yet; it adds that one row. */
  lemma AddCategoryVerdict(db: Db, op: Op)
    requires op.AddCategory?
    ensures Apply(db, op).Ok? <==>
            op.restaurant != 0 && op.category !in db.categories && !NameInUse(db, op.restaurant, op.name, op.category)
    ensures Apply(db, op).Err? ==> Apply(db, op) == Err(if op.restaurant == 0 then InvalidInput else Conflict)
    ensures Apply(db, op).Ok? ==>
              && Apply(db, op).value.dishes == db.dishes && Apply(db, op).value.orders == db.orders
              && Apply(db, op).value.categories == db.categories[op.category := Category(op.restaurant, op.name)]
  {
    InUseIsTaken(db, op.restaurant, op.name, op.category);
    hide NameTaken, NameInUse;
  }

  /** A rename: the caller's own category, a name that none of its others has; only the name changes. */
  lemma RenameCategoryVerdict(db: Db, op: Op)
    requires op.RenameCategory?
    ensures Apply(db, op).Ok? <==>
            && op.restaurant != 0 && op.category != 0 && OwnsCategory(db, op.restaurant, op.category)
            && !NameInUse(db, op.restaurant, op.name, op.category)
    ensures Apply(db, op).Err? ==>
              Apply(db, op) == Err(if op.restaurant == 0 || op.category == 0 then InvalidInput
                                   else if !OwnsCategory(db, op.restaurant, op.category) then CategoryNotFound
                                   else Conflict)
    ensures Apply(db, op).Ok? ==>
              && Apply(db, op).value.dishes == db.dishes && Apply(db, op).value.orders == db.orders
              && Apply(db, op).value.categories == db.categories[op.category := Category(op.restaurant, op.name)]
  {
    InUseIsTaken(db, op.restaurant, op.name, op.category);
    hide NameTaken, NameInUse;
  }

  /** A deletion: the caller's own category, without dishes; only its row goes. */
  lemma DropCategoryVerdict(db: Db, op: Op)
    requires op.DropCategory?
    ensures Apply(db, op).Ok? <==>
            && op.restaurant != 0 && op.category != 0 && OwnsCategory(db, op.restaurant, op.category)
            && !HasDishes(db, op.category)
    ensures Apply(db, op).Err? ==>
              Apply(db, op) == Err(if op.restaurant == 0 || op.category == 0 then InvalidInput
                                   else if !OwnsCategory(db, op.restaurant, op.category) then CategoryNotFound
                                   else Conflict)
    ensures Apply(db, op).Ok? ==>
              && Apply(db, op).value.dishes == db.dishes && Apply(db, op).value.orders == db.orders
              && Apply(db, op).value.categories.Keys == db.categories.Keys - {op.category}
              && forall c | c in db.categories && c != op.category ::
                   Apply(db, op).value.categories[c] == db.categories[c]
  {
    assert HasDishes(db, op.category) <==> CategoryUsed(db, op.category);
    hide CategoryUsed, HasDishes;
  }

  // ---------- dishes ----------

  /** A new dish: numbers in range, in one of its restaurant's own categories; it adds that one row. */
  lemma AddItemVerdict(db: Db, op: Op)
    requires op.AddItem?
    ensures Apply(db, op).Ok? <==>
            && op.dish.restaurant != 0 && op.dish.category != 0 && PriceFits(op.dish.price) && StockFits(op.dish.stock)
            && OwnsCategory(db, op.dish.restaurant, op.dish.category) && op.item !in db.dishes
    ensures Apply(db, op).Err? ==>
              Apply(db, op) ==
              Err(if op.dish.restaurant == 0 || op.dish.category == 0
                     || !PriceFits(op.dish.price) || !StockFits(op.dish.stock) then InvalidInput
                  else if !OwnsCategory(db, op.dish.restaurant, op.dish.category) then CategoryNotFound
                  else Conflict)
    ensures Apply(db, op).Ok? ==>
              && Apply(db, op).value.categories == db.categories && Apply(db, op).value.orders == db.orders
              && Apply(db, op).value.dishes == db.dishes[op.item := op.dish]
  {
  }

  /** An update: the caller's own dish, and its own category if it moves there. On well-formed tables no
      column check is left to fail. */
  lemma EditItemAccepted(db: Db, op: Op)
    requires WellFormed(db) && op.EditItem?
    ensures Apply(db, op).Ok? <==>
            && PatchFits(op.patch) && op.restaurant != 0 && op.item != 0 && OwnsDish(db, op.restaurant, op.item)
            && (op.patch.category.Some? ==> OwnsCategory(db, op.restaurant, op.patch.category.value))
    ensures Apply(db, op).Err? ==>
              Apply(db, op) == Err(if !PatchFits(op.patch) || op.restaurant == 0 || op.item == 0 then InvalidInput
                                   else if !OwnsDish(db, op.restaurant, op.item) then MenuItemNotFound
                                   else CategoryNotFound)
  {
    if op.item in db.dishes {
      assert DishOk(db.categories, db.dishes[op.item]);
    }
    hide WellFormed;
  }

  /** The value a column has after an update: the given one, or the one it had. */
  predicate Column<T(==)>(given: Option<T>, was: T, now: T) {
    match given
    case Some(value) => now == value
    case None => now == was
  }

  /** The row after an update, column by column; its owner stays. */
  predicate Edited(patch: Patch, was: Dish, now: Dish) {
    && now.restaurant == was.restaurant
    && Column(patch.category, was.category, now.category)
    && Column(patch.name, was.name, now.name)
    && Column(patch.description, was.description, now.description)
    && Column(patch.price, was.price, now.price)
    && Column(patch.stock, was.stock, now.stock)
    && Column(patch.available, was.available, now.available)
  }

  /** An accepted update gives each named column its new value and keeps the others, the dish's owner, all
      other dishes, the categories and the orders. */
  lemma EditItemWrites(db: Db, op: Op)
    requires op.EditItem? && Apply(db, op).Ok?
    ensures op.item in db.dishes
    ensures var after := Apply(db, op).value;
            && after.categories == db.categories && after.orders == db.orders
            && after.dishes.Keys == db.dishes.Keys
            && (forall d | d in db.dishes && d != op.item :: after.dishes[d] == db.dishes[d])
            && Edited(op.patch, db.dishes[op.item], after.dishes[op.item])
  {
  }

  /** A deletion: the caller's own dish, on no receipt; only its row goes. */
  lemma DropItemVerdict(db: Db, op: Op)
    requires op.DropItem?
    ensures Apply(db, op).Ok? <==>
            op.restaurant != 0 && op.item != 0 && OwnsDish(db, op.restaurant, op.item) && !OnReceipt(db, op.item)
    ensures Apply(db, op).Err? ==>
              Apply(db, op) == Err(if op.restaurant == 0 || op.item == 0 then InvalidInput
                                   else if !OwnsDish(db, op.restaurant, op.item) then MenuItemNotFound
                                   else Conflict)
    ensures Apply(db, op).Ok? ==>
              && Apply(db, op).value.categories == db.categories && Apply(db, op).value.orders == db.orders
              && Apply(db, op).value.dishes.Keys == db.dishes.Keys - {op.item}
              && forall d | d in db.dishes && d != op.item :: Apply(db, op).value.dishes[d] == db.dishes[d]
  {
    OnReceiptIsOrdered(db, op.item);
    hide DishOrdered, OnReceipt;
  }
}
