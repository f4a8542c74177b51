/** The connection the repositories share: tables changed in place, and the transaction around them.
    While a transaction is open every change logs the row it replaces; rolling back replays that log
    backwards. */
module Store {
  import opened Domain
  import opened Spec

  datatype Change = DishWas(id: Id, dish: Dish) | OrderWas(id: Id, order: Order) | OrderNew(id: Id)

  /** What the infrastructure does to a call: nothing, a read or statement at the end of its transaction
      body fails, or its COMMIT does. */
  datatype Fate = Fine | BodyFails | CommitFails

  /** Restaurants, read without locks. */
  class RestaurantRepository {
    var rows: map<Id, RestaurantRow>

    constructor (rows: map<Id, RestaurantRow>)
      ensures this.rows == rows
    {
      this.rows := rows;
    }

    function Sample(id: Id): (row: Option<RestaurantRow>)
      reads this
      ensures row.Some? <==> id in rows
      ensures row.Some? ==> row.value == rows[id]
    {
      if id in rows then Some(rows[id]) else None
    }
  }

  /** The tables with one logged change taken back. */
  function Undo(db: Db, change: Change): Db {
    match change
    case DishWas(id, dish) => db.(dishes := db.dishes[id := dish])
    case OrderWas(id, order) => db.(orders := db.orders[id := order])
    case OrderNew(id) => db.(orders := db.orders - {id})
  }

  /** The tables with all logged changes taken back, the latest first. */
  function UndoAll(db: Db, log: seq<Change>): Db
    decreases |log|
  {
    if log == [] then db
    else
      var n := |log| - 1;
      UndoAll(Undo(db, log[n]), log[..n])
  }

  class Database {
    var categories: map<Id, Category>
    var dishes: map<Id, Dish>
    var orders: map<Id, Order>
    var open: bool
    var undo: seq<Change>

    constructor (db: Db)
      ensures Valid() && !open && Contents() == db
    {
      categories, dishes, orders, open, undo := db.categories, db.dishes, db.orders, false, [];
    }

    ghost predicate Valid()
      reads this
    {
      !open ==> undo == []
    }

    function Contents(): Db
      reads this
    {
      Db(categories, dishes, orders)
    }

    /** What a rollback would restore. */
    ghost function Base(): Db
      reads this
    {
      UndoAll(Contents(), undo)
    }

    /** Opens a transaction, or joins the one that is already open. */
    method Begin() returns (joined: bool)
      requires Valid()
      modifies this`open, this`undo
      ensures Valid() && open && joined == old(open) && Base() == old(Base())
    {
      joined := open;
      open := true;
    }

    /** Takes back everything since the transaction was opened. */
    method Rollback()
      requires Valid() && open
      modifies this
      ensures Valid() && !open && Contents() == old(Base())
    {
      while undo != []
        invariant Base() == old(Base())
        invariant open
        decreases |undo|
      {
        var n := |undo| - 1;
        match undo[n] {
          case DishWas(id, dish) => dishes := dishes[id := dish];
          case OrderWas(id, order) => orders := orders[id := order];
          case OrderNew(id) => orders := orders - {id};
        }
        undo := undo[..n];
      }
      open := false;
    }

    method Commit()
      requires Valid() && open
      modifies this`open, this`undo
      ensures Valid() && !open
    {
      undo := [];
      open := false;
    }

    /** The end of WithinTransaction. Whoever joined leaves the transaction to its owner; the owner's
        deferred rollback runs when its body failed or panicked, and when COMMIT fails. */
    method Finish(joined: bool, failed: bool, commits: bool) returns (kept: bool)
      requires Valid() && open
      modifies this
      ensures Valid() && open == joined
      ensures kept == (!failed && (joined || commits))
      ensures joined ==> Contents() == old(Contents()) && Base() == old(Base())
      ensures !joined ==> Contents() == if kept then old(Contents()) else old(Base())
    {
      if joined {
        return !failed;
      }
      if failed || !commits {
        Rollback();
        return false;
      }
      Commit();
      return true;
    }

    /** UPDATE of one dish row. */
    method PutDish(id: Id, dish: Dish)
      requires Valid() && id in dishes
      modifies this`dishes, this`undo
      ensures Valid() && dishes == old(dishes)[id := dish]
      ensures open ==> Base() == old(Base())
    {
      if open {
        undo := undo + [DishWas(id, dishes[id])];
        assert Undo(Contents().(dishes := dishes[id := dish]), undo[|undo| - 1]).dishes == dishes;
        assert undo[..|undo| - 1] == old(undo);
      }
      dishes := dishes[id := dish];
    }

    /** INSERT or UPDATE of one order row with its lines and audit entries. */
    method PutOrder(id: Id, order: Order)
      requires Valid()
      modifies this`orders, this`undo
      ensures Valid() && orders == old(orders)[id := order]
      ensures open ==> Base() == old(Base())
    {
      if open {
        var was := if id in orders then OrderWas(id, orders[id]) else OrderNew(id);
        undo := undo + [was];
        assert Undo(Contents().(orders := orders[id := order]), was).orders == orders;
        assert undo[..|undo| - 1] == old(undo);
      }
      orders := orders[id := order];
    }
  }
}
