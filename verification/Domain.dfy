/** Entities of the platform, the order lifecycle tables and the input checks made before any
    transaction begins (internal/domain). Row identifiers are UUIDs; only their total order and
    their uniqueness matter, so they are natural numbers and zero is uuid.Nil. */
module Domain {

  type Id = nat

  const NIL: Id := 0
  const MAX_ADDRESS_LEN := 500
  const MAX_FREE_TEXT_LEN := 1000
  const INT4_MAX: int := 0x7FFF_FFFF
  const INT64_SPAN: int := 0x1_0000_0000_0000_0000
  const INT64_HALF: int := 0x8000_0000_0000_0000

  datatype Option<+T> = None | Some(value: T)

  datatype Result<+T> = Ok(value: T) | Err(error: Error)

  datatype Error =
    | NotFound
    | RestaurantNotFound
    | RestaurantInactive
    | CategoryNotFound
    | MenuItemNotFound
    | ItemUnavailable
    | OutOfStock
    | RestaurantMismatch
    | EmptyOrder
    | InvalidStatusTransition
    | OrderAlreadyProcessed
    | InvalidInput
    | Conflict
    | Interrupted // the connection or the request context died before COMMIT

  datatype Status = Created | Accepted | Cooking | Ready | Delivering | Completed | Cancelled

  datatype Actor = Customer | Restaurant | System

  /** The forward lifecycle; cancellation is deliberately absent. */
  predicate CanTransitionTo(from: Status, to: Status) {
    match from
    case Created => to == Accepted
    case Accepted => to == Cooking
    case Cooking => to == Ready
    case Ready => to == Delivering
    case Delivering => to == Completed
    case Completed => false
    case Cancelled => false
  }

  /** Who may cancel an order in a given status. */
  predicate CanBeCancelledBy(status: Status, actor: Actor) {
    match actor
    case Customer => status == Created
    case Restaurant => status == Created || status == Accepted || status == Cooking
    case System => false
  }

  /** The two tables of the order lifecycle; a missing key allows nothing. */
  const FORWARD_TRANSITIONS: map<Status, seq<Status>> :=
    map[Created := [Accepted], Accepted := [Cooking], Cooking := [Ready], Ready := [Delivering], Delivering := [Completed]]

  const CANCELLABLE_BY: map<Actor, seq<Status>> :=
    map[Customer := [Created], Restaurant := [Created, Accepted, Cooking]]

  /** The table lookup behind CanTransitionTo. */
  method LookUpTransition(from: Status, to: Status) returns (allowed: bool)
    ensures allowed == CanTransitionTo(from, to)
  {
    var row := if from in FORWARD_TRANSITIONS then FORWARD_TRANSITIONS[from] else [];
    assert to in row <==> CanTransitionTo(from, to);
    for i := 0 to |row|
      invariant forall j :: 0 <= j < i ==> row[j] != to
    {
      if row[i] == to {
        return true;
      }
    }
    return false;
  }

  /** The table lookup behind CanBeCancelledBy. */
  method LookUpCancellation(status: Status, actor: Actor) returns (allowed: bool)
    ensures allowed == CanBeCancelledBy(status, actor)
  {
    var row := if actor in CANCELLABLE_BY then CANCELLABLE_BY[actor] else [];
    assert status in row <==> CanBeCancelledBy(status, actor);
    for i := 0 to |row|
      invariant forall j :: 0 <= j < i ==> row[j] != status
    {
      if row[i] == status {
        return true;
      }
    }
    return false;
  }

  datatype Category = Category(restaurant: Id, name: string)

  datatype Dish = Dish(
    restaurant: Id, category: Id, name: string, description: string,
    price: int, stock: int, available: bool)

  /** One receipt line: a snapshot of the dish at the moment of order placement. */
  datatype OrderItem = OrderItem(dish: Id, name: string, price: int, qty: int)

  /** One audit entry. The entry into `Created` has no previous status. */
  datatype Entry = Entry(from: Option<Status>, to: Status, actor: Actor)

  datatype Order = Order(
    user: Id, restaurant: Id, status: Status, total: int,
    items: seq<OrderItem>, history: seq<Entry>)

  datatype Line = Line(dish: Id, qty: int)

  datatype CheckoutInput = CheckoutInput(user: Id, restaurant: Id, lines: seq<Line>, address: string, comment: string)

  /** What a checkout reads of its restaurant, without locking it. */
  datatype RestaurantRow = RestaurantRow(active: bool, url: string)

  /** Optional columns of a dish update; `None` leaves the column alone. */
  datatype Patch = Patch(
    category: Option<Id>, name: Option<string>, description: Option<string>,
    price: Option<int>, stock: Option<int>, available: Option<bool>)

  predicate DistinctDishes(lines: seq<Line>) {
    forall i, j :: 0 <= i < j < |lines| ==> lines[i].dish != lines[j].dish
  }

  predicate ValidLines(lines: seq<Line>) {
    && DistinctDishes(lines)
    && forall i :: 0 <= i < |lines| ==> lines[i].dish != NIL && lines[i].qty > 0
  }

  /** White space as Unicode has it. */
  predicate IsSpace(c: char) {
    || '\t' <= c <= '\r' || c == ' ' || c == '\U{85}' || c == '\U{A0}' || c == '\U{1680}'
    || '\U{2000}' <= c <= '\U{200A}' || c == '\U{2028}' || c == '\U{2029}' || c == '\U{202F}' || c == '\U{205F}'
    || c == '\U{3000}'
  }

  predicate Blank(text: string) {
    forall i :: 0 <= i < |text| ==> IsSpace(text[i])
  }

  function Utf8Width(c: char): nat {
    if c < '\U{80}' then 1 else if c < '\U{800}' then 2 else if c < '\U{10000}' then 3 else 4
  }

  /** The length of a text in bytes, the unit in which it is bounded. */
  function ByteLen(text: string): nat {
    if text == "" then 0 else ByteLen(text[..|text| - 1]) + Utf8Width(text[|text| - 1])
  }

  predicate TextFits(input: CheckoutInput) {
    !Blank(input.address) && ByteLen(input.address) <= MAX_ADDRESS_LEN && ByteLen(input.comment) <= MAX_FREE_TEXT_LEN
  }

  /** The verdict of CreateOrderInput.Validate, with no reference to how it is computed. */
  function InputFault(input: CheckoutInput): Option<Error> {
    if input.user == NIL || input.restaurant == NIL || !TextFits(input) then Some(InvalidInput)
    else if input.lines == [] then Some(EmptyOrder)
    else if !ValidLines(input.lines) then Some(InvalidInput)
    else None
  }

  /** CreateOrderInput.Validate: one pass that remembers the dishes already seen. */
  method Validate(input: CheckoutInput) returns (fault: Option<Error>)
    ensures fault == InputFault(input)
  {
    if input.user == NIL || input.restaurant == NIL {
      return Some(InvalidInput);
    }
    if Blank(input.address) || ByteLen(input.address) > MAX_ADDRESS_LEN {
      return Some(InvalidInput);
    }
    if ByteLen(input.comment) > MAX_FREE_TEXT_LEN {
      return Some(InvalidInput);
    }
    if |input.lines| == 0 {
      return Some(EmptyOrder);
    }
    var seen: set<Id> := {};
    for i := 0 to |input.lines|
      invariant ValidLines(input.lines[..i])
      invariant seen == set j | 0 <= j < i :: input.lines[j].dish
    {
      var line := input.lines[i];
      if line.dish == NIL || line.qty <= 0 {
        assert !ValidLines(input.lines);
        return Some(InvalidInput);
      }
      if line.dish in seen {
        assert !DistinctDishes(input.lines);
        return Some(InvalidInput);
      }
      seen := seen + {line.dish};
    }
    assert input.lines[..|input.lines|] == input.lines;
    return None;
  }

  /** Quantity requested per dish, as the checkout's lookup map holds it. */
  function Wanted(lines: seq<Line>): map<Id, int> {
    if lines == [] then map[]
    else
      var n := |lines| - 1;
      Wanted(lines[..n])[lines[n].dish := lines[n].qty]
  }

  /** The lookup map has an entry for exactly the dishes requested. */
  lemma {:induction false} WantedDishes(lines: seq<Line>, d: Id)
    ensures d in Wanted(lines) <==> exists i :: 0 <= i < |lines| && lines[i].dish == d
    ensures d in Wanted(lines) ==> Line(d, Wanted(lines)[d]) in lines
  {
    if lines != [] {
      var n := |lines| - 1;
      WantedDishes(lines[..n], d);
      if i :| 0 <= i < |lines| && lines[i].dish == d {
        assert i < n ==> lines[..n][i].dish == d;
      }
    }
  }

  /** Distinct lines make the lookup map exactly the request: same size, every line its own entry. */
  lemma {:induction false} WantedIsRequest(lines: seq<Line>)
    requires DistinctDishes(lines)
    ensures |Wanted(lines)| == |lines|
    ensures forall i :: 0 <= i < |lines| ==>
              lines[i].dish in Wanted(lines) && Wanted(lines)[lines[i].dish] == lines[i].qty
  {
    if lines != [] {
      var n := |lines| - 1;
      var front := lines[..n];
      WantedIsRequest(front);
      assert forall i :: 0 <= i < n ==> front[i] == lines[i];
      WantedDishes(front, lines[n].dish);
      assert Wanted(lines).Keys == Wanted(front).Keys + {lines[n].dish};
    }
  }

  /** Two's complement truncation of an exact integer to int64. */
  function Wrap64(x: int): (w: int)
    ensures -INT64_HALF <= w < INT64_HALF
    ensures (w - x) % INT64_SPAN == 0
  {
    (x + INT64_HALF) % INT64_SPAN - INT64_HALF
  }

  /** Truncating at every step is the same as truncating the exact value once. */
  lemma WrapAdd(a: int, b: int)
    ensures Wrap64(Wrap64(a) + Wrap64(b)) == Wrap64(a + b)
  {
    var k := (Wrap64(a) + Wrap64(b) - (a + b)) / INT64_SPAN;
    assert Wrap64(a) + Wrap64(b) == a + b + k * INT64_SPAN;
    WrapShift(a + b, k);
  }

  lemma WrapShift(x: int, k: int)
    ensures Wrap64(x + k * INT64_SPAN) == Wrap64(x)
  {
  }
}
