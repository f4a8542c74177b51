/** Dish search with stable pages: filter, sort by name and then by unique id, cut out a page. */
module Search {
  import opened Domain
  import opened Spec
  import opened Like

  // ---------- the order ----------

  /** Byte-wise comparison of names. */
  predicate Before(a: string, b: string) {
    if b == [] then false
    else if a == [] then true
    else a[0] < b[0] || (a[0] == b[0] && Before(a[1..], b[1..]))
  }

  lemma {:induction false} BeforeTotal(a: string, b: string)
    ensures Before(a, b) || Before(b, a) || a == b
    ensures !(Before(a, b) && Before(b, a)) && !Before(a, a)
  {
    if a != [] && b != [] {
      BeforeTotal(a[1..], b[1..]);
      assert a == [a[0]] + a[1..] && b == [b[0]] + b[1..];
    }
    if a != [] {
      BeforeTotal(a[1..], a[1..]);
    }
  }

  lemma {:induction false} BeforeTransitive(a: string, b: string, c: string)
    requires Before(a, b) && Before(b, c)
    ensures Before(a, c)
  {
    if a != [] {
      if a[0] == b[0] && b[0] == c[0] {
        BeforeTransitive(a[1..], b[1..], c[1..]);
      }
    }
  }

  /** Name first, identifier to break ties. */
  predicate Precedes(a: Fetched, b: Fetched) {
    Before(a.dish.name, b.dish.name) || (a.dish.name == b.dish.name && a.id < b.id)
  }

  lemma PrecedesTransitive(a: Fetched, b: Fetched, c: Fetched)
    requires Precedes(a, b) && Precedes(b, c)
    ensures Precedes(a, c)
  {
    if Before(a.dish.name, b.dish.name) && Before(b.dish.name, c.dish.name) {
      BeforeTransitive(a.dish.name, b.dish.name, c.dish.name);
    }
  }

  lemma PrecedesTotal(a: Fetched, b: Fetched)
    ensures !Precedes(a, a) && !(Precedes(a, b) && Precedes(b, a))
    ensures a.id != b.id ==> Precedes(a, b) || Precedes(b, a)
  {
    BeforeTotal(a.dish.name, b.dish.name);
    BeforeTotal(a.dish.name, a.dish.name);
  }

  ghost predicate Sorted(rows: seq<Fetched>) {
    forall i, j :: 0 <= i < j < |rows| ==> Precedes(rows[i], rows[j])
  }

  // ---------- the result of a search ----------

  /** strings.Contains, after folding both sides. */
  predicate Finds(text: string, needle: string) {
    exists k :: 0 <= k <= |text| && needle <= text[k..]
  }

  predicate Hit(dish: Dish, needle: string, fold: char -> char) {
    dish.available
    && (Finds(Folded(dish.name, fold), Folded(needle, fold))
        || Finds(Folded(dish.description, fold), Folded(needle, fold)))
  }

  /** What the SQL of the real repository asks of a dish and its restaurant, with the search text turned
      into a pattern. */
  ghost predicate SqlHit(dish: Dish, active: bool, search: string, fold: char -> char) {
    var pattern := Tokens(Folded(LikePattern(search), fold));
    && dish.available && active && pattern.Some?
    && (Matches(Folded(dish.name, fold), pattern.value) || Matches(Folded(dish.description, fold), pattern.value))
  }

  lemma FindsIsContains(text: string, needle: string)
    ensures Finds(text, needle) <==> Contains(text, needle)
  {
    if k :| 0 <= k <= |text| && needle <= text[k..] {
      assert FoundAt(text, needle, k);
    }
    if Contains(text, needle) {
      var k: nat :| FoundAt(text, needle, k);
      assert 0 <= k <= |text| && needle <= text[k..];
    }
  }

  /** The escaped ILIKE pattern selects the dishes of active restaurants that the in-memory filter selects. */
  lemma SearchesAgree(dish: Dish, active: bool, search: string, fold: char -> char)
    requires KeepsSpecials(fold)
    ensures SqlHit(dish, active, search, fold) <==> active && Hit(dish, search, fold)
  {
    FoldedSearch(dish.name, search, fold);
    FoldedSearch(dish.description, search, fold);
    FindsIsContains(Folded(dish.name, fold), Folded(search, fold));
    FindsIsContains(Folded(dish.description, fold), Folded(search, fold));
  }

  /** All hits among the dishes `ids` of the menu, in order, each once. */
  ghost predicate IsResult(dishes: map<Id, Dish>, ids: set<Id>, needle: string, fold: char -> char, rows: seq<Fetched>) {
    && Sorted(rows)
    && forall row :: row in rows <==>
         row.id in ids && row.id in dishes && row.dish == dishes[row.id] && Hit(row.dish, needle, fold)
  }

  /** A sorted sequence is determined by its elements. */
  lemma {:induction false} SortedUnique(a: seq<Fetched>, b: seq<Fetched>)
    requires Sorted(a) && Sorted(b) && forall row :: row in a <==> row in b
    ensures a == b
  {
    assert a != [] ==> a[0] in b;
    assert b != [] ==> b[0] in a;
    if a != [] {
      var j :| 0 <= j < |b| && b[j] == a[0];
      var k :| 0 <= k < |a| && a[k] == b[0];
      PrecedesTotal(a[0], b[0]);
      assert a[0] == b[0];
      forall row ensures row in a[1..] <==> row in b[1..] {
        PrecedesTotal(a[0], a[0]);
        assert a == [a[0]] + a[1..] && b == [b[0]] + b[1..];
        assert row in a <==> row in b;
      }
      SortedUnique(a[1..], b[1..]);
      assert a == [a[0]] + a[1..] && b == [b[0]] + b[1..];
    }
  }

  /** The result does not depend on the order in which the menu was walked. */
  lemma ResultUnique(dishes: map<Id, Dish>, ids: set<Id>, needle: string, fold: char -> char,
                     a: seq<Fetched>, b: seq<Fetched>)
    requires IsResult(dishes, ids, needle, fold, a) && IsResult(dishes, ids, needle, fold, b)
    ensures a == b
  {
    SortedUnique(a, b);
  }

  // ---------- pages ----------

  /** Rows from `offset` on, at most `limit` of them; a limit that is not positive means no limit. */
  function Page(rows: seq<Fetched>, limit: int, offset: nat): seq<Fetched> {
    if offset >= |rows| then []
    else
      var rest := rows[offset..];
      if 0 < limit < |rest| then rest[..limit] else rest
  }

  /** The page cut from the one sorted result. */
  ghost predicate IsPage(dishes: map<Id, Dish>, needle: string, fold: char -> char, limit: int, offset: nat,
                         page: seq<Fetched>) {
    exists all :: IsResult(dishes, dishes.Keys, needle, fold, all) && page == Page(all, limit, offset)
  }

  /** A page does not depend on the order in which the menu was walked either. */
  lemma PageUnique(dishes: map<Id, Dish>, needle: string, fold: char -> char, limit: int, offset: nat,
                   a: seq<Fetched>, b: seq<Fetched>)
    requires IsPage(dishes, needle, fold, limit, offset, a) && IsPage(dishes, needle, fold, limit, offset, b)
    ensures a == b
  {
    var x :| IsResult(dishes, dishes.Keys, needle, fold, x) && a == Page(x, limit, offset);
    var y :| IsResult(dishes, dishes.Keys, needle, fold, y) && b == Page(y, limit, offset);
    ResultUnique(dishes, dishes.Keys, needle, fold, x, y);
  }

  /** Page after page from `offset` on. */
  function Pages(rows: seq<Fetched>, limit: nat, offset: nat): seq<seq<Fetched>>
    requires limit > 0
    decreases |rows| - offset
  {
    if offset >= |rows| then [] else [Page(rows, limit, offset)] + Pages(rows, limit, offset + limit)
  }

  function Concat(pages: seq<seq<Fetched>>): seq<Fetched> {
    if pages == [] then [] else pages[0] + Concat(pages[1..])
  }

  lemma PageSplits(rows: seq<Fetched>, limit: nat, offset: nat)
    requires limit > 0 && offset < |rows|
    ensures offset + limit < |rows| ==> rows[offset..] == Page(rows, limit, offset) + rows[offset + limit..]
    ensures offset + limit >= |rows| ==> rows[offset..] == Page(rows, limit, offset)
  {
    if offset + limit < |rows| {
      assert rows[offset..][..limit] == rows[offset..offset + limit];
      assert rows[offset..] == rows[offset..offset + limit] + rows[offset + limit..];
    }
  }

  lemma {:induction false} PagesFrom(rows: seq<Fetched>, limit: nat, offset: nat)
    requires limit > 0 && offset <= |rows|
    ensures Concat(Pages(rows, limit, offset)) == rows[offset..]
    decreases |rows| - offset
  {
    if offset < |rows| {
      var page, rest := Page(rows, limit, offset), Pages(rows, limit, offset + limit);
      PageSplits(rows, limit, offset);
      hide Page;
      assert Pages(rows, limit, offset) == [page] + rest;
      ConcatOne(page, rest);
      if offset + limit < |rows| {
        PagesFrom(rows, limit, offset + limit);
      }
    }
  }

  lemma ConcatOne(page: seq<Fetched>, rest: seq<seq<Fetched>>)
    ensures Concat([page] + rest) == page + Concat(rest)
  {
    assert ([page] + rest)[1..] == rest;
  }

  /** Consecutive pages, for any limit, put together give the whole result: nothing repeated, nothing lost. */
  lemma PagesJoin(rows: seq<Fetched>, limit: nat)
    requires limit > 0
    ensures Concat(Pages(rows, limit, 0)) == rows
  {
    PagesFrom(rows, limit, 0);
  }

  // ---------- what a page shows ----------

  /** The first p characters agree, and then `a` ends or has the smaller character. */
  ghost predicate AheadAt(a: string, b: string, p: nat) {
    p <= |a| && p < |b| && a[..p] == b[..p] && (p == |a| || a[p] < b[p])
  }

  /** Names compare by their first differing character; a name comes before the names it begins. */
  lemma {:induction false} BeforeIsAhead(a: string, b: string)
    ensures Before(a, b) <==> exists p: nat :: AheadAt(a, b, p)
  {
    if a == [] || b == [] {
      assert b != [] ==> AheadAt(a, b, 0);
    } else if a[0] != b[0] {
      assert AheadAt(a, b, 0) <==> a[0] < b[0];
      forall p: nat | 0 < p <= |a| && p <= |b| ensures a[..p][0] == a[0] && b[..p][0] == b[0] {}
    } else {
      BeforeIsAhead(a[1..], b[1..]);
      if p: nat :| AheadAt(a[1..], b[1..], p) {
        AheadShift(a, b, p);
      }
      if p: nat :| AheadAt(a, b, p) {
        assert p > 0;
        AheadShift(a, b, p - 1);
      }
    }
  }

  lemma AheadShift(a: string, b: string, p: nat)
    requires a != [] && b != [] && a[0] == b[0]
    ensures AheadAt(a[1..], b[1..], p) <==> AheadAt(a, b, p + 1)
  {
    if p + 1 <= |a| && p + 1 <= |b| {
      assert a[..p + 1] == [a[0]] + a[1..][..p] && b[..p + 1] == [b[0]] + b[1..][..p];
      assert a[1..][..p] == a[..p + 1][1..] && b[1..][..p] == b[..p + 1][1..];
    }
  }

  /** The needle is in the text at position k, character by character and up to folding. */
  ghost predicate OccursAt(text: string, needle: string, fold: char -> char, k: nat) {
    k + |needle| <= |text| && forall i :: 0 <= i < |needle| ==> fold(text[k + i]) == fold(needle[i])
  }

  lemma FindsIsOccurs(text: string, needle: string, fold: char -> char)
    ensures Finds(Folded(text, fold), Folded(needle, fold)) <==> exists k: nat :: OccursAt(text, needle, fold, k)
  {
    var t, n := Folded(text, fold), Folded(needle, fold);
    if k :| 0 <= k <= |t| && n <= t[k..] {
      forall i | 0 <= i < |needle| ensures fold(text[k + i]) == fold(needle[i]) {
        assert t[k..][i] == n[i];
      }
      assert OccursAt(text, needle, fold, k);
    }
    if k: nat :| OccursAt(text, needle, fold, k) {
      assert n <= t[k..];
    }
  }

  /** A result holds the available dishes with the search text in their name or their description, upper and
      lower case alike, and nothing else; names ascend, and ids among equal names. */
  lemma ResultShows(dishes: map<Id, Dish>, needle: string, fold: char -> char, rows: seq<Fetched>)
    requires IsResult(dishes, dishes.Keys, needle, fold, rows)
    ensures forall d | d in dishes ::
              Fetched(d, dishes[d]) in rows <==>
                && dishes[d].available
                && ((exists k: nat :: OccursAt(dishes[d].name, needle, fold, k))
                    || (exists k: nat :: OccursAt(dishes[d].description, needle, fold, k)))
    ensures forall row | row in rows :: row.id in dishes && row.dish == dishes[row.id]
    ensures forall i, j :: 0 <= i < j < |rows| ==>
              || (rows[i].dish.name == rows[j].dish.name && rows[i].id < rows[j].id)
              || exists p: nat :: AheadAt(rows[i].dish.name, rows[j].dish.name, p)
  {
    forall d | d in dishes
      ensures Hit(dishes[d], needle, fold) <==>
                && dishes[d].available
                && ((exists k: nat :: OccursAt(dishes[d].name, needle, fold, k))
                    || (exists k: nat :: OccursAt(dishes[d].description, needle, fold, k)))
    {
      FindsIsOccurs(dishes[d].name, needle, fold);
      FindsIsOccurs(dishes[d].description, needle, fold);
    }
    forall i, j | 0 <= i < j < |rows|
      ensures (rows[i].dish.name == rows[j].dish.name && rows[i].id < rows[j].id)
              || exists p: nat :: AheadAt(rows[i].dish.name, rows[j].dish.name, p)
    {
      assert Precedes(rows[i], rows[j]);
      BeforeIsAhead(rows[i].dish.name, rows[j].dish.name);
    }
    hide Hit, Before, AheadAt, OccursAt, Folded;
  }

  /** A page is the stretch of the result from its offset on, cut after `limit` rows if the limit is positive. */
  lemma PageShows(rows: seq<Fetched>, limit: int, offset: nat)
    ensures var page := Page(rows, limit, offset);
            && (forall k :: 0 <= k < |page| ==> offset + k < |rows| && page[k] == rows[offset + k])
            && |page| == if offset >= |rows| then 0
                         else if 0 < limit < |rows| - offset then limit else |rows| - offset
  {
  }

  // ---------- the search itself ----------

  /** Where the new row goes, everything before it precedes it and it precedes everything from there on. */
  lemma PrecedesRest(rows: seq<Fetched>, row: Fetched, k: nat)
    requires Sorted(rows) && k < |rows| && rows[k].id != row.id && !Precedes(rows[k], row)
    ensures forall j | k <= j < |rows| :: Precedes(row, rows[j])
  {
    PrecedesTotal(rows[k], row);
    forall j | k <= j < |rows| ensures Precedes(row, rows[j]) {
      if j > k {
        PrecedesTransitive(row, rows[k], rows[j]);
      }
    }
  }

  lemma PlacedSorted(rows: seq<Fetched>, row: Fetched, k: nat)
    requires Sorted(rows) && k <= |rows|
    requires forall j | 0 <= j < k :: Precedes(rows[j], row)
    requires forall j | k <= j < |rows| :: Precedes(row, rows[j])
    ensures Sorted(rows[..k] + [row] + rows[k..])
  {
    hide Precedes;
  }

  lemma PlacedElements(rows: seq<Fetched>, row: Fetched, k: nat, x: Fetched)
    requires k <= |rows|
    ensures x in rows[..k] + [row] + rows[k..] <==> x in rows || x == row
  {
    assert rows == rows[..k] + rows[k..];
  }

  /** Puts one row in its place. */
  method Place(rows: seq<Fetched>, row: Fetched) returns (placed: seq<Fetched>)
    requires Sorted(rows) && forall i :: 0 <= i < |rows| ==> rows[i].id != row.id
    ensures Sorted(placed) && forall x :: x in placed <==> x in rows || x == row
  {
    hide Sorted, Precedes;
    var k := 0;
    while k < |rows| && Precedes(rows[k], row)
      invariant k <= |rows| && forall j :: 0 <= j < k ==> Precedes(rows[j], row)
    {
      k := k + 1;
    }
    placed := rows[..k] + [row] + rows[k..];
    if k < |rows| {
      PrecedesRest(rows, row, k);
    }
    PlacedSorted(rows, row, k);
    forall x ensures x in placed <==> x in rows || x == row {
      PlacedElements(rows, row, k, x);
    }
  }

  /** The in-memory menu: a map of dishes changed in place. */
  class MemoryMenu {
    var items: map<Id, Dish>

    constructor (items: map<Id, Dish>)
      ensures this.items == items
    {
      this.items := items;
    }

    /** Walk the map in whatever order it comes, keep the hits, sort, cut. */
    method SearchItems(needle: string, fold: char -> char, limit: int, offset: nat) returns (page: seq<Fetched>)
      ensures IsPage(items, needle, fold, limit, offset, page)
    {
      var left := items.Keys;
      var rows: seq<Fetched> := [];
      while left != {}
        invariant left <= items.Keys
        invariant IsResult(items, items.Keys - left, needle, fold, rows)
        decreases |left|
      {
        var id :| id in left;
        var dish := items[id];
        if Hit(dish, needle, fold) {
          rows := Place(rows, Fetched(id, dish));
        }
        left := left - {id};
      }
      assert items.Keys - left == items.Keys;
      ghost var all := rows;
      assert IsResult(items, items.Keys, needle, fold, all);
      if offset >= |rows| {
        page := [];
        return;
      }
      page := rows[offset..];
      if limit > 0 && limit < |page| {
        page := page[..limit];
      }
    }

    /** Unlike the SQL statement, this one tells a missing dish from a sold-out one. */
    method DecrementStock(id: Id, qty: int) returns (fault: Option<Error>)
      modifies this
      ensures fault == if id !in old(items) then Some(MenuItemNotFound)
                       else if !old(items)[id].available || old(items)[id].stock < qty then Some(OutOfStock)
                       else None
      ensures items == if fault.Some? then old(items)
                       else old(items)[id := old(items)[id].(stock := old(items)[id].stock - qty)]
    {
      if id !in items {
        return Some(MenuItemNotFound);
      }
      if !items[id].available || items[id].stock < qty {
        return Some(OutOfStock);
      }
      items := items[id := items[id].(stock := items[id].stock - qty)];
      return None;
    }

    method IncrementStock(id: Id, qty: int) returns (fault: Option<Error>)
      modifies this
      ensures fault == if id in old(items) then None else Some(MenuItemNotFound)
      ensures items == if fault.Some? then old(items)
                       else old(items)[id := old(items)[id].(stock := old(items)[id].stock + qty)]
    {
      if id !in items {
        return Some(MenuItemNotFound);
      }
      items := items[id := items[id].(stock := items[id].stock + qty)];
      return None;
    }
  }
}
