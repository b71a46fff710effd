/** The catalog menu: flat join rows folded into nested categories, items and modifiers. */
module Menu {
  import opened Wrappers
  import opened Money

  datatype Modifier = Modifier(id: string, name: string, priceDelta: int64, available: bool)

  datatype ItemColumns = ItemColumns(id: string, name: string, description: string, price: int64, available: bool)

  datatype Item = Item(columns: ItemColumns, modifiers: seq<Modifier>)

  datatype Category = Category(id: string, name: string, items: seq<Item>)

  // One row of the menu query: both LEFT JOINs may leave their columns NULL.
  datatype Row = Row(categoryId: string, categoryName: string, item: Option<ItemColumns>, modifier: Option<Modifier>)

  // The rows a nested menu stands for.

  function FlatItem(id: string, name: string, item: Item): (rows: seq<Row>)
    ensures |rows| > 0
    ensures forall r :: r in rows ==> r.categoryId == id && r.categoryName == name && r.item == Some(item.columns)
    ensures item.modifiers == [] <==> rows == [Row(id, name, Some(item.columns), None)]
  {
    if item.modifiers == [] then [Row(id, name, Some(item.columns), None)]
    else seq(|item.modifiers|, i requires 0 <= i < |item.modifiers| => Row(id, name, Some(item.columns), Some(item.modifiers[i])))
  }

  function FlatItems(id: string, name: string, items: seq<Item>): (rows: seq<Row>) {
    if items == [] then []
    else FlatItem(id, name, items[0]) + FlatItems(id, name, items[1..])
  }

  function FlatCategory(c: Category): (rows: seq<Row>) {
    if c.items == [] then [Row(c.id, c.name, None, None)] else FlatItems(c.id, c.name, c.items)
  }

  function Flatten(menu: seq<Category>): seq<Row> {
    if menu == [] then [] else FlatCategory(menu[0]) + Flatten(menu[1..])
  }

  lemma {:induction false} FlatItemsConcat(id: string, name: string, x: seq<Item>, y: seq<Item>)
    ensures FlatItems(id, name, x + y) == FlatItems(id, name, x) + FlatItems(id, name, y)
  {
    if x == [] {
      assert x + y == y;
    } else {
      assert (x + y)[1..] == x[1..] + y;
      FlatItemsConcat(id, name, x[1..], y);
    }
  }

  lemma {:induction false} FlattenConcat(x: seq<Category>, y: seq<Category>)
    ensures Flatten(x + y) == Flatten(x) + Flatten(y)
  {
    if x == [] {
      assert x + y == y;
    } else {
      assert (x + y)[1..] == x[1..] + y;
      FlattenConcat(x[1..], y);
    }
  }

  lemma {:induction false} FlattenAt(menu: seq<Category>, c: nat)
    requires c < |menu|
    ensures Flatten(menu) == Flatten(menu[..c]) + FlatCategory(menu[c]) + Flatten(menu[c + 1..])
  {
    assert menu == menu[..c] + menu[c..];
    FlattenConcat(menu[..c], menu[c..]);
    assert menu[c..][1..] == menu[c + 1..];
  }

  lemma {:induction false} FlatItemsAt(id: string, name: string, items: seq<Item>, i: nat)
    requires i < |items|
    ensures FlatItems(id, name, items) ==
            FlatItems(id, name, items[..i]) + FlatItem(id, name, items[i]) + FlatItems(id, name, items[i + 1..])
  {
    assert items == items[..i] + items[i..];
    FlatItemsConcat(id, name, items[..i], items[i..]);
    assert items[i..][1..] == items[i + 1..];
  }

  // Two rows of one query result: a category or an item has one set of columns, and a row with NULL
  // columns is the only row of its category or item.
  predicate Compatible(a: Row, b: Row) {
    (a.categoryId == b.categoryId ==> a.categoryName == b.categoryName && a.item.Some? && b.item.Some?) &&
    (a.item.Some? && b.item.Some? && a.item.value.id == b.item.value.id ==>
       a.categoryId == b.categoryId && a.item == b.item && a.modifier.Some? && b.modifier.Some?)
  }

  // What the LEFT JOINs and the primary keys guarantee about the query's rows, in any order.
  ghost predicate Tabular(rows: seq<Row>) {
    (forall i :: 0 <= i < |rows| ==> rows[i].item.None? ==> rows[i].modifier.None?) &&
    (forall i, j {:trigger Compatible(rows[i], rows[j])} :: 0 <= i < j < |rows| ==> Compatible(rows[i], rows[j]))
  }

  predicate Between(a: Row, b: Row, c: Row) {
    (a.categoryId == c.categoryId ==> a.categoryId == b.categoryId) &&
    (a.item.Some? && c.item.Some? && a.item.value.id == c.item.value.id ==> b.item == a.item)
  }

  // The rows of a category, and of an item, are together: see OrderByGroups.
  ghost predicate Grouped(rows: seq<Row>) {
    forall i, j, k {:trigger Between(rows[i], rows[j], rows[k])} ::
      0 <= i < j < k < |rows| ==> Between(rows[i], rows[j], rows[k])
  }

  // The query's ORDER BY: sort_order, category.id, item.id, modifier.id, each ascending with NULL last.
  // `rank` gives a category's sort_order, and `leq` compares texts as the database's collation does.
  predicate OrderedBy(rank: string -> int, leq: (string, string) -> bool, a: Row, b: Row) {
    if rank(a.categoryId) != rank(b.categoryId) then rank(a.categoryId) < rank(b.categoryId)
    else if a.categoryId != b.categoryId then leq(a.categoryId, b.categoryId)
    else if a.item.None? || b.item.None? then b.item.None?
    else if a.item.value.id != b.item.value.id then leq(a.item.value.id, b.item.value.id)
    else if a.modifier.None? || b.modifier.None? then b.modifier.None?
    else leq(a.modifier.value.id, b.modifier.value.id)
  }

  ghost predicate Antisymmetric(leq: (string, string) -> bool) {
    forall x, y :: leq(x, y) && leq(y, x) ==> x == y
  }

  ghost predicate Queried(rank: string -> int, leq: (string, string) -> bool, rows: seq<Row>) {
    Tabular(rows) && forall i, j {:trigger OrderedBy(rank, leq, rows[i], rows[j])} ::
      0 <= i < j < |rows| ==> OrderedBy(rank, leq, rows[i], rows[j])
  }

  lemma OrderedBetween(rank: string -> int, leq: (string, string) -> bool, a: Row, b: Row, c: Row)
    requires Antisymmetric(leq) && OrderedBy(rank, leq, a, b) && OrderedBy(rank, leq, b, c)
    requires Compatible(a, b) && Compatible(b, c) && Compatible(a, c)
    ensures Between(a, b, c)
  {
  }

  /** The query's rows are grouped, for any sort orders and any collation: the fold then keeps their order. */
  lemma OrderByGroups(rank: string -> int, leq: (string, string) -> bool, rows: seq<Row>)
    requires Antisymmetric(leq) && Queried(rank, leq, rows)
    ensures Grouped(rows)
  {
    forall i, j, k | 0 <= i < j < k < |rows| ensures Between(rows[i], rows[j], rows[k]) {
      assert OrderedBy(rank, leq, rows[i], rows[j]) && OrderedBy(rank, leq, rows[j], rows[k]);
      assert Compatible(rows[i], rows[j]) && Compatible(rows[j], rows[k]) && Compatible(rows[i], rows[k]);
      OrderedBetween(rank, leq, rows[i], rows[j], rows[k]);
    }
  }

  predicate At(menu: seq<Category>, c: nat, i: nat) {
    c < |menu| && i < |menu[c].items|
  }

  ghost predicate DistinctIds(menu: seq<Category>) {
    (forall c, d :: 0 <= c < d < |menu| ==> menu[c].id != menu[d].id) &&
    (forall c: nat, i: nat, d: nat, j: nat :: At(menu, c, i) && At(menu, d, j) ==>
       menu[c].items[i].columns.id == menu[d].items[j].columns.id ==> c == d && i == j)
  }

  // The two index maps point at exactly the categories and items built so far.
  ghost predicate Indexed(menu: seq<Category>, categoryIndexes: map<string, nat>, itemIndexes: map<string, (nat, nat)>) {
    (forall id :: id in categoryIndexes ==> categoryIndexes[id] < |menu| && menu[categoryIndexes[id]].id == id) &&
    (forall c :: 0 <= c < |menu| ==> menu[c].id in categoryIndexes && categoryIndexes[menu[c].id] == c) &&
    (forall id :: id in itemIndexes ==>
       At(menu, itemIndexes[id].0, itemIndexes[id].1) && menu[itemIndexes[id].0].items[itemIndexes[id].1].columns.id == id) &&
    (forall c: nat, i: nat :: At(menu, c, i) ==>
       menu[c].items[i].columns.id in itemIndexes && itemIndexes[menu[c].items[i].columns.id] == (c, i))
  }

  lemma IndexedIsDistinct(menu: seq<Category>, categoryIndexes: map<string, nat>, itemIndexes: map<string, (nat, nat)>)
    requires Indexed(menu, categoryIndexes, itemIndexes)
    ensures DistinctIds(menu)
  {
  }

  function AddItem(menu: seq<Category>, c: nat, item: Item): seq<Category>
    requires c < |menu|
  {
    menu[c := menu[c].(items := menu[c].items + [item])]
  }

  function AddModifier(menu: seq<Category>, c: nat, i: nat, modifier: Modifier): seq<Category>
    requires At(menu, c, i)
  {
    var item := menu[c].items[i];
    menu[c := menu[c].(items := menu[c].items[i := item.(modifiers := item.modifiers + [modifier])])]
  }

  // `menu` with one more row somewhere, and at the very end when it went into the last block.
  ghost predicate Gains(menu: seq<Category>, menu': seq<Category>, row: Row, last: bool) {
    multiset(Flatten(menu')) == multiset(Flatten(menu)) + multiset{row} &&
    (last ==> Flatten(menu') == Flatten(menu) + [row])
  }

  lemma NewCategoryGains(menu: seq<Category>, c: Category, row: Row)
    requires FlatCategory(c) == [row]
    ensures Gains(menu, menu + [c], row, true)
  {
    FlattenConcat(menu, [c]);
    assert Flatten([c]) == [row];
  }

  lemma CategoryGains(menu: seq<Category>, c: nat, category: Category, before: seq<Row>, after: seq<Row>, row: Row)
    requires c < |menu| && FlatCategory(menu[c]) == before + after && FlatCategory(category) == before + [row] + after
    ensures Gains(menu, menu[c := category], row, c == |menu| - 1 && after == [])
  {
    var menu' := menu[c := category];
    FlattenAt(menu, c);
    FlattenAt(menu', c);
    assert menu'[..c] == menu[..c] && menu'[c + 1..] == menu[c + 1..];
    InsertRow(Flatten(menu[..c]), before, after, Flatten(menu[c + 1..]), row);
  }

  lemma InsertRow(p: seq<Row>, before: seq<Row>, after: seq<Row>, q: seq<Row>, row: Row)
    ensures multiset(p + (before + [row] + after) + q) == multiset(p + (before + after) + q) + multiset{row}
    ensures after == q == [] ==> p + (before + [row] + after) + q == p + (before + after) + q + [row]
  {
  }

  lemma NewItemGains(menu: seq<Category>, c: nat, item: Item, row: Row)
    requires c < |menu| && menu[c].items != [] && FlatItem(menu[c].id, menu[c].name, item) == [row]
    ensures Gains(menu, AddItem(menu, c, item), row, c == |menu| - 1)
  {
    FlatItemsConcat(menu[c].id, menu[c].name, menu[c].items, [item]);
    assert FlatItems(menu[c].id, menu[c].name, [item]) == [row];
    CategoryGains(menu, c, menu[c].(items := menu[c].items + [item]), FlatCategory(menu[c]), [], row);
  }

  lemma FlatItemsGrow(id: string, name: string, items: seq<Item>, i: nat, item: Item, row: Row)
    requires i < |items| && FlatItem(id, name, item) == FlatItem(id, name, items[i]) + [row]
    ensures var (before, after) := (FlatItems(id, name, items[..i]) + FlatItem(id, name, items[i]), FlatItems(id, name, items[i + 1..]));
      FlatItems(id, name, items) == before + after && FlatItems(id, name, items[i := item]) == before + [row] + after
  {
    var items' := items[i := item];
    FlatItemsAt(id, name, items, i);
    FlatItemsAt(id, name, items', i);
    assert items'[..i] == items[..i] && items'[i + 1..] == items[i + 1..] && items'[i] == item;
    Regroup(FlatItems(id, name, items[..i]), FlatItem(id, name, items[i]), row, FlatItems(id, name, items[i + 1..]));
  }

  lemma Regroup(p: seq<Row>, q: seq<Row>, row: Row, after: seq<Row>)
    ensures p + (q + [row]) + after == p + q + [row] + after
  {
  }

  lemma ModifierGains(menu: seq<Category>, c: nat, i: nat, modifier: Modifier, row: Row)
    requires At(menu, c, i) && menu[c].items[i].modifiers != []
    requires row == Row(menu[c].id, menu[c].name, Some(menu[c].items[i].columns), Some(modifier))
    ensures Gains(menu, AddModifier(menu, c, i, modifier), row, c == |menu| - 1 && i == |menu[c].items| - 1)
  {
    var id, name, items := menu[c].id, menu[c].name, menu[c].items;
    var item := items[i].(modifiers := items[i].modifiers + [modifier]);
    assert FlatItem(id, name, item) == FlatItem(id, name, items[i]) + [row];
    FlatItemsGrow(id, name, items, i, item, row);
    CategoryGains(menu, c, menu[c].(items := items[i := item]),
                  FlatItems(id, name, items[..i]) + FlatItem(id, name, items[i]), FlatItems(id, name, items[i + 1..]), row);
  }

  // Where the loop body puts a row, given the index maps.
  ghost function Placed(
    menu: seq<Category>, categoryIndexes: map<string, nat>, itemIndexes: map<string, (nat, nat)>, row: Row): (r: seq<Category>)
    requires Indexed(menu, categoryIndexes, itemIndexes)
  {
    var known := row.categoryId in categoryIndexes;
    var menu1 := if known then menu else menu + [Category(row.categoryId, row.categoryName, [])];
    var c := if known then categoryIndexes[row.categoryId] else |menu|;
    if row.item.None? then menu1
    else
      var found := row.item.value.id in itemIndexes;
      var menu2 := if found then menu1 else AddItem(menu1, c, Item(row.item.value, []));
      var at := if found then itemIndexes[row.item.value.id] else (c, |menu1[c].items|);
      if row.modifier.None? then menu2 else AddModifier(menu2, at.0, at.1, row.modifier.value)
  }

  // The menu stands for the first k rows: as a multiset, and in order when the rows are grouped.
  ghost predicate Stands(menu: seq<Category>, rows: seq<Row>, k: nat)
    requires k <= |rows|
  {
    Tabular(rows) ==>
      multiset(Flatten(menu)) == multiset(rows[..k]) && (Grouped(rows) ==> Flatten(menu) == rows[..k])
  }

  lemma CategoryHasRow(menu: seq<Category>, c: nat) returns (r: Row)
    requires c < |menu|
    ensures r in Flatten(menu) && r.categoryId == menu[c].id && r.categoryName == menu[c].name
    ensures menu[c].items == [] ==> r.item.None?
  {
    FlattenAt(menu, c);
    r := FlatCategory(menu[c])[0];
  }

  lemma ItemHasRow(menu: seq<Category>, c: nat, i: nat) returns (r: Row)
    requires At(menu, c, i)
    ensures r in Flatten(menu) && r.categoryId == menu[c].id && r.item == Some(menu[c].items[i].columns)
    ensures menu[c].items[i].modifiers == [] ==> r.modifier.None?
  {
    FlattenAt(menu, c);
    FlatItemsAt(menu[c].id, menu[c].name, menu[c].items, i);
    r := FlatItem(menu[c].id, menu[c].name, menu[c].items[i])[0];
  }

  lemma LastOf<T>(s: seq<T>, a: seq<T>, b: seq<T>)
    requires s == a + b && b != []
    ensures s != [] && s[|s| - 1] == b[|b| - 1]
  {
  }

  lemma LastOfCategory(c: Category)
    ensures FlatCategory(c) != []
    ensures var r := FlatCategory(c)[|FlatCategory(c)| - 1];
      r.categoryId == c.id && (c.items != [] ==> r.item == Some(c.items[|c.items| - 1].columns))
  {
    if c.items != [] {
      var n := |c.items| - 1;
      FlatItemsAt(c.id, c.name, c.items, n);
      assert c.items[n + 1..] == [];
      LastOf(FlatCategory(c), FlatItems(c.id, c.name, c.items[..n]), FlatItem(c.id, c.name, c.items[n]));
    }
  }

  // The last row of a flattened menu comes from its last category, and from that category's last item.
  lemma {:induction false} LastRow(menu: seq<Category>)
    requires menu != []
    ensures Flatten(menu) != []
    ensures var (c, r) := (menu[|menu| - 1], Flatten(menu)[|Flatten(menu)| - 1]);
      r.categoryId == c.id && (c.items != [] ==> r.item == Some(c.items[|c.items| - 1].columns))
  {
    var n := |menu| - 1;
    FlattenLast(menu);
    LastRowOf(menu[n], Flatten(menu[..n]), Flatten(menu));
  }

  lemma LastRowOf(c: Category, before: seq<Row>, rows: seq<Row>)
    requires rows == before + FlatCategory(c)
    ensures rows != []
    ensures var r := rows[|rows| - 1]; r.categoryId == c.id && (c.items != [] ==> r.item == Some(c.items[|c.items| - 1].columns))
  {
    LastOfCategory(c);
    LastOf(rows, before, FlatCategory(c));
  }

  lemma {:induction false} FlattenLast(menu: seq<Category>)
    requires menu != []
    ensures Flatten(menu) == Flatten(menu[..|menu| - 1]) + FlatCategory(menu[|menu| - 1])
  {
    var n := |menu| - 1;
    FlattenAt(menu, n);
    assert menu[n + 1..] == [];
  }

  // A known category or item has been seen before, in a row that already carried columns.
  lemma KnownIsEarlier(rows: seq<Row>, k: nat, menu: seq<Category>, r: Row) returns (j: nat)
    requires k < |rows| && Tabular(rows) && Stands(menu, rows, k) && r in Flatten(menu)
    ensures j < k && rows[j] == r && Compatible(r, rows[k])
    ensures Grouped(rows) && j < k - 1 ==> Between(r, rows[k - 1], rows[k])
  {
    assert r in multiset(Flatten(menu));
    assert r in rows[..k];
    j :| 0 <= j < k && rows[j] == r;
    assert Compatible(rows[j], rows[k]);
    assert Grouped(rows) && j < k - 1 ==> Between(rows[j], rows[k - 1], rows[k]);
  }

  lemma LastOfRows(menu: seq<Category>, rows: seq<Row>)
    requires Flatten(menu) == rows && rows != []
    ensures menu != []
    ensures rows[|rows| - 1].categoryId == menu[|menu| - 1].id
    ensures var items := menu[|menu| - 1].items; items != [] ==> rows[|rows| - 1].item == Some(items[|items| - 1].columns)
  {
    LastRow(menu);
  }

  lemma LastPlaced(rows: seq<Row>, k: nat, menu: seq<Category>)
    requires 0 < k <= |rows| && Flatten(menu) == rows[..k]
    ensures menu != []
    ensures rows[k - 1].categoryId == menu[|menu| - 1].id
    ensures var items := menu[|menu| - 1].items; items != [] ==> rows[k - 1].item == Some(items[|items| - 1].columns)
  {
    LastOfRows(menu, rows[..k]);
    assert rows[..k][|rows[..k]| - 1] == rows[k - 1];
  }

  lemma {:induction false} KnownIsLast(rows: seq<Row>, k: nat, menu: seq<Category>, c: nat, j: nat)
    requires j < k < |rows| && Flatten(menu) == rows[..k] && DistinctIds(menu) && c < |menu|
    requires menu[c].id == rows[k].categoryId == rows[j].categoryId && (j < k - 1 ==> Between(rows[j], rows[k - 1], rows[k]))
    ensures c == |menu| - 1
  {
    LastPlaced(rows, k, menu);
    assert rows[k - 1].categoryId == rows[j].categoryId;
  }

  lemma KnownCategory(rows: seq<Row>, k: nat, menu: seq<Category>, c: nat)
    requires k < |rows| && Tabular(rows) && Stands(menu, rows, k) && DistinctIds(menu)
    requires c < |menu| && menu[c].id == rows[k].categoryId
    ensures menu[c].name == rows[k].categoryName && menu[c].items != [] && rows[k].item.Some?
    ensures Grouped(rows) ==> c == |menu| - 1
  {
    var r := CategoryHasRow(menu, c);
    var j := KnownIsEarlier(rows, k, menu, r);
    if Grouped(rows) { KnownIsLast(rows, k, menu, c, j); }
  }

  // In its category, only the last item has the last item's columns.
  lemma SameItemIsLast(menu: seq<Category>, c: nat, i: nat)
    requires DistinctIds(menu) && At(menu, c, i)
    requires menu[c].items[i].columns == menu[c].items[|menu[c].items| - 1].columns
    ensures i == |menu[c].items| - 1
  {
    assert At(menu, c, |menu[c].items| - 1);
  }

  lemma KnownItemIsLast(rows: seq<Row>, k: nat, menu: seq<Category>, c: nat, i: nat, j: nat)
    requires j < k < |rows| && DistinctIds(menu) && At(menu, c, i) && rows[k].item.Some?
    requires rows[j].item == rows[k].item == Some(menu[c].items[i].columns)
    requires rows[k - 1].item == Some(menu[c].items[|menu[c].items| - 1].columns)
    requires j < k - 1 ==> Between(rows[j], rows[k - 1], rows[k])
    ensures i == |menu[c].items| - 1
  {
    assert rows[k - 1].item == rows[j].item;
    SameItemIsLast(menu, c, i);
  }

  lemma KnownItem(rows: seq<Row>, k: nat, menu: seq<Category>, c: nat, i: nat)
    requires k < |rows| && Tabular(rows) && Stands(menu, rows, k) && DistinctIds(menu)
    requires At(menu, c, i) && rows[k].item.Some? && menu[c].items[i].columns.id == rows[k].item.value.id
    ensures menu[c].id == rows[k].categoryId && menu[c].items[i].columns == rows[k].item.value
    ensures menu[c].items[i].modifiers != [] && rows[k].modifier.Some?
    ensures Grouped(rows) ==> c == |menu| - 1 && i == |menu[c].items| - 1
  {
    var r := ItemHasRow(menu, c, i);
    var j := KnownIsEarlier(rows, k, menu, r);
    if Grouped(rows) {
      KnownIsLast(rows, k, menu, c, j);
      LastPlaced(rows, k, menu);
      KnownItemIsLast(rows, k, menu, c, i, j);
    }
  }

  lemma PrefixNext(rows: seq<Row>, k: nat)
    requires k < |rows|
    ensures rows[..k + 1] == rows[..k] + [rows[k]] && multiset(rows[..k + 1]) == multiset(rows[..k]) + multiset{rows[k]}
  {
    assert rows[..k + 1] == rows[..k] + [rows[k]];
  }

  lemma StandsNext(menu: seq<Category>, menu': seq<Category>, rows: seq<Row>, k: nat, last: bool)
    requires k < |rows| && Stands(menu, rows, k) && Gains(menu, menu', rows[k], last)
    requires Tabular(rows) && (Grouped(rows) ==> last)
    ensures Stands(menu', rows, k + 1)
  {
    PrefixNext(rows, k);
  }

  lemma RowPlaced(
    rows: seq<Row>, k: nat, menu: seq<Category>, categoryIndexes: map<string, nat>, itemIndexes: map<string, (nat, nat)>)
    requires k < |rows| && Stands(menu, rows, k) && Indexed(menu, categoryIndexes, itemIndexes)
    ensures Stands(Placed(menu, categoryIndexes, itemIndexes, rows[k]), rows, k + 1)
  {
    if Tabular(rows) {
      var row := rows[k];
      var menu' := Placed(menu, categoryIndexes, itemIndexes, row);
      IndexedIsDistinct(menu, categoryIndexes, itemIndexes);
      if row.item.Some? && row.item.value.id in itemIndexes {
        var (c, i) := itemIndexes[row.item.value.id];
        OldItemPlaced(rows, k, menu, c, i);
        assert menu' == AddModifier(menu, c, i, row.modifier.value);
      } else if row.categoryId in categoryIndexes {
        var c := categoryIndexes[row.categoryId];
        NewItemPlaced(rows, k, menu, c);
        if row.modifier.Some? { NewItemBuilt(menu, c, row); }
      } else {
        NewCategoryPlaced(rows, k, menu, categoryIndexes, itemIndexes);
      }
    }
  }

  lemma NewCategoryBuilt(
    menu: seq<Category>, categoryIndexes: map<string, nat>, itemIndexes: map<string, (nat, nat)>, row: Row)
    requires Indexed(menu, categoryIndexes, itemIndexes) && row.categoryId !in categoryIndexes
    requires row.item.Some? ==> row.item.value.id !in itemIndexes
    requires row.item.None? ==> row.modifier.None?
    ensures Placed(menu, categoryIndexes, itemIndexes, row) == menu + [NewCategory(row)]
  {
    var c := |menu|;
    var menu1 := menu + [Category(row.categoryId, row.categoryName, [])];
    if row.item.Some? {
      var bare := Item(row.item.value, []);
      var menu2 := AddItem(menu1, c, bare);
      assert menu2[c].items == [bare];
      if row.modifier.Some? {
        var menu3 := AddModifier(menu2, c, 0, row.modifier.value);
        assert bare.modifiers + [row.modifier.value] == [row.modifier.value];
        assert menu3[c].items == [NewItem(row)];
      }
    }
  }

  lemma NewItemBuilt(menu: seq<Category>, c: nat, row: Row)
    requires c < |menu| && row.item.Some? && row.modifier.Some?
    ensures AddModifier(AddItem(menu, c, Item(row.item.value, [])), c, |menu[c].items|, row.modifier.value) ==
            AddItem(menu, c, NewItem(row))
  {
    var bare := Item(row.item.value, []);
    assert bare.modifiers + [row.modifier.value] == [row.modifier.value];
    assert (menu[c].items + [bare])[|menu[c].items| := NewItem(row)] == menu[c].items + [NewItem(row)];
  }

  lemma OldItemPlaced(rows: seq<Row>, k: nat, menu: seq<Category>, c: nat, i: nat)
    requires k < |rows| && Tabular(rows) && Stands(menu, rows, k) && DistinctIds(menu)
    requires At(menu, c, i) && rows[k].item.Some? && menu[c].items[i].columns.id == rows[k].item.value.id
    ensures rows[k].modifier.Some? && menu[c].id == rows[k].categoryId
    ensures Stands(AddModifier(menu, c, i, rows[k].modifier.value), rows, k + 1)
  {
    KnownItem(rows, k, menu, c, i);
    KnownCategory(rows, k, menu, c);
    ModifierGains(menu, c, i, rows[k].modifier.value, rows[k]);
    StandsNext(menu, AddModifier(menu, c, i, rows[k].modifier.value), rows, k, c == |menu| - 1 && i == |menu[c].items| - 1);
  }

  lemma NewItemPlaced(rows: seq<Row>, k: nat, menu: seq<Category>, c: nat)
    requires k < |rows| && Tabular(rows) && Stands(menu, rows, k) && DistinctIds(menu)
    requires c < |menu| && menu[c].id == rows[k].categoryId
    ensures rows[k].item.Some? && Stands(AddItem(menu, c, NewItem(rows[k])), rows, k + 1)
  {
    KnownCategory(rows, k, menu, c);
    NewItemGains(menu, c, NewItem(rows[k]), rows[k]);
    StandsNext(menu, AddItem(menu, c, NewItem(rows[k])), rows, k, c == |menu| - 1);
  }

  lemma NewCategoryPlaced(
    rows: seq<Row>, k: nat, menu: seq<Category>, categoryIndexes: map<string, nat>, itemIndexes: map<string, (nat, nat)>)
    requires k < |rows| && Tabular(rows) && Stands(menu, rows, k) && Indexed(menu, categoryIndexes, itemIndexes)
    requires rows[k].categoryId !in categoryIndexes
    requires rows[k].item.Some? ==> rows[k].item.value.id !in itemIndexes
    ensures Stands(Placed(menu, categoryIndexes, itemIndexes, rows[k]), rows, k + 1)
  {
    NewCategoryBuilt(menu, categoryIndexes, itemIndexes, rows[k]);
    NewCategoryFlat(rows[k]);
    NewCategoryGains(menu, NewCategory(rows[k]), rows[k]);
    StandsNext(menu, menu + [NewCategory(rows[k])], rows, k, true);
  }

  function NewItem(row: Row): Item
    requires row.item.Some?
  {
    Item(row.item.value, if row.modifier.None? then [] else [row.modifier.value])
  }

  function NewCategory(row: Row): Category {
    Category(row.categoryId, row.categoryName,
      if row.item.None? then [] else [NewItem(row)])
  }

  lemma NewCategoryFlat(row: Row)
    requires row.item.None? ==> row.modifier.None?
    ensures FlatCategory(NewCategory(row)) == [row]
  {
    var c := NewCategory(row);
    if c.items != [] {
      assert FlatItems(c.id, c.name, c.items) == FlatItem(c.id, c.name, c.items[0]) + FlatItems(c.id, c.name, []);
    }
  }

  lemma IndexCategory(
    menu: seq<Category>, categoryIndexes: map<string, nat>, itemIndexes: map<string, (nat, nat)>, id: string, name: string)
    requires Indexed(menu, categoryIndexes, itemIndexes) && id !in categoryIndexes
    ensures Indexed(menu + [Category(id, name, [])], categoryIndexes[id := |menu|], itemIndexes)
  {
    var menu' := menu + [Category(id, name, [])];
    assert forall c: nat, i: nat :: At(menu', c, i) <==> At(menu, c, i);
  }

  lemma IndexItem(
    menu: seq<Category>, categoryIndexes: map<string, nat>, itemIndexes: map<string, (nat, nat)>, c: nat, item: Item)
    requires Indexed(menu, categoryIndexes, itemIndexes) && c < |menu| && item.columns.id !in itemIndexes
    ensures Indexed(AddItem(menu, c, item), categoryIndexes, itemIndexes[item.columns.id := (c, |menu[c].items|)])
  {
    var menu' := AddItem(menu, c, item);
    assert forall d: nat, i: nat :: At(menu', d, i) <==> At(menu, d, i) || (d == c && i == |menu[c].items|);
  }

  lemma IndexModifier(
    menu: seq<Category>, categoryIndexes: map<string, nat>, itemIndexes: map<string, (nat, nat)>, c: nat, i: nat, modifier: Modifier)
    requires Indexed(menu, categoryIndexes, itemIndexes) && At(menu, c, i)
    ensures Indexed(AddModifier(menu, c, i, modifier), categoryIndexes, itemIndexes)
  {
    var menu' := AddModifier(menu, c, i, modifier);
    assert forall d: nat, j: nat :: At(menu', d, j) <==> At(menu, d, j);
    assert forall d: nat, j: nat :: At(menu, d, j) ==> menu'[d].items[j].columns == menu[d].items[j].columns;
  }

  // One pass of the loop: a row finds or opens its category and its item, and adds its modifier.
  method PlaceRow(menu: seq<Category>, categoryIndexes: map<string, nat>, itemIndexes: map<string, (nat, nat)>, row: Row)
    returns (menu': seq<Category>, categoryIndexes': map<string, nat>, itemIndexes': map<string, (nat, nat)>)
    requires Indexed(menu, categoryIndexes, itemIndexes)
    ensures Indexed(menu', categoryIndexes', itemIndexes')
    ensures menu' == Placed(menu, categoryIndexes, itemIndexes, row)
  {
    menu', categoryIndexes', itemIndexes' := menu, categoryIndexes, itemIndexes;
    var c: nat;
    if row.categoryId in categoryIndexes {
      c := categoryIndexes[row.categoryId];
    } else {
      c := |menu|;
      IndexCategory(menu', categoryIndexes', itemIndexes', row.categoryId, row.categoryName);
      categoryIndexes' := categoryIndexes'[row.categoryId := c];
      menu' := menu' + [Category(row.categoryId, row.categoryName, [])];
    }
    if row.item.None? {
      return;
    }
    var item := row.item.value;
    var at: (nat, nat);
    if item.id in itemIndexes {
      at := itemIndexes[item.id];
    } else {
      at := (c, |menu'[c].items|);
      IndexItem(menu', categoryIndexes', itemIndexes', c, Item(item, []));
      itemIndexes' := itemIndexes'[item.id := at];
      menu' := menu'[c := menu'[c].(items := menu'[c].items + [Item(item, [])])];
    }
    if row.modifier.Some? {
      IndexModifier(menu', categoryIndexes', itemIndexes', at.0, at.1, row.modifier.value);
      var found := menu'[at.0].items[at.1];
      var extended := found.(modifiers := found.modifiers + [row.modifier.value]);
      menu' := menu'[at.0 := menu'[at.0].(items := menu'[at.0].items[at.1 := extended])];
    }
  }

  lemma StandsFirst(rows: seq<Row>)
    ensures Stands([], rows, 0)
  {
  }

  lemma {:induction false} StandsLast(menu: seq<Category>, rows: seq<Row>)
    requires Stands(menu, rows, |rows|)
    ensures Tabular(rows) ==> multiset(Flatten(menu)) == multiset(rows)
    ensures Tabular(rows) && Grouped(rows) ==> Flatten(menu) == rows
  {
    assert rows[..|rows|] == rows;
  }

  /**
    GetMenu's fold. Ids come out distinct for any rows at all; for the rows a query can return,
    flattening the menu gives the rows back, in order when the query sorted them.
   */
  method GetMenu(rows: seq<Row>) returns (menu: seq<Category>)
    ensures DistinctIds(menu)
    ensures Tabular(rows) ==> multiset(Flatten(menu)) == multiset(rows)
    ensures Tabular(rows) && Grouped(rows) ==> Flatten(menu) == rows
  {
    menu := [];
    var categoryIndexes: map<string, nat> := map[];
    var itemIndexes: map<string, (nat, nat)> := map[];
    StandsFirst(rows);
    for k := 0 to |rows|
      invariant Indexed(menu, categoryIndexes, itemIndexes)
      invariant Stands(menu, rows, k)
    {
      RowPlaced(rows, k, menu, categoryIndexes, itemIndexes);
      menu, categoryIndexes, itemIndexes := PlaceRow(menu, categoryIndexes, itemIndexes, rows[k]);
    }
    IndexedIsDistinct(menu, categoryIndexes, itemIndexes);
    StandsLast(menu, rows);
  }

  // The other direction: a nested menu with distinct ids flattens to rows a query could return, and
  // no other such menu flattens to the same rows.

  predicate DistinctItems(items: seq<Item>) {
    forall i, j :: 0 <= i < j < |items| ==> items[i].columns.id != items[j].columns.id
  }

  lemma InConcat<T>(a: seq<T>, b: seq<T>, x: T)
    requires x in a + b
    ensures x in a || x in b
  {
  }

  lemma {:induction false} FlatItemsRow(id: string, name: string, items: seq<Item>, r: Row) returns (i: nat)
    requires r in FlatItems(id, name, items)
    ensures i < |items| && r in FlatItem(id, name, items[i])
  {
    InConcat(FlatItem(id, name, items[0]), FlatItems(id, name, items[1..]), r);
    if r in FlatItem(id, name, items[0]) {
      i := 0;
    } else {
      i := FlatItemsRow(id, name, items[1..], r);
      i := i + 1;
    }
  }

  lemma CategoryRow(c: Category, r: Row) returns (i: nat)
    requires r in FlatCategory(c)
    ensures r.categoryId == c.id && (r.item.Some? ==> i < |c.items| && r.item == Some(c.items[i].columns))
  {
    i := 0;
    if c.items != [] {
      i := FlatItemsRow(c.id, c.name, c.items, r);
    }
  }

  lemma {:induction false} HeadOrTail(menu: seq<Category>, r: Row)
    requires r in Flatten(menu)
    ensures menu != [] && (r in FlatCategory(menu[0]) || r in Flatten(menu[1..]))
  {
    if menu != [] { InConcat(FlatCategory(menu[0]), Flatten(menu[1..]), r); }
  }

  predicate NamedBy(menu: seq<Category>, r: Row, c: nat, i: nat) {
    c < |menu| && r.categoryId == menu[c].id &&
    (r.item.Some? ==> At(menu, c, i) && r.item == Some(menu[c].items[i].columns))
  }

  lemma TailNames(menu: seq<Category>, r: Row, c: nat, i: nat)
    requires menu != [] && NamedBy(menu[1..], r, c, i)
    ensures NamedBy(menu, r, c + 1, i)
  {
    assert menu[1..][c] == menu[c + 1];
  }

  // Every row of a flattened menu names its category, and its item if it has one.
  lemma {:induction false} FlattenRow(menu: seq<Category>, r: Row) returns (c: nat, i: nat)
    requires r in Flatten(menu)
    ensures NamedBy(menu, r, c, i)
  {
    HeadOrTail(menu, r);
    if r in FlatCategory(menu[0]) {
      c := 0;
      i := CategoryRow(menu[0], r);
    } else {
      c, i := FlattenRow(menu[1..], r);
      TailNames(menu, r, c, i);
      c := c + 1;
    }
  }

  lemma TailIsDistinct(menu: seq<Category>)
    requires menu != [] && DistinctIds(menu)
    ensures DistinctIds(menu[1..]) && DistinctItems(menu[0].items)
  {
    var tail := menu[1..];
    assert forall c: nat, i: nat :: At(tail, c, i) ==> At(menu, c + 1, i);
    assert forall i: nat :: i < |menu[0].items| ==> At(menu, 0, i);
  }

  // Blocks with different items, in one category or in different ones, stay tabular side by side.
  ghost predicate Apart(a: seq<Row>, b: seq<Row>) {
    (forall x, y :: x in a && y in b ==> x.item.Some? && y.item.Some? ==> x.item.value.id != y.item.value.id) &&
    ((forall x, y :: x in a && y in b ==> x.categoryId != y.categoryId) ||
     (forall x, y :: x in a + b && y in a + b ==> x.categoryId == y.categoryId && x.categoryName == y.categoryName && x.item.Some?))
  }

  lemma ApartStaysTabular(a: seq<Row>, b: seq<Row>)
    requires Tabular(a) && Tabular(b) && Apart(a, b)
    ensures Tabular(a + b)
  {
    var s := a + b;
    forall i, j | 0 <= i < j < |s| ensures Compatible(s[i], s[j]) {
      if j < |a| {
        assert Compatible(a[i], a[j]);
      } else if i >= |a| {
        assert Compatible(b[i - |a|], b[j - |a|]);
      } else {
        assert s[i] in a && s[j] in b;
        assert s[i] in a + b && s[j] in a + b;
      }
    }
  }

  lemma ApartStaysGrouped(a: seq<Row>, b: seq<Row>)
    requires Grouped(a) && Grouped(b) && Apart(a, b)
    ensures Grouped(a + b)
  {
    var s := a + b;
    forall i, j, k | 0 <= i < j < k < |s| ensures Between(s[i], s[j], s[k]) {
      if k < |a| {
        assert Between(a[i], a[j], a[k]);
      } else if i >= |a| {
        assert Between(b[i - |a|], b[j - |a|], b[k - |a|]);
      } else {
        assert s[i] in a && s[k] in b;
        assert s[i] in a + b && s[j] in a + b && s[k] in a + b;
      }
    }
  }

  lemma FlatItemIsTable(id: string, name: string, item: Item)
    ensures Tabular(FlatItem(id, name, item)) && Grouped(FlatItem(id, name, item))
  {
  }

  lemma {:induction false} FlatItemsAreTable(id: string, name: string, items: seq<Item>)
    requires DistinctItems(items)
    ensures Tabular(FlatItems(id, name, items)) && Grouped(FlatItems(id, name, items))
  {
    if items != [] {
      var a, b := FlatItem(id, name, items[0]), FlatItems(id, name, items[1..]);
      FlatItemIsTable(id, name, items[0]);
      FlatItemsAreTable(id, name, items[1..]);
      forall y | y in b
        ensures y.categoryId == id && y.categoryName == name && y.item.Some? && y.item.value.id != items[0].columns.id
      {
        var i := FlatItemsRow(id, name, items[1..], y);
      }
      ApartStaysTabular(a, b);
      ApartStaysGrouped(a, b);
    }
  }

  lemma {:induction false} FlattenIsTable(menu: seq<Category>)
    requires DistinctIds(menu)
    ensures Tabular(Flatten(menu)) && Grouped(Flatten(menu))
  {
    if menu != [] {
      var a, b := FlatCategory(menu[0]), Flatten(menu[1..]);
      TailIsDistinct(menu);
      FlattenIsTable(menu[1..]);
      if menu[0].items != [] {
        FlatItemsAreTable(menu[0].id, menu[0].name, menu[0].items);
      }
      HeadIsApart(menu);
      ApartStaysTabular(a, b);
      ApartStaysGrouped(a, b);
    }
  }

  lemma HeadIsApart(menu: seq<Category>)
    requires menu != [] && DistinctIds(menu)
    ensures Apart(FlatCategory(menu[0]), Flatten(menu[1..]))
    ensures forall x :: x in FlatCategory(menu[0]) ==> x.categoryId == menu[0].id
    ensures forall y :: y in Flatten(menu[1..]) ==> y.categoryId != menu[0].id
  {
    var a, b := FlatCategory(menu[0]), Flatten(menu[1..]);
    forall x | x in a ensures x.categoryId == menu[0].id {
      if menu[0].items != [] {
        var i := FlatItemsRow(menu[0].id, menu[0].name, menu[0].items, x);
      }
    }
    forall y | y in b ensures y.categoryId != menu[0].id {
      var c, i := FlattenRow(menu[1..], y);
    }
    forall x, y | x in a && y in b && x.item.Some? && y.item.Some? ensures x.item.value.id != y.item.value.id {
      var c, i := FlattenRow(menu[1..], y);
      var j := FlatItemsRow(menu[0].id, menu[0].name, menu[0].items, x);
      assert At(menu, 0, j) && At(menu, c + 1, i);
    }
  }

  lemma SplitUnique(a: seq<Row>, b: seq<Row>, c: seq<Row>, d: seq<Row>, mine: Row -> bool)
    requires a + b == c + d
    requires forall r :: r in a || r in c ==> mine(r)
    requires forall r :: r in b || r in d ==> !mine(r)
    ensures a == c && b == d
  {
    var s := a + b;
    assert forall i :: 0 <= i < |s| ==> s[i] == (c + d)[i];
    assert forall i :: 0 <= i < |s| ==> (mine(s[i]) <==> i < |a|);
    assert forall i :: 0 <= i < |s| ==> (mine(s[i]) <==> i < |c|);
    assert b != [] ==> s[|a|] == b[0];
    assert d != [] ==> s[|c|] == d[0];
    assert a == s[..|a|] == c && b == s[|a|..] == d;
  }

  lemma FlatItemUnique(id: string, name: string, x: Item, y: Item)
    requires FlatItem(id, name, x) == FlatItem(id, name, y)
    ensures x == y
  {
    var rows := FlatItem(id, name, x);
    assert rows[0].item == Some(x.columns) && rows[0].item == Some(y.columns);
    if x.modifiers != [] {
      assert forall i :: 0 <= i < |rows| ==> rows[i].modifier == Some(x.modifiers[i]) && rows[i].modifier == Some(y.modifiers[i]);
    }
  }

  lemma {:induction false} FlatItemsUnique(id: string, name: string, x: seq<Item>, y: seq<Item>)
    requires DistinctItems(x) && DistinctItems(y) && FlatItems(id, name, x) == FlatItems(id, name, y)
    ensures x == y
  {
    if x != [] && y != [] {
      var a, b := FlatItem(id, name, x[0]), FlatItems(id, name, x[1..]);
      var c, d := FlatItem(id, name, y[0]), FlatItems(id, name, y[1..]);
      assert a[0] == (a + b)[0] == (c + d)[0] == c[0];
      forall r | r in b ensures r.item != Some(x[0].columns) {
        var i := FlatItemsRow(id, name, x[1..], r);
      }
      forall r | r in d ensures r.item != Some(x[0].columns) {
        var i := FlatItemsRow(id, name, y[1..], r);
      }
      SplitUnique(a, b, c, d, (r: Row) => r.item == Some(x[0].columns));
      FlatItemUnique(id, name, x[0], y[0]);
      FlatItemsUnique(id, name, x[1..], y[1..]);
      assert x == [x[0]] + x[1..] && y == [y[0]] + y[1..];
    }
  }

  lemma FlatCategoryUnique(x: Category, y: Category)
    requires DistinctItems(x.items) && DistinctItems(y.items) && FlatCategory(x) == FlatCategory(y)
    ensures x == y
  {
    var r := FlatCategory(x)[0];
    assert r.categoryId == x.id && r.categoryName == x.name && (r.item.None? <==> x.items == []);
    assert r.categoryId == y.id && r.categoryName == y.name && (r.item.None? <==> y.items == []);
    if x.items != [] {
      FlatItemsUnique(x.id, x.name, x.items, y.items);
    }
  }

  lemma {:induction false} HeadsUnique(x: seq<Category>, y: seq<Category>)
    requires x != [] && y != [] && DistinctIds(x) && DistinctIds(y) && Flatten(x) == Flatten(y)
    ensures FlatCategory(x[0]) == FlatCategory(y[0]) && Flatten(x[1..]) == Flatten(y[1..])
  {
    var a, b := FlatCategory(x[0]), Flatten(x[1..]);
    var c, d := FlatCategory(y[0]), Flatten(y[1..]);
    HeadIsApart(x);
    HeadIsApart(y);
    assert a[0] == (a + b)[0] == (c + d)[0] == c[0];
    SplitUnique(a, b, c, d, (r: Row) => r.categoryId == x[0].id);
  }

  lemma {:induction false} FlattenUnique(x: seq<Category>, y: seq<Category>)
    requires DistinctIds(x) && DistinctIds(y) && Flatten(x) == Flatten(y)
    ensures x == y
  {
    if x != [] && y != [] {
      TailIsDistinct(x);
      TailIsDistinct(y);
      HeadsUnique(x, y);
      FlatCategoryUnique(x[0], y[0]);
      FlattenUnique(x[1..], y[1..]);
      assert x == [x[0]] + x[1..] && y == [y[0]] + y[1..];
    }
  }

  /**
    The round trip: rows come from the query exactly when they are some menu's rows, and GetMenu
    then rebuilds that very menu.
   */
  method RebuildMenu(rows: seq<Row>) returns (menu: seq<Category>)
    ensures forall m :: DistinctIds(m) && Flatten(m) == rows ==> menu == m
    ensures (Tabular(rows) && Grouped(rows)) <==> exists m :: DistinctIds(m) && Flatten(m) == rows
  {
    menu := GetMenu(rows);
    forall m | DistinctIds(m) && Flatten(m) == rows ensures menu == m && Tabular(rows) && Grouped(rows) {
      FlattenIsTable(m);
      FlattenUnique(menu, m);
    }
  }
}
