/**
  Validating and pricing requested items against a restaurant's menu. The PostgreSQL store and the
  in-memory store build different lookup tables; both give what the menu itself says.
 */
module Catalog {
  import opened Wrappers
  import opened Money
  import opened OrderDomain
  import opened Menu

  datatype Requested = Requested(menuItemId: string, quantity: int32, modifiers: seq<string>)

  datatype CatalogError =
    | EmptyRequest | RestaurantNotFound | RestaurantClosed
    | InvalidRequest(index: nat) | ItemNotFound(id: string) | ItemUnavailable(id: string) | ModifierNotFound(id: string)

  // A map filled by inserting one after the other keeps the last of equal ids.
  function LastItem(items: seq<Item>, id: string): (r: Option<Item>)
    ensures r.Some? ==> r.value in items && r.value.columns.id == id
    ensures r.None? ==> forall i :: 0 <= i < |items| ==> items[i].columns.id != id
  {
    if items == [] then None
    else if items[|items| - 1].columns.id == id then Some(items[|items| - 1])
    else LastItem(items[..|items| - 1], id)
  }

  function LastModifier(modifiers: seq<Modifier>, id: string): (r: Option<Modifier>)
    ensures r.Some? ==> r.value in modifiers && r.value.id == id
    ensures r.None? ==> forall i :: 0 <= i < |modifiers| ==> modifiers[i].id != id
  {
    if modifiers == [] then None
    else if modifiers[|modifiers| - 1].id == id then Some(modifiers[|modifiers| - 1])
    else LastModifier(modifiers[..|modifiers| - 1], id)
  }

  function AllItems(menu: seq<Category>): seq<Item> {
    if menu == [] then [] else AllItems(menu[..|menu| - 1]) + menu[|menu| - 1].items
  }

  predicate Offered(item: Item, id: string) {
    LastModifier(item.modifiers, id).Some? && LastModifier(item.modifiers, id).value.available
  }

  // The first modifier the item does not offer.
  function FirstMissing(item: Item, ids: seq<string>, from: nat): (r: Option<nat>)
    requires from <= |ids|
    ensures r.None? ==> forall i :: from <= i < |ids| ==> Offered(item, ids[i])
    ensures r.Some? ==> from <= r.value < |ids| && !Offered(item, ids[r.value])
    decreases |ids| - from
  {
    if from == |ids| then None
    else if !Offered(item, ids[from]) then Some(from)
    else FirstMissing(item, ids, from + 1)
  }

  function Delta(item: Item, id: string): int64 {
    if Offered(item, id) then LastModifier(item.modifiers, id).value.priceDelta else 0
  }

  function Deltas(item: Item, ids: seq<string>): (deltas: seq<int>)
    ensures |deltas| == |ids|
    ensures forall i :: 0 <= i < |ids| ==> deltas[i] == Delta(item, ids[i])
  {
    seq(|ids|, i requires 0 <= i < |ids| => Delta(item, ids[i]))
  }

  // What one unit costs before any wrap-around.
  function ExactUnit(item: Item, ids: seq<string>): int {
    item.columns.price + Sum(Deltas(item, ids))
  }

  function ValidatedItem(item: Item, r: Requested): OrderItem {
    var unitPrice := Wrap(ExactUnit(item, r.modifiers));
    OrderItem(item.columns.id, item.columns.name, unitPrice, r.quantity, r.modifiers, LineTotal(unitPrice, r.quantity))
  }

  function ValidateOne(menu: seq<Category>, index: nat, r: Requested): Result<OrderItem, CatalogError> {
    if r.menuItemId == "" || r.quantity <= 0 then Failure(InvalidRequest(index))
    else match LastItem(AllItems(menu), r.menuItemId)
      case None => Failure(ItemNotFound(r.menuItemId))
      case Some(item) =>
        if !item.columns.available then Failure(ItemUnavailable(r.menuItemId))
        else match FirstMissing(item, r.modifiers, 0)
          case Some(k) => Failure(ModifierNotFound(r.modifiers[k]))
          case None => Success(ValidatedItem(item, r))
  }

  function ValidateFrom(menu: seq<Category>, requested: seq<Requested>, from: nat): Result<seq<OrderItem>, CatalogError>
    requires from <= |requested|
    decreases |requested| - from
  {
    if from == |requested| then Success([])
    else match ValidateOne(menu, from, requested[from])
      case Failure(e) => Failure(e)
      case Success(item) =>
        match ValidateFrom(menu, requested, from + 1)
        case Failure(e) => Failure(e)
        case Success(rest) => Success([item] + rest)
  }

  // `open` is the restaurant's row, if it has one.
  function Validate(open: Option<bool>, menu: seq<Category>, requested: seq<Requested>): Result<seq<OrderItem>, CatalogError> {
    if requested == [] then Failure(EmptyRequest)
    else match open
      case None => Failure(RestaurantNotFound)
      case Some(isOpen) => if !isOpen then Failure(RestaurantClosed) else ValidateFrom(menu, requested, 0)
  }

  ghost predicate IndexesItems(m: map<string, Item>, items: seq<Item>) {
    forall id :: LastItem(items, id) == if id in m then Some(m[id]) else None
  }

  ghost predicate IndexesModifiers(m: map<string, Modifier>, modifiers: seq<Modifier>) {
    forall id :: LastModifier(modifiers, id) == if id in m then Some(m[id]) else None
  }

  lemma {:induction false} LastItemSnoc(items: seq<Item>, x: Item, id: string)
    ensures LastItem(items + [x], id) == if x.columns.id == id then Some(x) else LastItem(items, id)
  {
    assert (items + [x])[..|items|] == items;
  }

  lemma {:induction false} LastModifierSnoc(modifiers: seq<Modifier>, x: Modifier, id: string)
    ensures LastModifier(modifiers + [x], id) == if x.id == id then Some(x) else LastModifier(modifiers, id)
  {
    assert (modifiers + [x])[..|modifiers|] == modifiers;
  }

  lemma IndexesItemsNext(m: map<string, Item>, items: seq<Item>, x: Item)
    requires IndexesItems(m, items)
    ensures IndexesItems(m[x.columns.id := x], items + [x])
  {
    forall id { LastItemSnoc(items, x, id); }
  }

  lemma IndexesModifiersNext(m: map<string, Modifier>, modifiers: seq<Modifier>, x: Modifier)
    requires IndexesModifiers(m, modifiers)
    ensures IndexesModifiers(m[x.id := x], modifiers + [x])
  {
    forall id { LastModifierSnoc(modifiers, x, id); }
  }

  lemma AllItemsNext(menu: seq<Category>, c: nat)
    requires c < |menu|
    ensures AllItems(menu[..c + 1]) == AllItems(menu[..c]) + menu[c].items
  {
    assert menu[..c + 1][..c] == menu[..c];
  }

  method ModifiersById(modifiers: seq<Modifier>) returns (m: map<string, Modifier>)
    ensures IndexesModifiers(m, modifiers)
  {
    m := map[];
    for i := 0 to |modifiers|
      invariant IndexesModifiers(m, modifiers[..i])
    {
      assert modifiers[..i + 1] == modifiers[..i] + [modifiers[i]];
      IndexesModifiersNext(m, modifiers[..i], modifiers[i]);
      m := m[modifiers[i].id := modifiers[i]];
    }
    assert modifiers[..|modifiers|] == modifiers;
  }

  method ItemsById(menu: seq<Category>) returns (m: map<string, Item>)
    ensures IndexesItems(m, AllItems(menu))
  {
    m := map[];
    for c := 0 to |menu|
      invariant IndexesItems(m, AllItems(menu[..c]))
    {
      var items := menu[c].items;
      ghost var before := AllItems(menu[..c]);
      assert before + items[..0] == before;
      for i := 0 to |items|
        invariant IndexesItems(m, before + items[..i])
      {
        assert before + items[..i + 1] == before + items[..i] + [items[i]];
        IndexesItemsNext(m, before + items[..i], items[i]);
        m := m[items[i].columns.id := items[i]];
      }
      assert items[..|items|] == items;
      AllItemsNext(menu, c);
    }
    assert menu[..|menu|] == menu;
  }

  lemma {:induction false} PriceStep(item: Item, ids: seq<string>, k: nat)
    requires k < |ids| && Offered(item, ids[k])
    ensures var deltas := Deltas(item, ids);
      Wrap(Wrap(item.columns.price + Sum(deltas[..k])) + LastModifier(item.modifiers, ids[k]).value.priceDelta) ==
      Wrap(item.columns.price + Sum(deltas[..k + 1]))
  {
    var deltas := Deltas(item, ids);
    SumExtend(deltas, k);
    WrapAbsorbs(item.columns.price + Sum(deltas[..k]), deltas[k]);
  }

  // Adding up the price deltas, or stopping at the first modifier that is not offered.
  method PriceUnit(item: Item, modifiersById: map<string, Modifier>, ids: seq<string>) returns (r: Result<int64, CatalogError>)
    requires IndexesModifiers(modifiersById, item.modifiers)
    ensures match FirstMissing(item, ids, 0)
      case Some(k) => r == Failure(ModifierNotFound(ids[k]))
      case None => r == Success(Wrap(ExactUnit(item, ids)))
  {
    var unitPrice: int64 := item.columns.price;
    ghost var deltas := Deltas(item, ids);
    for k := 0 to |ids|
      invariant FirstMissing(item, ids, 0) == FirstMissing(item, ids, k)
      invariant unitPrice == Wrap(item.columns.price + Sum(deltas[..k]))
    {
      assert LastModifier(item.modifiers, ids[k]) == if ids[k] in modifiersById then Some(modifiersById[ids[k]]) else None;
      if ids[k] !in modifiersById || !modifiersById[ids[k]].available {
        return Failure(ModifierNotFound(ids[k]));
      }
      PriceStep(item, ids, k);
      unitPrice := Wrap(unitPrice + modifiersById[ids[k]].priceDelta);
    }
    assert deltas[..|ids|] == deltas;
    return Success(unitPrice);
  }

  function Prepend(validated: seq<OrderItem>, r: Result<seq<OrderItem>, CatalogError>): Result<seq<OrderItem>, CatalogError> {
    match r
    case Failure(e) => Failure(e)
    case Success(rest) => Success(validated + rest)
  }

  // What is validated so far, and what is left to do, make up the whole answer.
  ghost predicate Progress(menu: seq<Category>, requested: seq<Requested>, i: nat, validated: seq<OrderItem>)
    requires i <= |requested|
  {
    ValidateFrom(menu, requested, 0) == Prepend(validated, ValidateFrom(menu, requested, i))
  }

  lemma ProgressStarts(menu: seq<Category>, requested: seq<Requested>)
    ensures Progress(menu, requested, 0, [])
  {
    var r := ValidateFrom(menu, requested, 0);
    if r.Success? { assert [] + r.value == r.value; }
  }

  lemma {:induction false} ProgressEnds(menu: seq<Category>, requested: seq<Requested>, validated: seq<OrderItem>)
    requires Progress(menu, requested, |requested|, validated)
    ensures ValidateFrom(menu, requested, 0) == Success(validated)
  {
    assert validated + [] == validated;
  }

  lemma {:induction false} ProgressNext(menu: seq<Category>, requested: seq<Requested>, i: nat, validated: seq<OrderItem>)
    requires i < |requested| && Progress(menu, requested, i, validated)
    ensures match ValidateOne(menu, i, requested[i])
      case Failure(e) => ValidateFrom(menu, requested, 0) == Failure(e)
      case Success(item) => Progress(menu, requested, i + 1, validated + [item])
  {
    match ValidateFrom(menu, requested, i + 1)
    case Failure(_) =>
    case Success(rest) =>
      if ValidateOne(menu, i, requested[i]).Success? {
        var item := ValidateOne(menu, i, requested[i]).value;
        assert validated + ([item] + rest) == validated + [item] + rest;
      }
  }

  // One requested item, with a table of the found item's modifiers built on the spot.
  method ValidateRow(ghost menu: seq<Category>, itemsById: map<string, Item>, index: nat, request: Requested)
    returns (r: Result<OrderItem, CatalogError>)
    requires IndexesItems(itemsById, AllItems(menu))
    ensures r == ValidateOne(menu, index, request)
  {
    if request.menuItemId == "" || request.quantity <= 0 {
      return Failure(InvalidRequest(index));
    }
    assert LastItem(AllItems(menu), request.menuItemId) ==
      if request.menuItemId in itemsById then Some(itemsById[request.menuItemId]) else None;
    if request.menuItemId !in itemsById {
      return Failure(ItemNotFound(request.menuItemId));
    }
    var item := itemsById[request.menuItemId];
    if !item.columns.available {
      return Failure(ItemUnavailable(request.menuItemId));
    }
    var modifiersById := ModifiersById(item.modifiers);
    r := PriceRow(item, modifiersById, request);
  }

  method PriceRow(item: Item, modifiersById: map<string, Modifier>, request: Requested) returns (r: Result<OrderItem, CatalogError>)
    requires IndexesModifiers(modifiersById, item.modifiers)
    ensures r == match FirstMissing(item, request.modifiers, 0)
      case Some(k) => Failure(ModifierNotFound(request.modifiers[k]))
      case None => Success(ValidatedItem(item, request))
  {
    var priced := PriceUnit(item, modifiersById, request.modifiers);
    match priced
    case Failure(e) => return Failure(e);
    case Success(unitPrice) =>
      return Success(OrderItem(item.columns.id, item.columns.name, unitPrice, request.quantity, request.modifiers,
                               LineTotal(unitPrice, request.quantity)));
  }

  /** The PostgreSQL store: one table of items, and a table of modifiers for each requested item. */
  method ValidateOrderItems(open: Option<bool>, menu: seq<Category>, requested: seq<Requested>)
    returns (r: Result<seq<OrderItem>, CatalogError>)
    ensures r == Validate(open, menu, requested)
    ensures forall items :: r == Success(items) <==> Answered(open, menu, requested, items)
  {
    ValidateAnswers(open, menu, requested);
    if |requested| == 0 {
      return Failure(EmptyRequest);
    }
    if open.None? {
      return Failure(RestaurantNotFound);
    }
    if !open.value {
      return Failure(RestaurantClosed);
    }
    var itemsById := ItemsById(menu);
    var validated: seq<OrderItem> := [];
    ProgressStarts(menu, requested);
    for i := 0 to |requested|
      invariant Progress(menu, requested, i, validated)
    {
      ProgressNext(menu, requested, i, validated);
      var row := ValidateRow(menu, itemsById, i, requested[i]);
      match row {
        case Failure(e) => return Failure(e);
        case Success(item) => validated := validated + [item];
      }
    }
    ProgressEnds(menu, requested, validated);
    return Success(validated);
  }

  // One requested item, with the tables of all items' modifiers at hand.
  method ValidateRowInMemory(
    ghost menu: seq<Category>, itemsById: map<string, Item>, modifiersByItemId: map<string, map<string, Modifier>>,
    index: nat, request: Requested)
    returns (r: Result<OrderItem, CatalogError>)
    requires IndexesItems(itemsById, AllItems(menu)) && IndexesByItem(modifiersByItemId, AllItems(menu))
    ensures r == ValidateOne(menu, index, request)
  {
    if request.menuItemId == "" || request.quantity <= 0 {
      return Failure(InvalidRequest(index));
    }
    assert LastItem(AllItems(menu), request.menuItemId) ==
      if request.menuItemId in itemsById then Some(itemsById[request.menuItemId]) else None;
    if request.menuItemId !in itemsById {
      return Failure(ItemNotFound(request.menuItemId));
    }
    var item := itemsById[request.menuItemId];
    if !item.columns.available {
      return Failure(ItemUnavailable(request.menuItemId));
    }
    r := PriceRow(item, modifiersByItemId[item.columns.id], request);
  }

  /** The in-memory store: both tables built for the whole menu first. */
  method ValidateInMemory(open: Option<bool>, menu: seq<Category>, requested: seq<Requested>)
    returns (r: Result<seq<OrderItem>, CatalogError>)
    ensures r == Validate(open, menu, requested)
    ensures forall items :: r == Success(items) <==> Answered(open, menu, requested, items)
  {
    ValidateAnswers(open, menu, requested);
    if |requested| == 0 {
      return Failure(EmptyRequest);
    }
    if open.None? {
      return Failure(RestaurantNotFound);
    }
    if !open.value {
      return Failure(RestaurantClosed);
    }
    var itemsById := ItemsById(menu);
    var modifiersByItemId := ModifiersByItem(menu);
    var validated: seq<OrderItem> := [];
    ProgressStarts(menu, requested);
    for i := 0 to |requested|
      invariant Progress(menu, requested, i, validated)
    {
      ProgressNext(menu, requested, i, validated);
      var row := ValidateRowInMemory(menu, itemsById, modifiersByItemId, i, requested[i]);
      match row {
        case Failure(e) => return Failure(e);
        case Success(item) => validated := validated + [item];
      }
    }
    ProgressEnds(menu, requested, validated);
    return Success(validated);
  }

  // For each item id, the modifiers of the item that won that id.
  ghost predicate IndexesByItem(m: map<string, map<string, Modifier>>, items: seq<Item>) {
    forall id :: LastItem(items, id).Some? ==> id in m && IndexesModifiers(m[id], LastItem(items, id).value.modifiers)
  }

  method ModifiersByItem(menu: seq<Category>) returns (m: map<string, map<string, Modifier>>)
    ensures IndexesByItem(m, AllItems(menu))
  {
    m := map[];
    for c := 0 to |menu|
      invariant IndexesByItem(m, AllItems(menu[..c]))
    {
      var items := menu[c].items;
      ghost var before := AllItems(menu[..c]);
      assert before + items[..0] == before;
      for i := 0 to |items|
        invariant IndexesByItem(m, before + items[..i])
      {
        assert before + items[..i + 1] == before + items[..i] + [items[i]];
        var modifiers := ModifiersById(items[i].modifiers);
        forall id { LastItemSnoc(before + items[..i], items[i], id); }
        m := m[items[i].columns.id := modifiers];
      }
      assert items[..|items|] == items;
      AllItemsNext(menu, c);
    }
    assert menu[..|menu|] == menu;
  }

  // The total the catalog's gRPC server reports.
  method ReportTotal(items: seq<OrderItem>) returns (total: int64)
    ensures total == Wrap(Sum(LineTotals(items)))
  {
    ghost var lines := LineTotals(items);
    total := 0;
    for i := 0 to |items|
      invariant total == Wrap(Sum(lines[..i]))
    {
      WrapStep(lines, i);
      total := Wrap(total + items[i].lineTotal);
    }
    assert lines[..|items|] == lines;
  }

  // What the order service asks NewOrder for: the line totals are computed again there.
  function AsNewItem(item: OrderItem): NewItem {
    NewItem(item.menuItemId, item.name, item.unitPrice, item.quantity, item.modifiers)
  }

  function AsNewItems(items: seq<OrderItem>): (r: seq<NewItem>)
    ensures |r| == |items| && forall i :: 0 <= i < |items| ==> r[i] == AsNewItem(items[i])
  {
    seq(|items|, i requires 0 <= i < |items| => AsNewItem(items[i]))
  }

  lemma {:induction false} ValidatedFrom(menu: seq<Category>, requested: seq<Requested>, from: nat, i: nat)
    requires from <= i < |requested| && ValidateFrom(menu, requested, from).Success?
    ensures var items := ValidateFrom(menu, requested, from).value;
      |items| == |requested| - from && ValidateOne(menu, i, requested[i]) == Success(items[i - from])
    decreases |requested| - from
  {
    ValidateSplits(menu, requested, from);
    if from + 1 < |requested| {
      ValidatedFrom(menu, requested, from + 1, if i == from then from + 1 else i);
    }
    if i > from {
      assert ValidateFrom(menu, requested, from).value[i - from] == ValidateFrom(menu, requested, from + 1).value[i - from - 1];
    }
  }

  lemma ValidateSplits(menu: seq<Category>, requested: seq<Requested>, from: nat)
    requires from < |requested| && ValidateFrom(menu, requested, from).Success?
    ensures ValidateOne(menu, from, requested[from]).Success? && ValidateFrom(menu, requested, from + 1).Success?
    ensures var (items, rest) := (ValidateFrom(menu, requested, from).value, ValidateFrom(menu, requested, from + 1).value);
      |items| == 1 + |rest| && items[0] == ValidateOne(menu, from, requested[from]).value &&
      forall k :: 0 <= k < |rest| ==> items[k + 1] == rest[k]
  {
    var rest := ValidateFrom(menu, requested, from + 1).value;
    assert ValidateFrom(menu, requested, from).value == [ValidateOne(menu, from, requested[from]).value] + rest;
  }

  // ----- the same, said of the menu itself -----

  // Item j of category c is the last one on the menu under this id.
  predicate Found(menu: seq<Category>, c: int, j: int, id: string) {
    0 <= c < |menu| && 0 <= j < |menu[c].items| && menu[c].items[j].columns.id == id &&
    (forall k :: j < k < |menu[c].items| ==> menu[c].items[k].columns.id != id) &&
    (forall d, k :: c < d < |menu| && 0 <= k < |menu[d].items| ==> menu[d].items[k].columns.id != id)
  }

  // Modifier k is the item's last one under this id, and it is available.
  predicate Offers(item: Item, k: int, id: string) {
    0 <= k < |item.modifiers| && item.modifiers[k].id == id && item.modifiers[k].available &&
    forall l :: k < l < |item.modifiers| ==> item.modifiers[l].id != id
  }

  // The price of one unit as the modifiers are added to it one by one.
  ghost predicate Priced(item: Item, ids: seq<string>, prices: seq<int64>) {
    |prices| == |ids| + 1 && prices[0] == item.columns.price &&
    forall i :: 0 <= i < |ids| ==> Raised(item, ids[i], prices[i], prices[i + 1])
  }

  ghost predicate Raised(item: Item, id: string, before: int64, after: int64) {
    exists k :: Offers(item, k, id) && after == Wrap(before + item.modifiers[k].priceDelta)
  }

  // The answer to one request: the menu's item under that id, as requested, at its price.
  ghost predicate Answers(menu: seq<Category>, r: Requested, o: OrderItem) {
    r.menuItemId != "" && r.quantity > 0 &&
    (exists c, j, prices :: Found(menu, c, j, r.menuItemId) && AnswersWith(menu[c].items[j], r, o, prices))
  }

  ghost predicate AnswersWith(item: Item, r: Requested, o: OrderItem, prices: seq<int64>) {
    item.columns.available && Priced(item, r.modifiers, prices) &&
    o.menuItemId == r.menuItemId && o.name == item.columns.name && o.unitPrice == prices[|r.modifiers|] &&
    o.quantity == r.quantity && o.modifiers == r.modifiers && o.lineTotal == Wrap(o.unitPrice * r.quantity)
  }

  // The answer to a whole request: one item each, in order, from an open restaurant.
  ghost predicate Answered(open: Option<bool>, menu: seq<Category>, requested: seq<Requested>, items: seq<OrderItem>) {
    open == Some(true) && requested != [] && |items| == |requested| &&
    forall i :: 0 <= i < |requested| ==> Answers(menu, requested[i], items[i])
  }

  lemma {:induction false} LastItemConcat(x: seq<Item>, y: seq<Item>, id: string)
    ensures LastItem(x + y, id) == if LastItem(y, id).Some? then LastItem(y, id) else LastItem(x, id)
  {
    if y == [] {
      assert x + y == x;
    } else {
      assert (x + y)[..|x + y| - 1] == x + y[..|y| - 1];
      LastItemConcat(x, y[..|y| - 1], id);
    }
  }

  lemma {:induction false} LastItemAt(items: seq<Item>, id: string) returns (j: nat)
    requires LastItem(items, id).Some?
    ensures j < |items| && items[j] == LastItem(items, id).value
    ensures forall k :: j < k < |items| ==> items[k].columns.id != id
  {
    var n := |items| - 1;
    if items[n].columns.id == id { j := n; } else { j := LastItemAt(items[..n], id); }
  }

  lemma {:induction false} ItemIsLast(items: seq<Item>, j: nat, id: string)
    requires j < |items| && items[j].columns.id == id && forall k :: j < k < |items| ==> items[k].columns.id != id
    ensures LastItem(items, id) == Some(items[j])
  {
    if j < |items| - 1 { ItemIsLast(items[..|items| - 1], j, id); }
  }

  lemma {:induction false} FoundIsLast(menu: seq<Category>, c: nat, j: nat, id: string)
    requires Found(menu, c, j, id)
    ensures LastItem(AllItems(menu), id) == Some(menu[c].items[j])
  {
    var n := |menu| - 1;
    LastItemConcat(AllItems(menu[..n]), menu[n].items, id);
    if c == n { ItemIsLast(menu[c].items, j, id); } else { FoundIsLast(menu[..n], c, j, id); }
  }

  lemma {:induction false} LastIsFound(menu: seq<Category>, id: string) returns (c: nat, j: nat)
    requires LastItem(AllItems(menu), id).Some?
    ensures Found(menu, c, j, id) && menu[c].items[j] == LastItem(AllItems(menu), id).value
  {
    var n := |menu| - 1;
    LastItemConcat(AllItems(menu[..n]), menu[n].items, id);
    if LastItem(menu[n].items, id).Some? {
      c := n;
      j := LastItemAt(menu[n].items, id);
    } else {
      c, j := LastIsFound(menu[..n], id);
    }
  }

  lemma {:induction false} OffersIsLast(item: Item, modifiers: seq<Modifier>, k: nat, id: string)
    requires k < |modifiers| && modifiers[k].id == id && forall l :: k < l < |modifiers| ==> modifiers[l].id != id
    ensures LastModifier(modifiers, id) == Some(modifiers[k])
  {
    if k < |modifiers| - 1 { OffersIsLast(item, modifiers[..|modifiers| - 1], k, id); }
  }

  lemma {:induction false} LastModifierAt(modifiers: seq<Modifier>, id: string) returns (k: nat)
    requires LastModifier(modifiers, id).Some?
    ensures k < |modifiers| && modifiers[k] == LastModifier(modifiers, id).value
    ensures forall l :: k < l < |modifiers| ==> modifiers[l].id != id
  {
    var n := |modifiers| - 1;
    if modifiers[n].id == id { k := n; } else { k := LastModifierAt(modifiers[..n], id); }
  }

  lemma {:induction false} OfferedIsOffers(item: Item, id: string)
    ensures Offered(item, id) <==> exists k :: Offers(item, k, id)
    ensures forall k :: Offers(item, k, id) ==> LastModifier(item.modifiers, id) == Some(item.modifiers[k])
  {
    if LastModifier(item.modifiers, id).Some? {
      var k := LastModifierAt(item.modifiers, id);
      assert item.modifiers[k].available ==> Offers(item, k, id);
    }
    forall k | Offers(item, k, id) ensures LastModifier(item.modifiers, id) == Some(item.modifiers[k]) {
      OffersIsLast(item, item.modifiers, k, id);
    }
  }

  lemma RaisedIsDelta(item: Item, id: string, before: int64, after: int64)
    ensures Raised(item, id, before, after) <==> Offered(item, id) && after == Wrap(before + Delta(item, id))
  {
    OfferedIsOffers(item, id);
  }

  lemma ExactUnitExtends(item: Item, ids: seq<string>, n: nat)
    requires n < |ids|
    ensures Wrap(ExactUnit(item, ids[..n + 1])) == Wrap(Wrap(ExactUnit(item, ids[..n])) + Delta(item, ids[n]))
  {
    var deltas := Deltas(item, ids[..n + 1]);
    assert deltas[..n] == Deltas(item, ids[..n]);
    SumExtend(deltas, n);
    assert deltas[..n + 1] == deltas;
    WrapAbsorbs(ExactUnit(item, ids[..n]), Delta(item, ids[n]));
  }

  // Prices can be built up exactly when every modifier is offered, and they end in the wrapped sum.
  lemma {:induction false} PricedIsUnit(item: Item, ids: seq<string>, prices: seq<int64>, n: nat)
    requires Priced(item, ids, prices) && n <= |ids|
    ensures prices[n] == Wrap(ExactUnit(item, ids[..n]))
    ensures forall i :: 0 <= i < n ==> Offered(item, ids[i])
  {
    if n > 0 {
      PricedIsUnit(item, ids, prices, n - 1);
      RaisedIsDelta(item, ids[n - 1], prices[n - 1], prices[n]);
      ExactUnitExtends(item, ids, n - 1);
    }
  }

  lemma UnitIsPriced(item: Item, ids: seq<string>) returns (prices: seq<int64>)
    requires forall i :: 0 <= i < |ids| ==> Offered(item, ids[i])
    ensures Priced(item, ids, prices)
  {
    prices := seq(|ids| + 1, i requires 0 <= i <= |ids| => Wrap(ExactUnit(item, ids[..i])));
    forall i | 0 <= i < |ids| ensures Raised(item, ids[i], prices[i], prices[i + 1]) {
      ExactUnitExtends(item, ids, i);
      RaisedIsDelta(item, ids[i], prices[i], prices[i + 1]);
    }
    assert ids[..0] == [];
  }

  lemma SuccessAnswers(menu: seq<Category>, index: nat, r: Requested)
    requires ValidateOne(menu, index, r).Success?
    ensures Answers(menu, r, ValidateOne(menu, index, r).value)
  {
    var c, j := LastIsFound(menu, r.menuItemId);
    var prices := UnitIsPriced(menu[c].items[j], r.modifiers);
    PricedIsUnit(menu[c].items[j], r.modifiers, prices, |r.modifiers|);
    assert r.modifiers[..|r.modifiers|] == r.modifiers;
    assert AnswersWith(menu[c].items[j], r, ValidateOne(menu, index, r).value, prices);
  }

  lemma AnswersSucceed(menu: seq<Category>, index: nat, r: Requested, o: OrderItem)
    requires Answers(menu, r, o)
    ensures ValidateOne(menu, index, r) == Success(o)
  {
    var c, j, prices :| Found(menu, c, j, r.menuItemId) && AnswersWith(menu[c].items[j], r, o, prices);
    FoundIsLast(menu, c, j, r.menuItemId);
    PricedIsUnit(menu[c].items[j], r.modifiers, prices, |r.modifiers|);
    assert r.modifiers[..|r.modifiers|] == r.modifiers;
  }

  lemma {:induction false} AllSucceed(menu: seq<Category>, requested: seq<Requested>, from: nat)
    requires from <= |requested| && forall i :: from <= i < |requested| ==> ValidateOne(menu, i, requested[i]).Success?
    ensures ValidateFrom(menu, requested, from).Success?
    decreases |requested| - from
  {
    if from < |requested| { AllSucceed(menu, requested, from + 1); }
  }

  lemma SuccessIsAnswered(open: Option<bool>, menu: seq<Category>, requested: seq<Requested>)
    requires Validate(open, menu, requested).Success?
    ensures Answered(open, menu, requested, Validate(open, menu, requested).value)
  {
    var items := Validate(open, menu, requested).value;
    ValidatedFrom(menu, requested, 0, 0);
    forall i | 0 <= i < |requested| ensures Answers(menu, requested[i], items[i]) {
      ValidatedFrom(menu, requested, 0, i);
      SuccessAnswers(menu, i, requested[i]);
    }
  }

  lemma AnsweredIsSuccess(open: Option<bool>, menu: seq<Category>, requested: seq<Requested>, items: seq<OrderItem>)
    requires Answered(open, menu, requested, items)
    ensures Validate(open, menu, requested) == Success(items)
  {
    forall i | 0 <= i < |requested| ensures ValidateOne(menu, i, requested[i]) == Success(items[i]) {
      AnswersSucceed(menu, i, requested[i], items[i]);
    }
    AllSucceed(menu, requested, 0);
    ValidatedFrom(menu, requested, 0, 0);
    var validated := ValidateFrom(menu, requested, 0).value;
    forall i | 0 <= i < |requested| ensures validated[i] == items[i] { ValidatedFrom(menu, requested, 0, i); }
    assert validated == items;
  }

  /**
    What validation answers, exactly: an open restaurant; for each request in turn the menu's last item
    under that id, available, with its name and the requested quantity and modifiers; the unit price is
    the item's price raised by one available modifier after the other, the line total is that price
    times the quantity, and both wrap to int64. Nothing else is a success, and all of this is.
   */
  lemma ValidateAnswers(open: Option<bool>, menu: seq<Category>, requested: seq<Requested>)
    ensures forall items :: Validate(open, menu, requested) == Success(items) <==> Answered(open, menu, requested, items)
  {
    if Validate(open, menu, requested).Success? { SuccessIsAnswered(open, menu, requested); }
    forall items | Answered(open, menu, requested, items) ensures Validate(open, menu, requested) == Success(items) {
      AnsweredIsSuccess(open, menu, requested, items);
    }
  }

  /** Item by item, in order: an available item of the menu at its own price plus its available modifiers'. */
  lemma ValidatedIsOffered(open: Option<bool>, menu: seq<Category>, requested: seq<Requested>, i: nat)
    requires Validate(open, menu, requested).Success? && i < |requested|
    ensures var items := Validate(open, menu, requested).value;
      open == Some(true) && |items| == |requested| && requested[i].quantity > 0 &&
      exists c, j, prices ::
        Found(menu, c, j, requested[i].menuItemId) && AnswersWith(menu[c].items[j], requested[i], items[i], prices)
  {
    SuccessIsAnswered(open, menu, requested);
    assert Answers(menu, requested[i], Validate(open, menu, requested).value[i]);
  }

  // The menu has the item and can add every modifier asked for.
  ghost predicate CanSell(menu: seq<Category>, r: Requested) {
    r.menuItemId != "" && r.quantity > 0 &&
    exists c, j :: Found(menu, c, j, r.menuItemId) && CanSellItem(menu[c].items[j], r.modifiers)
  }

  ghost predicate CanSellItem(item: Item, ids: seq<string>) {
    item.columns.available && forall i :: 0 <= i < |ids| ==> !NotOffered(item, ids[i])
  }

  ghost predicate NotOffered(item: Item, id: string) { forall k :: !Offers(item, k, id) }

  lemma {:induction false} CanSellOne(menu: seq<Category>, index: nat, r: Requested, item: Item)
    requires r.menuItemId != "" && r.quantity > 0 && LastItem(AllItems(menu), r.menuItemId) == Some(item)
    ensures CanSellItem(item, r.modifiers) <==> ValidateOne(menu, index, r).Success?
  {
    forall i | 0 <= i < |r.modifiers| ensures NotOffered(item, r.modifiers[i]) <==> !Offered(item, r.modifiers[i]) {
      OfferedIsOffers(item, r.modifiers[i]);
    }
  }

  lemma CanSellIsSuccess(menu: seq<Category>, index: nat, r: Requested)
    ensures CanSell(menu, r) <==> ValidateOne(menu, index, r).Success?
  {
    if CanSell(menu, r) {
      var c, j :| Found(menu, c, j, r.menuItemId) && CanSellItem(menu[c].items[j], r.modifiers);
      FoundIsLast(menu, c, j, r.menuItemId);
      CanSellOne(menu, index, r, menu[c].items[j]);
    }
    if ValidateOne(menu, index, r).Success? {
      var c, j := LastIsFound(menu, r.menuItemId);
      CanSellOne(menu, index, r, menu[c].items[j]);
    }
  }

  /** And when: exactly for a non-empty request to an open restaurant whose menu can sell every entry. */
  lemma ValidateSucceeds(open: Option<bool>, menu: seq<Category>, requested: seq<Requested>)
    ensures Validate(open, menu, requested).Success? <==>
      open == Some(true) && requested != [] && forall i :: 0 <= i < |requested| ==> CanSell(menu, requested[i])
  {
    forall i | 0 <= i < |requested| ensures CanSell(menu, requested[i]) <==> ValidateOne(menu, i, requested[i]).Success? {
      CanSellIsSuccess(menu, i, requested[i]);
    }
    if requested != [] && ValidateFrom(menu, requested, 0).Success? {
      forall i | 0 <= i < |requested| ensures ValidateOne(menu, i, requested[i]).Success? { ValidatedFrom(menu, requested, 0, i); }
    } else if forall i :: 0 <= i < |requested| ==> ValidateOne(menu, i, requested[i]).Success? {
      AllSucceed(menu, requested, 0);
    }
  }

  lemma {:induction false} FailsFirst(menu: seq<Category>, requested: seq<Requested>, from: nat) returns (i: nat)
    requires from <= |requested| && ValidateFrom(menu, requested, from).Failure?
    ensures from <= i < |requested| && ValidateOne(menu, i, requested[i]) == Failure(ValidateFrom(menu, requested, from).error)
    ensures forall k :: from <= k < i ==> ValidateOne(menu, k, requested[k]).Success?
    decreases |requested| - from
  {
    if ValidateOne(menu, from, requested[from]).Failure? { i := from; } else { i := FailsFirst(menu, requested, from + 1); }
  }

  /** The refusal names the first entry that cannot be sold, and the first thing that is wrong with it. */
  lemma ValidateRefuses(menu: seq<Category>, requested: seq<Requested>) returns (i: nat)
    requires requested != [] && Validate(Some(true), menu, requested).Failure?
    ensures i < |requested| && !CanSell(menu, requested[i]) && forall k :: 0 <= k < i ==> CanSell(menu, requested[k])
    ensures var (r, error) := (requested[i], Validate(Some(true), menu, requested).error);
      if r.menuItemId == "" || r.quantity <= 0 then error == InvalidRequest(i)
      else if forall c, j :: !Found(menu, c, j, r.menuItemId) then error == ItemNotFound(r.menuItemId)
      else exists c, j :: Found(menu, c, j, r.menuItemId) && RefusedFor(menu[c].items[j], r, error)
  {
    i := FailsFirst(menu, requested, 0);
    forall k | 0 <= k <= i ensures CanSell(menu, requested[k]) <==> ValidateOne(menu, k, requested[k]).Success? {
      CanSellIsSuccess(menu, k, requested[k]);
    }
    OneRefuses(menu, i, requested[i]);
  }

  // What an item on the menu is refused for.
  ghost predicate RefusedFor(item: Item, r: Requested, error: CatalogError) {
    if !item.columns.available then error == ItemUnavailable(r.menuItemId)
    else exists k :: FirstNotOffered(item, r.modifiers, k) && error == ModifierNotFound(r.modifiers[k])
  }

  ghost predicate FirstNotOffered(item: Item, ids: seq<string>, k: int) {
    0 <= k < |ids| && NotOffered(item, ids[k]) && forall l :: 0 <= l < k ==> !NotOffered(item, ids[l])
  }

  lemma OneRefuses(menu: seq<Category>, index: nat, r: Requested)
    requires ValidateOne(menu, index, r).Failure?
    ensures var error := ValidateOne(menu, index, r).error;
      if r.menuItemId == "" || r.quantity <= 0 then error == InvalidRequest(index)
      else if forall c, j :: !Found(menu, c, j, r.menuItemId) then error == ItemNotFound(r.menuItemId)
      else exists c, j :: Found(menu, c, j, r.menuItemId) && RefusedFor(menu[c].items[j], r, error)
  {
    if r.menuItemId != "" && r.quantity > 0 {
      if LastItem(AllItems(menu), r.menuItemId).Some? {
        var c, j := LastIsFound(menu, r.menuItemId);
        var item := menu[c].items[j];
        forall l | 0 <= l < |r.modifiers| ensures NotOffered(item, r.modifiers[l]) <==> !Offered(item, r.modifiers[l]) {
          OfferedIsOffers(item, r.modifiers[l]);
        }
        if item.columns.available { FirstMissingIsFirst(item, r.modifiers, 0); }
      } else {
        forall c, j ensures !Found(menu, c, j, r.menuItemId) {
          if Found(menu, c, j, r.menuItemId) { FoundIsLast(menu, c, j, r.menuItemId); }
        }
      }
    }
  }

  lemma {:induction false} FirstMissingIsFirst(item: Item, ids: seq<string>, from: nat)
    requires from <= |ids|
    ensures FirstMissing(item, ids, from).Some? ==>
      forall l :: from <= l < FirstMissing(item, ids, from).value ==> Offered(item, ids[l])
    decreases |ids| - from
  {
    if from < |ids| && Offered(item, ids[from]) { FirstMissingIsFirst(item, ids, from + 1); }
  }

  /** One unit without modifiers costs the item's price. */
  lemma PlainPrice(open: Option<bool>, menu: seq<Category>, requested: seq<Requested>, i: nat)
    requires Validate(open, menu, requested).Success? && i < |requested| && requested[i].modifiers == []
    ensures var items := Validate(open, menu, requested).value;
      |items| == |requested| &&
      exists c, j :: Found(menu, c, j, requested[i].menuItemId) && items[i].unitPrice == menu[c].items[j].columns.price
  {
    var items := Validate(open, menu, requested).value;
    SuccessIsAnswered(open, menu, requested);
    assert Answers(menu, requested[i], items[i]);
  }

  /**
    Asking for one more modifier the item offers raises that unit price by the modifier's delta and its
    line total accordingly, and changes nothing else of the answer.
   */
  lemma OneMoreModifier(open: Option<bool>, menu: seq<Category>, requested: seq<Requested>, i: nat, m: string, c: nat, j: nat, k: nat)
    requires Validate(open, menu, requested).Success? && i < |requested|
    requires Found(menu, c, j, requested[i].menuItemId) && Offers(menu[c].items[j], k, m)
    ensures var items := Validate(open, menu, requested).value;
      |items| == |requested| &&
      var price := Wrap(items[i].unitPrice + menu[c].items[j].modifiers[k].priceDelta);
      Validate(open, menu, requested[i := requested[i].(modifiers := requested[i].modifiers + [m])]) ==
      Success(items[i := items[i].(unitPrice := price, modifiers := requested[i].modifiers + [m],
                                   lineTotal := Wrap(price * requested[i].quantity))])
  {
    var items := Validate(open, menu, requested).value;
    SuccessIsAnswered(open, menu, requested);
    OneMoreAnswers(menu, requested[i], items[i], m, c, j, k);
    var price := Wrap(items[i].unitPrice + menu[c].items[j].modifiers[k].priceDelta);
    AnsweredIsSuccess(open, menu, requested[i := requested[i].(modifiers := requested[i].modifiers + [m])],
      items[i := items[i].(unitPrice := price, modifiers := requested[i].modifiers + [m],
                           lineTotal := Wrap(price * requested[i].quantity))]);
  }

  lemma OneMoreAnswers(menu: seq<Category>, r: Requested, o: OrderItem, m: string, c: nat, j: nat, k: nat)
    requires Answers(menu, r, o) && Found(menu, c, j, r.menuItemId) && Offers(menu[c].items[j], k, m)
    ensures var price := Wrap(o.unitPrice + menu[c].items[j].modifiers[k].priceDelta);
      Answers(menu, r.(modifiers := r.modifiers + [m]),
              o.(unitPrice := price, modifiers := r.modifiers + [m], lineTotal := Wrap(price * r.quantity)))
  {
    var price := Wrap(o.unitPrice + menu[c].items[j].modifiers[k].priceDelta);
    var d, e, prices :| Found(menu, d, e, r.menuItemId) && AnswersWith(menu[d].items[e], r, o, prices);
    FoundIsLast(menu, c, j, r.menuItemId);
    FoundIsLast(menu, d, e, r.menuItemId);
    var (item, ids) := (menu[c].items[j], r.modifiers + [m]);
    var longer := prices + [price];
    forall i | 0 <= i < |ids| ensures Raised(item, ids[i], longer[i], longer[i + 1]) {
      if i < |r.modifiers| { assert Raised(item, r.modifiers[i], prices[i], prices[i + 1]); }
    }
    assert AnswersWith(item, r.(modifiers := ids),
                       o.(unitPrice := price, modifiers := ids, lineTotal := Wrap(price * r.quantity)), longer);
  }

  lemma ValidatedIsPriced(open: Option<bool>, menu: seq<Category>, requested: seq<Requested>, i: nat)
    requires Validate(open, menu, requested).Success? && i < |requested|
    ensures var items := Validate(open, menu, requested).value;
      |items| == |requested| && PricedItem(AsNewItem(items[i])) == items[i] &&
      (ValidNewItem(AsNewItem(items[i])) <==> items[i].unitPrice > 0 && items[i].name != "")
  {
    ValidatedFrom(menu, requested, 0, i);
  }

  /**
    Money agreement across services: the total the catalog reports for validated items is the total
    NewOrder stores for them and the sum partner-service checks; and NewOrder refuses exactly the
    requests with a nameless item, or with a unit price its discounts have made non-positive.
   */
  lemma TotalsAgree(open: Option<bool>, menu: seq<Category>, requested: seq<Requested>, orderId: string, userId: string, restaurantId: string)
    requires Validate(open, menu, requested).Success? && orderId != "" && userId != "" && restaurantId != ""
    ensures var items := Validate(open, menu, requested).value;
      var order := OrderFor(NewOrderInput(orderId, userId, restaurantId, AsNewItems(items)));
      (order.Success? <==> forall i :: 0 <= i < |items| ==> items[i].unitPrice > 0 && items[i].name != "") &&
      (order.Success? ==> order.value.items == items && order.value.total == Wrap(Sum(LineTotals(items))))
  {
    ValidatedIsPriced(open, menu, requested, 0);
    var items := Validate(open, menu, requested).value;
    forall i | 0 <= i < |items|
      ensures ValidNewItem(AsNewItem(items[i])) <==> items[i].unitPrice > 0 && items[i].name != ""
      ensures PricedItem(AsNewItem(items[i])) == items[i]
    {
      ValidatedIsPriced(open, menu, requested, i);
    }
    OrderForValidated(items, orderId, userId, restaurantId);
  }

  lemma OrderForValidated(items: seq<OrderItem>, orderId: string, userId: string, restaurantId: string)
    requires items != [] && orderId != "" && userId != "" && restaurantId != ""
    requires forall i :: 0 <= i < |items| ==> PricedItem(AsNewItem(items[i])) == items[i]
    ensures var order := OrderFor(NewOrderInput(orderId, userId, restaurantId, AsNewItems(items)));
      (order.Success? <==> forall i :: 0 <= i < |items| ==> ValidNewItem(AsNewItem(items[i]))) &&
      (order.Success? ==> order.value.items == items && order.value.total == Wrap(Sum(LineTotals(items))))
  {
    var asked := AsNewItems(items);
    assert PricedItems(asked) == items;
    LineTotalsWrap(asked);
    if FirstInvalid(asked, 0).Some? { assert !ValidNewItem(AsNewItem(items[FirstInvalid(asked, 0).value])); }
    assert forall i :: 0 <= i < |items| ==> asked[i] == AsNewItem(items[i]);
  }
}
