/**
  The canonical text of a create-order command. The service fingerprints a command by hashing
  this text, so two commands share an idempotency key without conflict exactly when their
  canonical texts are equal.
 */
module Canonical {
  import opened Texts

  datatype RequestedItem = RequestedItem(menuItemId: string, quantity: int, modifiers: seq<string>)

  datatype Command = Command(userId: string, restaurantId: string, items: seq<RequestedItem>)

  function ItemText(item: RequestedItem): string {
    item.menuItemId + [':'] + (Decimal(item.quantity) + [':'] + Join(Sort(item.modifiers), ','))
  }

  function ItemTexts(items: seq<RequestedItem>): (texts: seq<string>)
    ensures |texts| == |items|
    ensures forall i :: 0 <= i < |items| ==> texts[i] == ItemText(items[i])
  {
    seq(|items|, i requires 0 <= i < |items| => ItemText(items[i]))
  }

  // Three fields joined by NUL; a fingerprint is an injective digest of this text.
  function Fingerprint(c: Command): string {
    c.userId + ['\0'] + (c.restaurantId + ['\0'] + Join(Sort(ItemTexts(c.items)), '|'))
  }

  // FingerprintCreateOrderRequest, loop for loop.
  method FingerprintCreateOrderRequest(input: Command) returns (canonical: string)
    ensures canonical == Fingerprint(input)
  {
    ghost var texts := ItemTexts(input.items);
    var items: seq<string> := [];
    for i := 0 to |input.items|
      invariant items == texts[..i]
    {
      var item := input.items[i];
      var modifiers := Sort(item.modifiers);
      var text := item.menuItemId + [':'] + (Decimal(item.quantity) + [':'] + Join(modifiers, ','));
      assert text == ItemText(item) == texts[i];
      assert texts[..i + 1] == texts[..i] + [texts[i]];
      items := items + [text];
    }
    assert texts[..|texts|] == texts;
    items := Sort(items);
    JoinThree(input.userId, input.restaurantId, Join(items, '|'));
    canonical := Join([input.userId, input.restaurantId, Join(items, '|')], '\0');
  }

  lemma JoinThree(a: string, b: string, c: string)
    ensures Join([a, b, c], '\0') == a + ['\0'] + (b + ['\0'] + c)
  {
    assert [a, b, c][1..] == [b, c] && [b, c][1..] == [c];
    assert Join([c], '\0') == c;
    assert Join([b, c], '\0') == b + ['\0'] + c;
  }

  // What a command asks for, with the order of items and of modifiers forgotten.
  datatype Line = Line(menuItemId: string, quantity: int, modifiers: multiset<string>)

  function LineOf(item: RequestedItem): Line {
    Line(item.menuItemId, item.quantity, multiset(item.modifiers))
  }

  function Lines(items: seq<RequestedItem>): (lines: seq<Line>)
    ensures |lines| == |items|
    ensures forall i :: 0 <= i < |items| ==> lines[i] == LineOf(items[i])
  {
    seq(|items|, i requires 0 <= i < |items| => LineOf(items[i]))
  }

  predicate SameRequest(a: Command, b: Command) {
    a.userId == b.userId && a.restaurantId == b.restaurantId &&
    multiset(Lines(a.items)) == multiset(Lines(b.items))
  }

  predicate CleanItem(item: RequestedItem) {
    ':' !in item.menuItemId && '|' !in item.menuItemId &&
    CleanParts(item.modifiers, ',') &&
    forall i :: 0 <= i < |item.modifiers| ==> '|' !in item.modifiers[i]
  }

  predicate Clean(c: Command) {
    '\0' !in c.userId && '\0' !in c.restaurantId &&
    forall i :: 0 <= i < |c.items| ==> CleanItem(c.items[i])
  }

  // Reordering items, or modifiers inside an item, never changes the fingerprint.
  lemma ReorderingKeepsFingerprint(a: Command, b: Command)
    requires SameRequest(a, b)
    ensures Fingerprint(a) == Fingerprint(b)
  {
    var x, y := a.items, b.items;
    forall i, j | 0 <= i < |x| && 0 <= j < |y| && Lines(x)[i] == Lines(y)[j]
      ensures ItemTexts(x)[i] == ItemTexts(y)[j]
    {
      SortForgetsOrder(x[i].modifiers, y[j].modifiers);
    }
    EqualImages(Lines(x), Lines(y), ItemTexts(x), ItemTexts(y));
    SortForgetsOrder(ItemTexts(x), ItemTexts(y));
  }

  // Equal fingerprints give the fields back, and the item texts up to order.
  lemma FingerprintSplits(a: Command, b: Command)
    requires Clean(a) && Clean(b) && Fingerprint(a) == Fingerprint(b)
    ensures a.userId == b.userId && a.restaurantId == b.restaurantId
    ensures Sort(ItemTexts(a.items)) == Sort(ItemTexts(b.items))
  {
    var x, y := Sort(ItemTexts(a.items)), Sort(ItemTexts(b.items));
    CutUnique(a.userId, a.restaurantId + ['\0'] + Join(x, '|'), b.userId, b.restaurantId + ['\0'] + Join(y, '|'), '\0');
    CutUnique(a.restaurantId, Join(x, '|'), b.restaurantId, Join(y, '|'), '\0');
    TextsAreClean(a);
    TextsAreClean(b);
    JoinUnique(x, y, '|');
  }

  lemma TextsDetermineLines(a: Command, b: Command)
    requires Clean(a) && Clean(b)
    ensures Determines(ItemTexts(a.items), ItemTexts(b.items), Lines(a.items), Lines(b.items))
  {
    var x, y := ItemTexts(a.items), ItemTexts(b.items);
    forall i, j | 0 <= i < |x| && 0 <= j < |y| && x[i] == y[j]
      ensures Lines(a.items)[i] == Lines(b.items)[j]
    {
      ItemTextUnique(a.items[i], b.items[j]);
    }
  }

  lemma TextsGiveLines(a: Command, b: Command)
    requires Clean(a) && Clean(b) && Sort(ItemTexts(a.items)) == Sort(ItemTexts(b.items))
    ensures multiset(Lines(a.items)) == multiset(Lines(b.items))
  {
    SortForgetsOrder(ItemTexts(a.items), ItemTexts(b.items));
    TextsDetermineLines(a, b);
    EqualImages(ItemTexts(a.items), ItemTexts(b.items), Lines(a.items), Lines(b.items));
  }

  /** The idempotency law: on clean commands the fingerprint identifies the request itself. */
  lemma FingerprintIdentifiesRequest(a: Command, b: Command)
    requires Clean(a) && Clean(b)
    ensures Fingerprint(a) == Fingerprint(b) <==> SameRequest(a, b)
  {
    if SameRequest(a, b) {
      ReorderingKeepsFingerprint(a, b);
    }
    if Fingerprint(a) == Fingerprint(b) {
      FingerprintSplits(a, b);
      TextsGiveLines(a, b);
    }
  }

  lemma ItemTextUnique(a: RequestedItem, b: RequestedItem)
    requires CleanItem(a) && CleanItem(b) && ItemText(a) == ItemText(b)
    ensures LineOf(a) == LineOf(b)
  {
    FieldsUnique(a.menuItemId, a.quantity, Join(Sort(a.modifiers), ','),
                 b.menuItemId, b.quantity, Join(Sort(b.modifiers), ','));
    ModifiersUnique(a.modifiers, b.modifiers);
  }

  lemma FieldsUnique(id: string, n: int, x: string, id': string, n': int, x': string)
    requires ':' !in id && ':' !in id'
    requires id + [':'] + (Decimal(n) + [':'] + x) == id' + [':'] + (Decimal(n') + [':'] + x')
    ensures id == id' && n == n' && x == x'
  {
    CutUnique(id, Decimal(n) + [':'] + x, id', Decimal(n') + [':'] + x', ':');
    CutUnique(Decimal(n), x, Decimal(n'), x', ':');
    DecimalRoundTrip(n);
    DecimalRoundTrip(n');
  }

  lemma {:induction false} ModifiersUnique(a: seq<string>, b: seq<string>)
    requires CleanParts(a, ',') && CleanParts(b, ',') && Join(Sort(a), ',') == Join(Sort(b), ',')
    ensures multiset(a) == multiset(b)
  {
    SortKeepsClean(a, ',');
    SortKeepsClean(b, ',');
    JoinUnique(Sort(a), Sort(b), ',');
    SortForgetsOrder(a, b);
  }

  lemma TextIsClean(item: RequestedItem)
    requires CleanItem(item)
    ensures ItemText(item) != "" && '|' !in ItemText(item)
  {
    var modifiers := Sort(item.modifiers);
    forall i | 0 <= i < |modifiers| ensures '|' !in modifiers[i] {
      SortKeepsMembers(item.modifiers, i);
    }
    JoinAvoids(modifiers, ',', '|');
    assert '|' !in Decimal(item.quantity);
  }

  lemma TextsAreClean(c: Command)
    requires Clean(c)
    ensures CleanParts(Sort(ItemTexts(c.items)), '|')
  {
    var texts := ItemTexts(c.items);
    forall i | 0 <= i < |texts| ensures texts[i] != "" && '|' !in texts[i] {
      TextIsClean(c.items[i]);
    }
    SortKeepsClean(texts, '|');
  }

  function Without<T>(s: seq<T>, j: nat): (r: seq<T>)
    requires j < |s|
    ensures multiset(s) == multiset(r) + multiset{s[j]}
    ensures |r| == |s| - 1
    ensures forall k :: 0 <= k < |r| ==> r[k] == s[if k < j then k else k + 1]
  {
    assert s == s[..j] + [s[j]] + s[j + 1..];
    s[..j] + s[j + 1..]
  }

  // Entries that agree in x and y agree in fx and fy too.
  ghost predicate Determines<T, U>(x: seq<T>, y: seq<T>, fx: seq<U>, fy: seq<U>)
    requires |fx| == |x| && |fy| == |y|
  {
    forall i, j :: 0 <= i < |x| && 0 <= j < |y| && x[i] == y[j] ==> fx[i] == fy[j]
  }

  lemma DeterminesWithout<T, U>(x: seq<T>, y: seq<T>, fx: seq<U>, fy: seq<U>, i: nat, j: nat)
    requires |fx| == |x| && |fy| == |y| && i < |x| && j < |y| && Determines(x, y, fx, fy)
    ensures Determines(Without(x, i), Without(y, j), Without(fx, i), Without(fy, j))
  {
  }

  lemma {:induction false} EqualImages<T, U>(x: seq<T>, y: seq<T>, fx: seq<U>, fy: seq<U>)
    requires |fx| == |x| && |fy| == |y| && multiset(x) == multiset(y) && Determines(x, y, fx, fy)
    ensures multiset(fx) == multiset(fy)
  {
    assert |x| == |multiset(x)| == |multiset(y)| == |y|;
    if x != [] {
      assert x[0] in multiset(y) by { assert x[0] in multiset(x); }
      var j :| 0 <= j < |y| && y[j] == x[0];
      DeterminesWithout(x, y, fx, fy, 0, j);
      EqualMultisetsWithout(x, y, j);
      EqualImages(Without(x, 0), Without(y, j), Without(fx, 0), Without(fy, j));
      assert fx[0] == fy[j];
    }
  }

  lemma EqualMultisetsWithout<T>(x: seq<T>, y: seq<T>, j: nat)
    requires x != [] && j < |y| && multiset(x) == multiset(y) && y[j] == x[0]
    ensures multiset(Without(x, 0)) == multiset(Without(y, j))
  {
    assert multiset(Without(x, 0)) == multiset(x) - multiset{x[0]};
    assert multiset(Without(y, j)) == multiset(y) - multiset{y[j]};
  }

  predicate Collide(a: Command, b: Command) {
    Fingerprint(a) == Fingerprint(b) && !SameRequest(a, b)
  }

  // No part of `Clean` can be dropped: for each there is a family of commands that break it and share
  // their fingerprint with a command that asks for something else.

  lemma NulRegroups(u: string, v: string, r: string, id: string, t: string)
    ensures v + ['\0'] + r + ['\0'] + (id + t) == v + ['\0'] + (r + ['\0'] + id + t)
    ensures u + ['\0'] + v + ['\0'] + (r + ['\0'] + (id + t)) == u + ['\0'] + (v + ['\0'] + (r + ['\0'] + id + t))
  {
  }

  // A NUL in the user id can move into the item id, by way of the restaurant id.
  lemma NulInUserCollides(u: string, v: string, r: string, id: string, n: int)
    ensures Collide(One(u + ['\0'] + v, r, Bare(id, n)), One(u, v, Bare(r + ['\0'] + id, n)))
  {
    BareText(id, n);
    BareText(r + ['\0'] + id, n);
    OneItem(u + ['\0'] + v, r, Bare(id, n));
    OneItem(u, v, Bare(r + ['\0'] + id, n));
    NulRegroups(u, v, r, id, [':'] + (Decimal(n) + [':']));
  }

  lemma NulInRestaurantCollides(u: string, v: string, r: string, id: string, n: int)
    ensures Collide(One(u, v + ['\0'] + r, Bare(id, n)), One(u, v, Bare(r + ['\0'] + id, n)))
  {
    BareText(id, n);
    BareText(r + ['\0'] + id, n);
    OneItem(u, v + ['\0'] + r, Bare(id, n));
    OneItem(u, v, Bare(r + ['\0'] + id, n));
    NulRegroups(u, v, r, id, [':'] + (Decimal(n) + [':']));
  }

  // An item id that ends like a quantity reads as an item with a modifier.
  lemma ColonInItemCollides(u: string, r: string, id: string, n: int, m: int)
    ensures Collide(One(u, r, Bare(id + [':'] + Decimal(n), m)),
                    One(u, r, RequestedItem(id, n, [Decimal(m) + [':']])))
  {
    var x, y := Bare(id + [':'] + Decimal(n), m), RequestedItem(id, n, [Decimal(m) + [':']]);
    BareText(x.menuItemId, m);
    OneModifierText(id, n, Decimal(m) + [':']);
    var t := Decimal(m) + [':'];
    assert id + [':'] + Decimal(n) + ([':'] + t) == id + [':'] + (Decimal(n) + [':'] + t);
    SameTextCollides(u, r, x, y);
  }

  lemma {:induction false} CommaInModifierCollides(u: string, r: string, id: string, n: int, a: string, b: string)
    requires Leq(a, b)
    ensures Collide(One(u, r, RequestedItem(id, n, [a + [','] + b])), One(u, r, RequestedItem(id, n, [a, b])))
  {
    SortTwo(a, b, ',');
    OneModifierText(id, n, a + [','] + b);
    SameTextCollides(u, r, RequestedItem(id, n, [a + [','] + b]), RequestedItem(id, n, [a, b]));
  }

  lemma EmptyModifierCollides(u: string, r: string, id: string, n: int)
    ensures Collide(One(u, r, RequestedItem(id, n, [""])), One(u, r, Bare(id, n)))
  {
    OneModifierText(id, n, "");
    SameTextCollides(u, r, RequestedItem(id, n, [""]), Bare(id, n));
  }

  // One item whose id contains the text of a whole item reads as two items.
  lemma BarInItemCollides(u: string, r: string, i: string, n: int, j: string, m: int)
    requires Leq(ItemText(Bare(i, n)), ItemText(Bare(j, m)))
    ensures Collide(One(u, r, Bare(ItemText(Bare(i, n)) + ['|'] + j, m)), Command(u, r, [Bare(i, n), Bare(j, m)]))
  {
    var x, y := Bare(i, n), Bare(j, m);
    var z := Bare(ItemText(x) + ['|'] + j, m);
    BareText(j, m);
    BareText(z.menuItemId, m);
    OneItem(u, r, z);
    TwoItems(u, r, x, y);
    BarAppends(ItemText(x), j, [':'] + (Decimal(m) + [':']));
  }

  lemma BarAppends(x: string, j: string, t: string)
    ensures x + ['|'] + j + t == x + ['|'] + (j + t)
  {
  }

  lemma BarRegroups(i: string, n: string, t: string)
    ensures i + [':'] + (n + [':'] + (['|'] + t)) == i + ([':'] + (n + [':'])) + ['|'] + t
  {
  }

  lemma BarInModifierCollides(u: string, r: string, i: string, n: int, j: string, m: int)
    requires Leq(ItemText(Bare(i, n)), ItemText(Bare(j, m)))
    ensures Collide(One(u, r, RequestedItem(i, n, [['|'] + ItemText(Bare(j, m))])), Command(u, r, [Bare(i, n), Bare(j, m)]))
  {
    var x, y := Bare(i, n), Bare(j, m);
    var t := ItemText(y);
    BareText(i, n);
    OneModifierText(i, n, ['|'] + t);
    OneItem(u, r, RequestedItem(i, n, [['|'] + t]));
    TwoItems(u, r, x, y);
    BarRegroups(i, Decimal(n), t);
  }

  function Bare(id: string, n: int): RequestedItem { RequestedItem(id, n, []) }

  lemma BareText(id: string, n: int)
    ensures ItemText(Bare(id, n)) == id + ([':'] + (Decimal(n) + [':']))
  {
    assert Decimal(n) + [':'] + "" == Decimal(n) + [':'];
  }

  function One(user: string, restaurant: string, item: RequestedItem): Command {
    Command(user, restaurant, [item])
  }

  lemma OneItem(user: string, restaurant: string, item: RequestedItem)
    ensures Fingerprint(One(user, restaurant, item)) == user + ['\0'] + (restaurant + ['\0'] + ItemText(item))
    ensures multiset(Lines([item])) == multiset{LineOf(item)}
  {
    assert ItemTexts([item]) == [ItemText(item)];
    SortOne(ItemText(item));
    assert Lines([item]) == [LineOf(item)];
  }

  lemma OneModifierText(id: string, n: int, modifier: string)
    ensures ItemText(RequestedItem(id, n, [modifier])) == id + [':'] + (Decimal(n) + [':'] + modifier)
  {
    SortOne(modifier);
  }

  lemma SameTextCollides(user: string, restaurant: string, x: RequestedItem, y: RequestedItem)
    requires ItemText(x) == ItemText(y) && |x.modifiers| != |y.modifiers|
    ensures Collide(One(user, restaurant, x), One(user, restaurant, y))
  {
    OneItem(user, restaurant, x);
    OneItem(user, restaurant, y);
    assert |multiset(x.modifiers)| != |multiset(y.modifiers)|;
    assert LineOf(x) in multiset(Lines([x])) && LineOf(x) !in multiset(Lines([y]));
  }

  lemma TwoItems(user: string, restaurant: string, x: RequestedItem, y: RequestedItem)
    requires Leq(ItemText(x), ItemText(y))
    ensures Fingerprint(Command(user, restaurant, [x, y])) ==
      user + ['\0'] + (restaurant + ['\0'] + (ItemText(x) + ['|'] + ItemText(y)))
    ensures |multiset(Lines([x, y]))| == 2
  {
    assert ItemTexts([x, y]) == [ItemText(x), ItemText(y)];
    SortTwo(ItemText(x), ItemText(y), '|');
    assert |multiset(Lines([x, y]))| == |Lines([x, y])|;
  }
}
