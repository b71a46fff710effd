/** The two order stores side by side: the same calls get the same answers. */
module StoreAgreement {
  import opened Wrappers
  import opened OrderDomain
  import opened Events
  import O = OrderStore
  import PG = PostgresStore

  datatype Call =
    | Find(userId: string, key: string, fingerprint: string)
    | Create(record: O.CreateRecord)
    | Get(orderId: string, user: string)
    | Apply(event: PartnerEvent)

  datatype Answer =
    | Found(found: Option<Result<O.Created, O.Error>>)
    | Created(created: Result<O.Created, O.Error>)
    | Got(order: Result<Order, O.Error>)
    | Applied(applied: Result<O.Applied, O.Error>)

  // What the constraints ask of a record by itself. For an order NewOrder built, that every item has
  // modifiers and nothing wrapped around.
  predicate Admissible(r: O.CreateRecord) {
    !r.order.status.Unknown? && r.order.total >= 0 && r.order.version > 0 && r.event.eventVersion > 0 &&
    forall i :: 0 <= i < |r.order.items| ==> PG.ItemRowAllowed(PG.RowOf(r.order.id, r.order.items[i]))
  }

  // Ids that have not been drawn before.
  predicate Fresh(s: O.State, r: O.CreateRecord) {
    r.order.id !in s.orders && forall i :: 0 <= i < |s.outbox| ==> s.outbox[i].eventId != r.event.eventId
  }

  predicate Apart(a: O.CreateRecord, b: O.CreateRecord) {
    a.order.id != b.order.id && a.event.eventId != b.event.eventId
  }

  ghost predicate AllFresh(s: O.State, calls: seq<Call>) {
    (forall i :: 0 <= i < |calls| && calls[i].Create? ==> Admissible(calls[i].record) && Fresh(s, calls[i].record)) &&
    (forall i, j {:trigger calls[i], calls[j]} :: 0 <= i < j < |calls| && calls[i].Create? && calls[j].Create? ==>
       Apart(calls[i].record, calls[j].record))
  }

  function Answered(s: O.State, call: Call): (O.State, Answer) {
    match call
    case Find(userId, key, fingerprint) => (s, Found(O.Find(s, userId, key, fingerprint)))
    case Create(record) => (O.Create(s, record).0, Created(O.Create(s, record).1))
    case Get(orderId, user) => (s, Got(O.Get(s, orderId, user)))
    case Apply(event) => (O.Apply(s, event).0, Applied(O.Apply(s, event).1))
  }

  lemma CallKeepsFresh(s: O.State, call: Call, r: O.CreateRecord)
    requires Fresh(s, r) && (call.Create? ==> Apart(call.record, r))
    ensures Fresh(Answered(s, call).0, r)
  {
  }

  lemma RestStaysFresh(s: O.State, calls: seq<Call>)
    requires calls != [] && AllFresh(s, calls)
    ensures AllFresh(Answered(s, calls[0]).0, calls[1..])
  {
    forall i | 0 <= i < |calls[1..]| && calls[1..][i].Create?
      ensures Admissible(calls[1..][i].record) && Fresh(Answered(s, calls[0]).0, calls[1..][i].record)
    {
      assert calls[1..][i] == calls[i + 1];
      assert calls[0].Create? ==> Apart(calls[0].record, calls[i + 1].record);
      CallKeepsFresh(s, calls[0], calls[i + 1].record);
    }
    forall i, j | 0 <= i < j < |calls[1..]| && calls[1..][i].Create? && calls[1..][j].Create?
      ensures Apart(calls[1..][i].record, calls[1..][j].record)
    {
      assert calls[1..][i] == calls[i + 1] && calls[1..][j] == calls[j + 1];
    }
  }

  method AnswerFromTables(store: PG.Store, call: Call) returns (answer: Answer)
    requires store.Valid() && (call.Create? ==> Admissible(call.record) && Fresh(PG.Abs(store.tables), call.record))
    modifies store
    ensures store.Valid() && (PG.Abs(store.tables), answer) == Answered(old(PG.Abs(store.tables)), call)
  {
    match call
    case Find(userId, key, fingerprint) =>
      var found := store.FindOrderByIdempotencyKey(userId, key, fingerprint);
      answer := Found(found);
    case Create(record) =>
      var created := store.CreateOrder(record);
      answer := Created(created);
    case Get(orderId, user) =>
      var order := store.GetOrder(orderId, user);
      answer := Got(order);
    case Apply(event) =>
      var applied := store.ApplyPartnerEvent(event);
      answer := Applied(applied);
  }

  method AnswerFromMaps(store: O.MemoryStore, call: Call) returns (answer: Answer)
    requires store.Valid()
    modifies store
    ensures store.Valid() && (store.Contents(), answer) == Answered(old(store.Contents()), call)
  {
    match call
    case Find(userId, key, fingerprint) =>
      var found := store.FindOrderByIdempotencyKey(userId, key, fingerprint);
      answer := Found(found);
    case Create(record) =>
      var created := store.CreateOrder(record);
      answer := Created(created);
    case Get(orderId, user) =>
      var order := store.GetOrder(orderId, user);
      answer := Got(order);
    case Apply(event) =>
      var applied := store.ApplyPartnerEvent(event);
      answer := Applied(applied);
  }

  /**
    Any sequence of calls, made to the PostgreSQL store and to the in-memory store alike, is answered
    alike and leaves them standing for the same contents, as long as the constraints admit the created
    orders by themselves and every drawn id is new.
   */
  method SameAnswers(tables: PG.Store, maps: O.MemoryStore, calls: seq<Call>) returns (fromTables: seq<Answer>, fromMaps: seq<Answer>)
    requires tables.Valid() && maps.Valid() && PG.Abs(tables.tables) == maps.Contents() && AllFresh(maps.Contents(), calls)
    modifies tables, maps
    ensures fromTables == fromMaps && |fromMaps| == |calls|
    ensures tables.Valid() && maps.Valid() && PG.Abs(tables.tables) == maps.Contents()
  {
    fromTables, fromMaps := [], [];
    for i := 0 to |calls|
      invariant tables.Valid() && maps.Valid() && PG.Abs(tables.tables) == maps.Contents()
      invariant fromTables == fromMaps && |fromMaps| == i
      invariant AllFresh(maps.Contents(), calls[i..])
    {
      assert calls[i..][0] == calls[i] && calls[i..][1..] == calls[i + 1..];
      RestStaysFresh(maps.Contents(), calls[i..]);
      var x := AnswerFromTables(tables, calls[i]);
      var y := AnswerFromMaps(maps, calls[i]);
      fromTables, fromMaps := fromTables + [x], fromMaps + [y];
    }
  }
}
