/** Requests, the recipes housekeepers follow, the wash table and the acceptance of deliveries. */
module Domain {
  import opened Collections
  import opened Stock

  /** The request types by their wire number. The enum is open: any other non-zero number is `Unlisted`. */
  datatype RequestType =
    | PrepareForGuest | DailyCleaning | FullCleaning | PrepareForSleep | Unlisted(code: int)

  datatype CleaningRequest = CleaningRequest(room: string, kind: RequestType)
  datatype WashRequest = WashRequest(room: string, item: string)
  datatype RestockRequest = RestockRequest(items: seq<Item>)

  datatype CleaningStatus = PreparedForGuest | DailyCleaned | FullyCleaned | PreparedForSleep

  /** The effects of a recipe, in order. Actions that only write a log line have no effect and are not listed. */
  datatype Op =
    | Consume(item: Item, qty: int)
    | Launder(laundry: string)
    | SetStatus(status: CleaningStatus)

  /** One effect, for one room. */
  datatype Task = Task(room: string, op: Op)

  function Recipe(kind: RequestType): seq<Op> {
    match kind
    case PrepareForGuest => [Consume(WineBottle, 1), Consume(AromaCandle, 1), SetStatus(PreparedForGuest)]
    case DailyCleaning => [Consume(CleaningItem, 5), Launder("towels"), SetStatus(DailyCleaned)]
    case FullCleaning =>
      [Launder("towels"), Launder("linens"), Consume(CleaningItem, 10), SetStatus(FullyCleaned)]
    case PrepareForSleep => [Consume(TeaBags, 1), Consume(AromaCandle, 1), SetStatus(PreparedForSleep)]
    case Unlisted(_) => []
  }

  function Tasks(req: CleaningRequest): seq<Task> {
    var ops := Recipe(req.kind);
    seq(|ops|, k requires 0 <= k < |ops| => Task(req.room, ops[k]))
  }

  /** The recipe of each kind, spelled out for one room. */
  lemma TasksAre(r: CleaningRequest)
    ensures Tasks(r) == match r.kind
      case PrepareForGuest =>
        [Task(r.room, Consume(WineBottle, 1)), Task(r.room, Consume(AromaCandle, 1)),
         Task(r.room, SetStatus(PreparedForGuest))]
      case DailyCleaning =>
        [Task(r.room, Consume(CleaningItem, 5)), Task(r.room, Launder("towels")), Task(r.room, SetStatus(DailyCleaned))]
      case FullCleaning =>
        [Task(r.room, Launder("towels")), Task(r.room, Launder("linens")), Task(r.room, Consume(CleaningItem, 10)),
         Task(r.room, SetStatus(FullyCleaned))]
      case PrepareForSleep =>
        [Task(r.room, Consume(TeaBags, 1)), Task(r.room, Consume(AromaCandle, 1)),
         Task(r.room, SetStatus(PreparedForSleep))]
      case Unlisted(_) => []
  {
  }

  const HOUR: int := 3_600_000_000_000

  datatype WashConfig = WashConfig(soap: int, duration: int)

  /** The wash table; durations are in nanoseconds. */
  function WashTable(item: string): Option<WashConfig> {
    if item == "linens" then Some(WashConfig(20, 2 * HOUR))
    else if item == "towels" then Some(WashConfig(10, HOUR))
    else None
  }

  /** The housekeepers' recipes touch these items, in these amounts, and no soap. */
  predicate Modest(t: Task) {
    match t.op
    case Consume(i, q) =>
      || (i == CleaningItem && 1 <= q <= 10)
      || ((i == WineBottle || i == AromaCandle || i == TeaBags) && q == 1)
    case Launder(item) => WashTable(item).Some?
    case SetStatus(_) => true
  }

  predicate AllModest(ts: seq<Task>) {
    forall t :: t in ts ==> Modest(t)
  }

  lemma RecipesAreModest(req: CleaningRequest)
    ensures AllModest(Tasks(req))
  {
  }

  /** A message body after decoding. */
  datatype Delivery = Malformed | Decoded(room: string, code: int)

  predicate IsSpace(c: char) {
    || '\t' <= c <= '\r' || c == ' ' || c == '\U{0085}' || c == '\U{00A0}' || c == '\U{1680}'
    || '\U{2000}' <= c <= '\U{200A}' || c == '\U{2028}' || c == '\U{2029}' || c == '\U{202F}'
    || c == '\U{205F}' || c == '\U{3000}'
  }

  predicate Blank(s: string) {
    forall k :: 0 <= k < |s| ==> IsSpace(s[k])
  }

  function KindOf(code: int): RequestType {
    if code == 1 then PrepareForGuest
    else if code == 2 then DailyCleaning
    else if code == 3 then FullCleaning
    else if code == 4 then PrepareForSleep
    else Unlisted(code)
  }

  function Accept(d: Delivery): Option<CleaningRequest> {
    if d.Malformed? || Blank(d.room) || d.code == 0 then None
    else Some(CleaningRequest(d.room, KindOf(d.code)))
  }

  /** The requests that a sequence of deliveries asks for, in order. */
  function Accepted(ds: seq<Delivery>): seq<CleaningRequest> {
    if ds == [] then []
    else
      var last := |ds| - 1;
      Accepted(ds[..last]) + match Accept(ds[last]) case None => [] case Some(req) => [req]
  }

  lemma AcceptedNext(ds: seq<Delivery>, n: nat)
    requires n < |ds|
    ensures Accepted(ds[..n + 1]) ==
            Accepted(ds[..n]) + match Accept(ds[n]) case None => [] case Some(req) => [req]
  {
    assert ds[..n + 1][..n] == ds[..n];
  }

  // ---- what is accepted, and as what

  /** A body that decodes, names a room by more than white space, and has a type. */
  predicate Acceptable(d: Delivery) {
    d.Decoded? && (exists k :: 0 <= k < |d.room| && !IsSpace(d.room[k])) && d.code != 0
  }

  function Counts(d: Delivery): int {
    if Acceptable(d) then 1 else 0
  }

  /** The request is what delivery `d` asks for: its room, and the type with its number. */
  predicate AsksFor(d: Delivery, req: CleaningRequest) {
    && Acceptable(d) && req.room == d.room
    && (d.code == 1 ==> req.kind == PrepareForGuest) && (d.code == 2 ==> req.kind == DailyCleaning)
    && (d.code == 3 ==> req.kind == FullCleaning) && (d.code == 4 ==> req.kind == PrepareForSleep)
    && (d.code !in {1, 2, 3, 4} ==> req.kind == Unlisted(d.code))
  }

  lemma AcceptMeans(d: Delivery)
    ensures Accept(d).Some? <==> Acceptable(d)
    ensures Acceptable(d) ==> AsksFor(d, Accept(d).value)
  {
    hide IsSpace;
  }

  /** Any visible ASCII character makes a room name; ASCII white space alone does not. */
  lemma AsciiRooms(room: string, code: int)
    requires code != 0
    ensures (exists k :: 0 <= k < |room| && '!' <= room[k] <= '~') ==> Accept(Decoded(room, code)).Some?
    ensures (forall k :: 0 <= k < |room| ==> room[k] in {' ', '\t', '\n', '\r'}) ==> Accept(Decoded(room, code)).None?
    ensures Accept(Malformed).None? && Accept(Decoded(room, 0)).None?
  {
    if k :| 0 <= k < |room| && '!' <= room[k] <= '~' {
      assert !IsSpace(room[k]);
    }
  }

  lemma {:induction false} AcceptedCount(ds: seq<Delivery>)
    ensures |Accepted(ds)| == Sum(ds, Counts)
    decreases |ds|
  {
    if ds != [] {
      AcceptedCount(ds[..|ds| - 1]);
      AcceptMeans(ds[|ds| - 1]);
      hide Accept;
      hide Acceptable;
    }
  }

  lemma {:induction false} AcceptedPrefix(ds: seq<Delivery>, k: nat)
    requires k <= |ds|
    ensures Accepted(ds[..k]) <= Accepted(ds)
    decreases |ds| - k
  {
    hide Accept;
    if k == |ds| {
      assert ds[..k] == ds;
    } else {
      AcceptedNext(ds, k);
      AcceptedPrefix(ds, k + 1);
    }
  }

  /** The delivery that an accepted request comes from. */
  lemma {:induction false} AcceptedFrom(ds: seq<Delivery>, i: nat) returns (k: nat)
    requires i < |Accepted(ds)|
    ensures k < |ds| && Acceptable(ds[k]) && Sum(ds[..k], Counts) == i
    decreases |ds|
  {
    var last := |ds| - 1;
    AcceptMeans(ds[last]);
    AcceptedCount(ds[..last]);
    hide Accept;
    hide Acceptable;
    if i < |Accepted(ds[..last])| {
      k := AcceptedFrom(ds[..last], i);
      assert ds[..last][..k] == ds[..k];
    } else {
      k := last;
    }
  }

  /** The delivery at `k` is acceptable, and the accepted request at `i` is the one it asks for. */
  ghost predicate Becomes(ds: seq<Delivery>, k: int, i: int) {
    0 <= k < |ds| && 0 <= i < |Accepted(ds)| && Sum(ds[..k], Counts) == i && AsksFor(ds[k], Accepted(ds)[i])
  }

  ghost predicate Stems(ds: seq<Delivery>, i: int) {
    exists k :: Becomes(ds, k, i)
  }

  lemma BecomesNext(ds: seq<Delivery>, k: nat)
    requires k < |ds| && Acceptable(ds[k])
    ensures Becomes(ds, k, |Accepted(ds[..k])|)
  {
    AcceptMeans(ds[k]);
    AcceptedNext(ds, k);
    AcceptedCount(ds[..k]);
    AcceptedPrefix(ds, k + 1);
    hide Accept;
    hide Accepted;
    hide Acceptable;
    hide AsksFor;
  }

  /**
   The accepted requests are those of exactly the acceptable deliveries, in order: each such delivery
   becomes the request at the place that counts the acceptable ones before it, and there are no others.
   */
  lemma AcceptedAre(ds: seq<Delivery>)
    ensures forall k :: 0 <= k < |ds| && Acceptable(ds[k]) ==> Becomes(ds, k, Sum(ds[..k], Counts))
    ensures forall i :: 0 <= i < |Accepted(ds)| ==> Stems(ds, i)
    ensures |Accepted(ds)| == Sum(ds, Counts)
  {
    AcceptedCount(ds);
    hide Accept;
    hide Accepted;
    hide Acceptable;
    forall k | 0 <= k < |ds| && Acceptable(ds[k]) ensures Becomes(ds, k, Sum(ds[..k], Counts)) {
      BecomesNext(ds, k);
      AcceptedCount(ds[..k]);
    }
    forall i | 0 <= i < |Accepted(ds)| ensures Stems(ds, i) {
      var k := AcceptedFrom(ds, i);
      BecomesNext(ds, k);
      AcceptedCount(ds[..k]);
      assert Becomes(ds, k, i);
    }
  }
}
