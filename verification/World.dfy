/** The shared stores of the delivery pipeline for one project stream: the Redis stream and its
    consumer group, the ClickHouse event rows, and the PostgreSQL watermark and marker rows.
    Identifiers are the numeric form of `StreamIds.Key`; 0 stands for `0-0`. */
module World {
  import opened Options
  import opened Markers

  type Token = nat

  datatype Message = Event(payload: string) | Marker(token: Token) | Malformed

  datatype Watermark = Watermark(contiguous: Id, entriesRead: nat, healthy: bool)

  /** `admitted`, `delivered`, `deadLettered` and `outside` are histories: every entry ever added,
      every entry ever handed to a consumer, every dead-letter write, and every entry whose pending
      claim or stream copy was removed by someone other than a writer. */
  datatype World = World(
    admitted: map<Id, Message>,
    entries: set<Id>,
    pending: set<Id>,
    lastDelivered: Id,
    entriesRead: nat,
    maxDeleted: Id,
    dedup: map<Token, Id>,
    watermark: Option<Watermark>,
    markers: map<Token, Row>,
    rows: set<(Id, string)>,
    delivered: set<Id>,
    deadLettered: set<Id>,
    outside: set<Id>
  )

  // ----- what can be said about one entry

  predicate Stored(w: World, id: Id) {
    id in w.admitted && w.admitted[id].Event? && (id, w.admitted[id].payload) in w.rows
  }

  predicate PublishedMarker(w: World, id: Id) {
    && id in w.admitted && w.admitted[id].Marker?
    && var t := w.admitted[id].token;
       t in w.markers && PublishedAs(w.markers[t], id)
  }

  predicate QuarantinedMarker(w: World, id: Id) {
    && id in w.admitted && w.admitted[id].Marker?
    && var t := w.admitted[id].token;
       t in w.markers && w.markers[t].state.Quarantined? && w.markers[t].observed == Some(id)
  }

  predicate Degraded(w: World) {
    w.watermark.Some? && !w.watermark.value.healthy
  }

  /** Neither pending nor in the stream. */
  predicate Gone(w: World, id: Id) {
    id !in w.pending && id !in w.entries
  }

  predicate Clean(w: World, id: Id) {
    Stored(w, id) || PublishedMarker(w, id)
  }

  predicate Accounted(w: World, id: Id) {
    Clean(w, id) || QuarantinedMarker(w, id) || id in w.deadLettered
  }

  /** The entry is not lost: still to be read or reclaimed, accounted for, or removed by outsiders. */
  predicate Safe(w: World, id: Id) {
    || (id in w.entries && (id > w.lastDelivered || id in w.pending))
    || Accounted(w, id)
    || id in w.outside
  }

  ghost function UpTo(ids: set<Id>, bound: Id): set<Id> {
    set id | id in ids && id <= bound
  }

  /** The group has handed out exactly the entries up to its head, and counted each of them. */
  ghost predicate Exact(w: World) {
    && (forall id <- w.admitted :: if id <= w.lastDelivered then id in w.delivered else id in w.entries)
    && |w.delivered| == w.entriesRead
  }

  /** What a healthy watermark promises. */
  ghost predicate FrontierHolds(w: World, mark: Watermark) {
    && mark.contiguous <= w.lastDelivered
    && mark.entriesRead == |UpTo(w.delivered, mark.contiguous)|
    && forall id <- w.admitted :: id <= mark.contiguous ==> id in w.delivered && Gone(w, id) && Clean(w, id)
  }

  ghost predicate StreamOk(w: World) {
    && 0 !in w.admitted
    && w.entries <= w.admitted.Keys
    && w.delivered <= w.admitted.Keys
    && w.pending <= w.delivered
    && (forall id <- w.delivered :: id <= w.lastDelivered)
    && (forall id <- w.pending :: id in w.entries || id in w.outside)
    && (w.lastDelivered == 0 && w.entriesRead == 0 && w.maxDeleted == 0 ==> Exact(w))
  }

  ghost predicate StoresOk(w: World) {
    && (forall r <- w.rows :: r.0 in w.delivered && r.0 in w.admitted && w.admitted[r.0] == Event(r.1))
    && (forall id <- w.deadLettered :: id in w.delivered && id in w.admitted && !w.admitted[id].Marker?)
  }

  ghost predicate MarkersOk(w: World) {
    && (forall t <- w.dedup :: w.dedup[t] in w.admitted && w.admitted[w.dedup[t]] == Marker(t))
    && (forall t <- w.markers :: RowOk(w.markers[t]))
    && (forall t <- w.markers :: w.markers[t].observed.Some? ==>
          t in w.dedup && w.dedup[t] == w.markers[t].observed.value)
  }

  ghost predicate NothingLost(w: World) {
    forall id <- w.admitted :: Safe(w, id)
  }

  ghost predicate WorldInv(w: World)
  {
    && StreamOk(w)
    && StoresOk(w)
    && MarkersOk(w)
    && NothingLost(w)
    && (w.watermark.Some? && w.watermark.value.healthy ==> Exact(w) && FrontierHolds(w, w.watermark.value))
  }

  // ----- atomic effects on the stores

  /** XADD: identifiers only grow. */
  predicate CanAdd(w: World, id: Id) {
    id > w.lastDelivered && id > 0 && forall x <- w.admitted :: x < id
  }

  function Add(w: World, id: Id, message: Message): World {
    w.(admitted := w.admitted[id := message], entries := w.entries + {id})
  }

  /** XREADGROUP with `>`: the next unread entry, to whichever consumer asks. */
  predicate CanDeliver(w: World, id: Id) {
    && id in w.entries && id > w.lastDelivered
    && forall e <- w.entries :: e <= w.lastDelivered || id <= e
  }

  function Deliver(w: World, id: Id): World {
    w.(pending := w.pending + {id}, delivered := w.delivered + {id},
    lastDelivered := id, entriesRead := w.entriesRead + 1)
  }

  function Max(a: nat, b: nat): nat {
    if a < b then b else a
  }

  /** XACK by a client that is not a writer. */
  function ForeignAck(w: World, id: Id): World {
    w.(pending := w.pending - {id}, outside := w.outside + {id})
  }

  /** XDEL, by someone else, of an entry that has already been delivered. */
  function ForeignDelete(w: World, id: Id): World {
    w.(entries := w.entries - {id}, outside := w.outside + {id}, maxDeleted := Max(w.maxDeleted, id))
  }

  /** XAUTOCLAIM drops a pending claim whose entry no longer exists. */
  function DropClaim(w: World, id: Id): World {
    w.(pending := w.pending - {id})
  }

  function DegradedMark(mark: Option<Watermark>): Watermark {
    if mark.Some? then mark.value.(healthy := false) else Watermark(0, 0, false)
  }

  function Degrade(w: World): World {
    w.(watermark := Some(DegradedMark(w.watermark)))
  }

  function Store(w: World, id: Id): World
    requires id in w.admitted && w.admitted[id].Event?
  {
    w.(rows := w.rows + {(id, w.admitted[id].payload)})
  }

  function DeadLetter(w: World, id: Id): World {
    w.(deadLettered := w.deadLettered + {id})
  }

  function Ids(s: seq<Id>): set<Id> {
    set id | id in s
  }

  function MaxOf(s: seq<Id>, floor: Id): Id {
    if s == [] then floor else MaxOf(s[1..], Max(floor, s[0]))
  }

  /** The XACK + XDEL transaction. */
  function AckDelete(w: World, ids: seq<Id>): World {
    w.(pending := w.pending - Ids(ids), entries := w.entries - Ids(ids),
    maxDeleted := MaxOf(ids, w.maxDeleted))
  }

  /** XTRIM MINID. */
  function Trim(w: World, bound: Id): World {
    w.(entries := set id | id in w.entries && id >= bound)
  }

  function SetWatermark(w: World, mark: Watermark): World {
    w.(watermark := Some(mark))
  }

  function RequestMarker(w: World, token: Token): World {
    w.(markers := w.markers[token := Row(Pending, 0, None, None)])
  }

  function AddMarker(w: World, token: Token, id: Id): World {
    Add(w, id, Marker(token)).(dedup := w.dedup[token := id])
  }

  function SetMarker(w: World, token: Token, row: Row): World {
    w.(markers := w.markers[token := row])
  }

  /** The largest identifier ever deleted is remembered. */
  lemma AckDeleteRemembersLargest(w: World, ids: seq<Id>)
    ensures var after := AckDelete(w, ids).maxDeleted;
            && w.maxDeleted <= after && (forall id <- ids :: id <= after)
            && (after == w.maxDeleted || after in ids)
  {
    MaxOfIsLargest(ids, w.maxDeleted);
  }

  lemma {:induction false} MaxOfIsLargest(ids: seq<Id>, floor: Id)
    ensures floor <= MaxOf(ids, floor) && (forall id <- ids :: id <= MaxOf(ids, floor))
    ensures MaxOf(ids, floor) == floor || MaxOf(ids, floor) in ids
    decreases |ids|
  {
    if ids != [] {
      MaxOfIsLargest(ids[1..], Max(floor, ids[0]));
      assert ids == [ids[0]] + ids[1..];
    }
  }

  // ----- how the stores may change: the relation every process's local knowledge survives

  predicate RowStep(before: Row, after: Row) {
    after == before || (Evolves(before, after) && (!after.state.Pending? || after.attempts == before.attempts + 1))
  }

  ghost predicate Grows(w: World, w': World) {
    && (forall id <- w.admitted :: id in w'.admitted && w'.admitted[id] == w.admitted[id])
    && w.delivered <= w'.delivered
    && w.lastDelivered <= w'.lastDelivered
    && (forall id <- w'.delivered :: id in w.delivered || id > w.lastDelivered)
    && (forall id <- w'.pending :: id in w.pending || id > w.lastDelivered)
    && (forall id <- w'.entries :: id in w.entries || id !in w.admitted)
    && w'.entriesRead - |w'.delivered| == w.entriesRead - |w.delivered|
    && (Exact(w) ==> Exact(w'))
    && w.maxDeleted <= w'.maxDeleted
    && w.rows <= w'.rows
    && w.deadLettered <= w'.deadLettered
    && (Degraded(w) ==> Degraded(w'))
    && (forall t <- w.dedup :: t in w'.dedup && w'.dedup[t] == w.dedup[t])
    && (forall t <- w.markers :: t in w'.markers && RowStep(w.markers[t], w'.markers[t]))
  }

  lemma UpToStable(w: World, w': World, bound: Id)
    requires Grows(w, w') && bound <= w.lastDelivered
    ensures UpTo(w'.delivered, bound) == UpTo(w.delivered, bound)
  {
  }

  /** Facts about one delivered entry persist. */
  lemma EntryFactsPersist(w: World, w': World, id: Id)
    requires WorldInv(w) && Grows(w, w') && id in w.delivered
    ensures Stored(w, id) ==> Stored(w', id)
    ensures PublishedMarker(w, id) ==> PublishedMarker(w', id)
    ensures QuarantinedMarker(w, id) ==> QuarantinedMarker(w', id)
    ensures Gone(w, id) ==> Gone(w', id)
  {
  }

  /** A watermark that is left alone keeps its promise. */
  lemma FrontierPersists(w: World, w': World, mark: Watermark)
    requires WorldInv(w) && Grows(w, w') && FrontierHolds(w, mark)
    requires forall id <- w'.admitted :: id in w.admitted || id > w.lastDelivered
    ensures FrontierHolds(w', mark)
  {
    UpToStable(w, w', mark.contiguous);
    forall id | id in w'.admitted && id <= mark.contiguous
      ensures id in w'.delivered && Gone(w', id) && Clean(w', id)
    {
      EntryFactsPersist(w, w', id);
    }
  }

  // ----- each effect keeps the invariant and only grows the stores

  lemma AddKeeps(w: World, id: Id, message: Message)
    requires WorldInv(w) && CanAdd(w, id)
    ensures WorldInv(Add(w, id, message)) && Grows(w, Add(w, id, message))
  {
    var w' := Add(w, id, message);
    assert Grows(w, w');
    if w.watermark.Some? && w.watermark.value.healthy {
      FrontierPersists(w, w', w.watermark.value);
    }
    forall x | x in w'.admitted ensures Safe(w', x) {
      if x != id { assert Safe(w, x); }
    }
  }

  lemma DeliverStaysExact(w: World, id: Id)
    requires StreamOk(w) && CanDeliver(w, id)
    ensures Exact(w) ==> Exact(Deliver(w, id))
    ensures |Deliver(w, id).delivered| == |w.delivered| + 1
  {
  }

  lemma DeliverGrows(w: World, id: Id)
    requires StreamOk(w) && CanDeliver(w, id)
    ensures Grows(w, Deliver(w, id))
  {
    DeliverStaysExact(w, id);
  }

  lemma DeliverLosesNothing(w: World, id: Id)
    requires StreamOk(w) && NothingLost(w) && CanDeliver(w, id)
    ensures NothingLost(Deliver(w, id))
  {
    forall x | x in w.admitted ensures Safe(Deliver(w, id), x) {
      assert Safe(w, x);
    }
  }

  lemma DeliverKeeps(w: World, id: Id)
    requires WorldInv(w) && CanDeliver(w, id)
    ensures WorldInv(Deliver(w, id)) && Grows(w, Deliver(w, id))
  {
    var w' := Deliver(w, id);
    DeliverGrows(w, id);
    if w.watermark.Some? && w.watermark.value.healthy {
      FrontierPersists(w, w', w.watermark.value);
    }
    DeliverLosesNothing(w, id);
  }

  /** Effects that touch neither the identifiers handed out nor the watermark. */
  lemma QuietKeeps(w: World, w': World)
    requires WorldInv(w) && Grows(w, w')
    requires w'.admitted == w.admitted && w'.delivered == w.delivered && w'.lastDelivered == w.lastDelivered
    requires w'.watermark == w.watermark
    requires StreamOk(w') && StoresOk(w') && MarkersOk(w') && NothingLost(w')
    ensures WorldInv(w')
  {
    if w.watermark.Some? && w.watermark.value.healthy {
      FrontierPersists(w, w', w.watermark.value);
    }
  }

  lemma ForeignAckKeeps(w: World, id: Id)
    requires WorldInv(w)
    ensures WorldInv(ForeignAck(w, id)) && Grows(w, ForeignAck(w, id))
  {
    var w' := ForeignAck(w, id);
    forall x | x in w'.admitted ensures Safe(w', x) { assert Safe(w, x); }
    QuietKeeps(w, w');
  }

  lemma ForeignDeleteKeeps(w: World, id: Id)
    requires WorldInv(w) && id <= w.lastDelivered
    ensures WorldInv(ForeignDelete(w, id)) && Grows(w, ForeignDelete(w, id))
  {
    var w' := ForeignDelete(w, id);
    forall x | x in w'.admitted ensures Safe(w', x) { assert Safe(w, x); }
    QuietKeeps(w, w');
  }

  lemma DropClaimKeeps(w: World, id: Id)
    requires WorldInv(w) && id !in w.entries
    ensures WorldInv(DropClaim(w, id)) && Grows(w, DropClaim(w, id))
  {
    var w' := DropClaim(w, id);
    forall x | x in w'.admitted ensures Safe(w', x) { assert Safe(w, x); }
    QuietKeeps(w, w');
  }

  lemma DegradeKeeps(w: World)
    requires WorldInv(w)
    ensures WorldInv(Degrade(w)) && Grows(w, Degrade(w)) && Degraded(Degrade(w))
  {
    forall x | x in w.admitted ensures Safe(Degrade(w), x) { assert Safe(w, x); }
  }

  lemma StoreKeeps(w: World, id: Id)
    requires WorldInv(w) && id in w.delivered && w.admitted[id].Event?
    ensures WorldInv(Store(w, id)) && Grows(w, Store(w, id))
  {
    var w' := Store(w, id);
    forall x | x in w'.admitted ensures Safe(w', x) { assert Safe(w, x); }
    QuietKeeps(w, w');
  }

  lemma DeadLetterKeeps(w: World, id: Id)
    requires WorldInv(w) && id in w.delivered && !w.admitted[id].Marker?
    ensures WorldInv(DeadLetter(w, id)) && Grows(w, DeadLetter(w, id))
  {
    var w' := DeadLetter(w, id);
    forall x | x in w'.admitted ensures Safe(w', x) { assert Safe(w, x); }
    QuietKeeps(w, w');
  }

  lemma AckDeleteKeeps(w: World, ids: seq<Id>)
    requires WorldInv(w)
    requires forall id <- ids :: id in w.delivered && Accounted(w, id)
    ensures WorldInv(AckDelete(w, ids)) && Grows(w, AckDelete(w, ids))
  {
    var w' := AckDelete(w, ids);
    MaxOfIsLargest(ids, w.maxDeleted);
    forall x | x in w'.admitted ensures Safe(w', x) { assert Safe(w, x); }
    QuietKeeps(w, w');
  }

  /** Trimming below a bound that no unread or pending entry lies under. */
  lemma TrimKeeps(w: World, bound: Id)
    requires WorldInv(w) && bound <= w.lastDelivered + 1
    requires forall id <- w.pending :: id >= bound
    ensures WorldInv(Trim(w, bound)) && Grows(w, Trim(w, bound))
    ensures forall id <- w.entries :: id > w.lastDelivered || id in w.pending ==> id in Trim(w, bound).entries
  {
    var w' := Trim(w, bound);
    forall x | x in w'.admitted ensures Safe(w', x) { assert Safe(w, x); }
    QuietKeeps(w, w');
  }

  lemma SetWatermarkKeeps(w: World, mark: Watermark)
    requires WorldInv(w)
    requires Degraded(w) ==> !mark.healthy
    requires mark.healthy ==> Exact(w) && FrontierHolds(w, mark)
    ensures WorldInv(SetWatermark(w, mark)) && Grows(w, SetWatermark(w, mark))
  {
    var w' := SetWatermark(w, mark);
    assert Grows(w, w');
    forall x | x in w.admitted ensures Safe(w', x) { assert Safe(w, x); }
    if mark.healthy {
      forall id | id in w'.admitted && id <= mark.contiguous
        ensures id in w'.delivered && Gone(w', id) && Clean(w', id)
      {
      }
    }
  }

  /** Only the marker rows and the deduplication table change. */
  ghost predicate MarkersMove(w: World, w': World) {
    && w' == w.(markers := w'.markers, dedup := w'.dedup)
    && (forall t <- w.dedup :: t in w'.dedup && w'.dedup[t] == w.dedup[t])
    && (forall t <- w.markers :: t in w'.markers && RowStep(w.markers[t], w'.markers[t]))
  }

  lemma MarkersMoveGrows(w: World, w': World)
    requires MarkersMove(w, w')
    ensures Grows(w, w')
  {
  }

  lemma MarkersMoveLosesNothing(w: World, w': World)
    requires MarkersMove(w, w') && NothingLost(w)
    ensures NothingLost(w')
  {
    forall x | x in w.admitted ensures Safe(w', x) { assert Safe(w, x); }
  }

  lemma MarkersMoveKeeps(w: World, w': World)
    requires WorldInv(w) && MarkersMove(w, w') && MarkersOk(w')
    ensures WorldInv(w') && Grows(w, w')
  {
    MarkersMoveGrows(w, w');
    MarkersMoveLosesNothing(w, w');
    QuietKeeps(w, w');
  }

  lemma RequestMarkerKeeps(w: World, token: Token)
    requires WorldInv(w) && token !in w.markers
    ensures WorldInv(RequestMarker(w, token)) && Grows(w, RequestMarker(w, token))
  {
    MarkersMoveKeeps(w, RequestMarker(w, token));
  }

  lemma RecordDedupKeeps(w: World, token: Token, id: Id)
    requires WorldInv(w) && token !in w.dedup && id in w.admitted && w.admitted[id] == Marker(token)
    ensures var w' := w.(dedup := w.dedup[token := id]); WorldInv(w') && Grows(w, w')
  {
    MarkersMoveKeeps(w, w.(dedup := w.dedup[token := id]));
  }

  lemma GrowsTransitive(a: World, b: World, c: World)
    requires Grows(a, b) && Grows(b, c) && b.markers == c.markers
    ensures Grows(a, c)
  {
  }

  lemma AddMarkerKeeps(w: World, token: Token, id: Id)
    requires WorldInv(w) && CanAdd(w, id) && token !in w.dedup
    ensures WorldInv(AddMarker(w, token, id)) && Grows(w, AddMarker(w, token, id))
  {
    var w1 := Add(w, id, Marker(token));
    AddKeeps(w, id, Marker(token));
    RecordDedupKeeps(w1, token, id);
    GrowsTransitive(w, w1, AddMarker(w, token, id));
  }

  lemma SetMarkerKeeps(w: World, token: Token, row: Row)
    requires WorldInv(w) && token in w.markers && RowOk(row) && RowStep(w.markers[token], row)
    requires row.observed.Some? ==> token in w.dedup && w.dedup[token] == row.observed.value
    ensures WorldInv(SetMarker(w, token, row)) && Grows(w, SetMarker(w, token, row))
  {
    MarkersMoveKeeps(w, SetMarker(w, token, row));
  }
}
