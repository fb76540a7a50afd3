/** The healthy frontier is not an empty promise: from a fresh stream, any number of events and boundary
    markers can be read and stored or published, finalized in any number of batches while later ones are
    still pending, and covered by a healthy watermark at the last of them. */
module FrontierProgress {
  import opened Options
  import opened Markers
  import opened World
  import opened Delivery
  import opened DeliverySafety
  import Frontier

  function FreshWorld(): World {
    World(map[], {}, {}, 0, 0, 0, map[], None, map[], {}, {}, {}, {})
  }

  function OpenWorld(): World {
    FreshWorld().(watermark := Some(Watermark(0, 0, true)))
  }

  function Solo(w: World, wr: Writer): State {
    State(w, map[0 := wr])
  }

  /** A process between tasks: what it has to acknowledge, and what it finalized since the frontier. */
  function Idle(durable: seq<Id>, done: set<Id>): Writer {
    NewWriter(1).(durable := durable, finalizer := Finalizer(false, done, NotFinalizing),
                  history := History(done, false))
  }

  ghost predicate Leads(s: State, t: State) {
    exists steps :: Run(s, steps) && After(s, steps) == t
  }

  lemma LeadsByStep(s: State, step: Step, next: State, t: State)
    requires Enabled(s, step) && Apply(s, step) == next && Leads(next, t)
    ensures Leads(s, t)
  {
    var rest :| Run(next, rest) && After(next, rest) == t;
    assert ([step] + rest)[1..] == rest;
    assert Run(s, [step] + rest) && After(s, [step] + rest) == t;
  }

  lemma LeadsByTake(w: World, wr: Writer, a: IntakeAction, w': World, i: Intake, durable: seq<Id>, t: State)
    requires CanTake(w, wr.intake, a) && TakeWorld(w, wr.intake, a) == w' && TakeIntake(w, wr.intake, a) == i
    requires TakeQueue(wr.durable, a) == durable && Leads(Solo(w', wr.(intake := i, durable := durable)), t)
    ensures Leads(Solo(w, wr), t)
  {
    LeadsByStep(Solo(w, wr), Take(0, a), Solo(w', wr.(intake := i, durable := durable)), t);
  }

  lemma LeadsByFinalize(w: World, wr: Writer, a: FinalizeAction, w': World, wr': Writer, t: State)
    requires CanFinalize(w, wr.finalizer, wr.durable, a) && FinalizeWorld(w, wr.finalizer, wr.durable, a) == w'
    requires wr' == wr.(finalizer := FinalizeNext(w, wr.finalizer, wr.durable, a),
                        history := HistoryNext(w, wr.finalizer, wr.history, a),
                        durable := FinalizeQueue(wr.finalizer, wr.durable, a))
    requires Leads(Solo(w', wr'), t)
    ensures Leads(Solo(w, wr), t)
  {
    LeadsByStep(Solo(w, wr), Finalize(0, a), Solo(w', wr'), t);
  }

  lemma LeadsByPublish(w: World, wr: Writer, a: PublishAction, w': World, p: Publishing, t: State)
    requires CanPublish(w, wr.publishing, a) && PublishWorld(w, wr.publishing, a) == w'
    requires PublishNext(w, wr.publishing, a) == p && Leads(Solo(w', wr.(publishing := p)), t)
    ensures Leads(Solo(w, wr), t)
  {
    LeadsByStep(Solo(w, wr), Publish(0, a), Solo(w', wr.(publishing := p)), t);
  }

  lemma LeadsToItself(s: State)
    ensures Leads(s, s)
  {
    assert Run(s, []) && After(s, []) == s;
  }

  lemma Opening(t: State)
    requires Leads(Solo(OpenWorld(), Idle([], {})), t)
    ensures Leads(State(FreshWorld(), map[]), t)
  {
    var w, wr := FreshWorld(), Idle([], {});
    assert wr == NewWriter(1);
    var s1 := Solo(w, wr.(starting := SawHistory(0, 0, 0)));
    LeadsByStep(s1, Start(0, StartInsert), Solo(OpenWorld(), wr), t);
    var s2 := Solo(w, wr.(starting := SawGroup(0, 0)));
    LeadsByStep(s2, Start(0, StartHistory), s1, t);
    var s3 := Solo(w, wr);
    LeadsByStep(s3, Start(0, StartObserve), s2, t);
    LeadsByStep(State(w, map[]), Launch(0, 1), s3, t);
  }

  // ----- one more message, up to its place in the acknowledgement queue

  /** A message, and whether another consumer reads it first and leaves it to be claimed. */
  datatype Item = Item(id: Id, message: Message, claimed: bool)

  /** The stream once the message was added to it. */
  function Added(w: World, item: Item): World {
    var added := Add(w, item.id, item.message);
    if item.message.Marker? then
      added.(dedup := w.dedup[item.message.token := item.id],
             markers := w.markers[item.message.token := Row(Published, 0, Some(item.id), Some(item.id))])
    else added
  }

  /** The stores once it was also handed out and, if it is an event, stored. */
  function Load(w: World, item: Item): World {
    var read := Deliver(Added(w, item), item.id);
    if item.message.Event? then read.(rows := read.rows + {(item.id, item.message.payload)}) else read
  }

  /** The message can come next. */
  ghost predicate Fits(w: World, item: Item) {
    && CanAdd(w, item.id) && !item.message.Malformed?
    && (forall e <- w.entries :: e <= w.lastDelivered)
    && (forall t <- w.markers :: w.markers[t].observed.Some? ==> w.markers[t].observed.value in w.admitted)
    && (item.message.Marker? ==>
          && item.message.token !in w.markers && item.message.token !in w.dedup
          && ValidMarkerId(item.id) && |w.entries| < STREAM_MAX_ENTRIES)
  }

  lemma Requesting(w: World, wr: Writer, item: Item, t: State)
    requires Fits(w, item) && item.message.Marker? && wr.publishing.NotPublishing?
    requires Leads(Solo(Added(w, item), wr), t)
    ensures Leads(Solo(w, wr), t)
  {
    var token, id := item.message.token, item.id;
    var pending := Row(Pending, 0, None, None);
    var snap := Snapshot(0, None);
    var w1 := RequestMarker(w, token);
    var w2 := AddMarker(w1, token, id);
    var published := CommitRow(pending, snap, id, Committed);
    assert published == Row(Published, 0, Some(id), Some(id));
    assert w2.markers[token := published] == w.markers[token := published];
    assert SetMarker(w2, token, published) == Added(w, item);
    PublishingSteps(w1, w2, wr, token, id, t);
    LeadsByStep(Solo(w, wr), BoundaryRequested(token), Solo(w1, wr), t);
  }

  lemma PublishingSteps(w1: World, w2: World, wr: Writer, token: Token, id: Id, t: State)
    requires wr.publishing.NotPublishing? && CanAdd(w1, id) && ValidMarkerId(id)
    requires token in w1.markers && w1.markers[token] == Row(Pending, 0, None, None) && token !in w1.dedup
    requires |w1.entries| < STREAM_MAX_ENTRIES && w2 == AddMarker(w1, token, id)
    requires forall x <- w1.markers :: w1.markers[x].observed != Some(id)
    requires Leads(Solo(SetMarker(w2, token, Row(Published, 0, Some(id), Some(id))), wr), t)
    ensures Leads(Solo(w1, wr), t)
  {
    var snap := Snapshot(0, None);
    var replied := wr.(publishing := Publishing(token, Replied(snap, id)));
    var fetched := wr.(publishing := Publishing(token, Fetched(snap)));
    CommittingMarker(w2, wr, replied, token, id, t);
    Scripting(w1, w2, fetched, replied, token, id, t);
    LeadsByPublish(w1, wr, FetchMarker(token), w1, fetched.publishing, t);
  }

  lemma CommittingMarker(w: World, wr: Writer, replied: Writer, token: Token, id: Id, t: State)
    requires replied == wr.(publishing := Publishing(token, Replied(Snapshot(0, None), id)))
    requires wr.publishing.NotPublishing? && token in w.markers && w.markers[token] == Row(Pending, 0, None, None)
    requires forall x <- w.markers :: w.markers[x].observed != Some(id)
    requires Leads(Solo(SetMarker(w, token, Row(Published, 0, Some(id), Some(id))), wr), t)
    ensures Leads(Solo(w, replied), t)
  {
    var a := CommitMarker(Committed);
    assert !Collides(w, token, Some(id));
    assert PublishWorld(w, replied.publishing, a) == SetMarker(w, token, Row(Published, 0, Some(id), Some(id)));
    assert PublishNext(w, replied.publishing, a) == NotPublishing;
    assert replied.(publishing := NotPublishing) == wr;
    LeadsByPublish(w, replied, a, SetMarker(w, token, Row(Published, 0, Some(id), Some(id))), NotPublishing, t);
  }

  lemma Scripting(w1: World, w2: World, fetched: Writer, replied: Writer, token: Token, id: Id, t: State)
    requires fetched.publishing == Publishing(token, Fetched(Snapshot(0, None)))
    requires replied == fetched.(publishing := Publishing(token, Replied(Snapshot(0, None), id)))
    requires CanAdd(w1, id) && ValidMarkerId(id) && token !in w1.dedup && |w1.entries| < STREAM_MAX_ENTRIES
    requires w2 == AddMarker(w1, token, id) && Leads(Solo(w2, replied), t)
    ensures Leads(Solo(w1, fetched), t)
  {
    var a := PublishScript(id, Committed);
    assert PublishWorld(w1, fetched.publishing, a) == w2;
    assert PublishNext(w1, fetched.publishing, a) == replied.publishing;
    LeadsByPublish(w1, fetched, a, w2, replied.publishing, t);
  }

  /** From the stream to the process, read or claimed. */
  lemma Receiving(w: World, wr: Writer, id: Id, claimed: bool, t: State)
    requires wr.intake == NewWriter(1).intake && CanDeliver(w, id)
    requires Leads(Solo(Deliver(w, id), wr.(intake := wr.intake.(inbox := [id]))), t)
    ensures Leads(Solo(w, wr), t)
  {
    var w1, held := Deliver(w, id), wr.intake.(inbox := [id]);
    assert [] + [id] == [id];
    if claimed {
      LeadsByTake(w1, wr, Claim(id), w1, held, wr.durable, t);
      LeadsByStep(Solo(w, wr), OtherConsumerReads(id), Solo(w1, wr), t);
    } else {
      LeadsByTake(w, wr, Read(id), w1, held, wr.durable, t);
    }
  }

  /** From the stream to the buffer. */
  lemma Reading(w: World, wr: Writer, id: Id, claimed: bool, t: State)
    requires wr.intake == NewWriter(1).intake && CanDeliver(w, id) && id in w.admitted && !w.admitted[id].Malformed?
    requires Leads(Solo(Deliver(w, id), wr.(intake := wr.intake.(buffer := [id]))), t)
    ensures Leads(Solo(w, wr), t)
  {
    var w1, held, full := Deliver(w, id), wr.intake.(inbox := [id]), wr.intake.(buffer := [id]);
    assert [id][1..] == [] && [] + [id] == [id];
    assert TakeIntake(w1, held, Parse) == full;
    LeadsByTake(w1, wr.(intake := held), Parse, w1, full, wr.durable, t);
    Receiving(w, wr, id, claimed, t);
  }

  /** The row that reaches ClickHouse while the flush runs. */
  function WithRow(w: World, id: Id): World
    requires id in w.admitted
  {
    if w.admitted[id].Event? then Store(w, id) else w
  }

  /** From the buffer to the acknowledgement queue. */
  lemma Flushing(w: World, wr: Writer, id: Id, t: State)
    requires wr.intake == NewWriter(1).intake && id !in wr.durable
    requires id in w.delivered && id in w.admitted && !w.admitted[id].Malformed?
    requires Leads(Solo(WithRow(w, id), wr.(durable := wr.durable + [id])), t)
    ensures Leads(Solo(w, wr.(intake := wr.intake.(buffer := [id]))), t)
  {
    var w1, full := WithRow(w, id), wr.intake.(buffer := [id]);
    var busy := full.(batch := Some([id]));
    Settling(w1, wr, busy, id, t);
    if w.admitted[id].Event? {
      LeadsByStep(Solo(w, wr.(intake := busy)), RowCommits(id), Solo(w1, wr.(intake := busy)), t);
    }
    LeadsByTake(w, wr.(intake := full), BeginFlush, w, busy, wr.durable, t);
  }

  lemma Settling(w: World, wr: Writer, busy: Intake, id: Id, t: State)
    requires wr.intake == NewWriter(1).intake && id !in wr.durable
    requires busy == wr.intake.(buffer := [id], batch := Some([id]))
    requires id in w.admitted && (w.admitted[id].Marker? || Stored(w, id))
    requires Leads(Solo(w, wr.(durable := wr.durable + [id])), t)
    ensures Leads(Solo(w, wr.(intake := busy)), t)
  {
    var a := EndFlush([id], []);
    assert [] + [id][1..] == [];
    assert TakeIntake(w, busy, a) == wr.intake;
    assert Enqueue(wr.durable, id) == wr.durable + [id] && [id][1..] == [];
    assert EnqueueAll(wr.durable, [id]) == EnqueueAll(wr.durable + [id], []) == wr.durable + [id];
    assert TakeQueue(wr.durable, a) == wr.durable + [id];
    LeadsByTake(w, wr.(intake := busy), a, w, wr.intake, wr.durable + [id], t);
  }

  lemma Loading(w: World, durable: seq<Id>, item: Item, t: State)
    requires Fits(w, item) && item.id !in durable
    requires Leads(Solo(Load(w, item), Idle(durable + [item.id], {})), t)
    ensures Leads(Solo(w, Idle(durable, {})), t)
  {
    var added, wr := Added(w, item), Idle(durable, {});
    var read := Deliver(added, item.id);
    assert Idle(durable + [item.id], {}) == wr.(durable := durable + [item.id]);
    assert WithRow(read, item.id) == Load(w, item);
    Flushing(read, wr, item.id, t);
    Reading(added, wr, item.id, item.claimed, t);
    if item.message.Marker? {
      Requesting(w, wr, item, t);
    } else {
      LeadsByStep(Solo(w, wr), Produce(item.id, item.message), Solo(added, wr), t);
    }
  }

  // ----- all messages

  function IdsOf(items: seq<Item>): seq<Id> {
    if items == [] then [] else IdsOf(items[..|items| - 1]) + [items[|items| - 1].id]
  }

  function Loaded(items: seq<Item>): World {
    if items == [] then OpenWorld() else Load(Loaded(items[..|items| - 1]), items[|items| - 1])
  }

  /** Identifiers increase, tokens differ, and the stream is never full. */
  ghost predicate Feasible(items: seq<Item>) {
    && |items| <= STREAM_MAX_ENTRIES
    && (forall i :: 0 <= i < |items| ==> items[i].id > 0 && !items[i].message.Malformed?)
    && (forall i, j :: 0 <= i < j < |items| ==> items[i].id < items[j].id)
    && (forall i :: 0 <= i < |items| && items[i].message.Marker? ==> ValidMarkerId(items[i].id))
    && (forall i, j :: 0 <= i < j < |items| && items[i].message.Marker? ==> items[i].message != items[j].message)
  }

  function Tokens(items: seq<Item>): set<Token> {
    set i | 0 <= i < |items| && items[i].message.Marker? :: items[i].message.token
  }

  /** A stream that handed out exactly these identifiers, all of them pending. */
  ghost predicate StreamIs(w: World, ids: set<Id>, last: Id) {
    && w.admitted.Keys == ids && w.entries == ids && w.pending == ids && w.delivered == ids
    && w.entriesRead == |ids| && w.lastDelivered == last && w.watermark == Some(Watermark(0, 0, true))
  }

  ghost predicate StreamHolds(w: World, items: seq<Item>) {
    && StreamIs(w, Ids(IdsOf(items)), if items == [] then 0 else items[|items| - 1].id)
    && |Ids(IdsOf(items))| == |items|
  }

  ghost predicate MarkersHold(w: World, items: seq<Item>) {
    && w.markers.Keys == Tokens(items) && w.dedup.Keys == Tokens(items)
    && (forall t <- w.markers :: w.markers[t].state.Published? && w.markers[t].observed.Some?
                                 && w.markers[t].observed.value in w.admitted)
  }

  ghost predicate AllClean(w: World) {
    forall id <- w.admitted :: Clean(w, id)
  }

  lemma {:induction false} IdsOfMembers(items: seq<Item>)
    ensures |IdsOf(items)| == |items| && forall i :: 0 <= i < |items| ==> IdsOf(items)[i] == items[i].id
  {
    if items != [] { IdsOfMembers(items[..|items| - 1]); }
  }

  lemma IdsBelow(items: seq<Item>, item: Item)
    requires Feasible(items + [item])
    ensures forall id <- IdsOf(items) :: 0 < id < item.id
    ensures items != [] ==> items[|items| - 1].id < item.id
    ensures IdsOf(items + [item]) == IdsOf(items) + [item.id] && item.id > 0
  {
    var all := items + [item];
    assert all[|items|] == item && all[..|all| - 1] == items;
    assert forall i :: 0 <= i < |items| ==> all[i] == items[i];
    IdsOfMembers(items);
  }

  lemma TokenIsNew(items: seq<Item>, item: Item)
    requires Feasible(items + [item])
    ensures item.message.Marker? ==> item.message.token !in Tokens(items) && ValidMarkerId(item.id)
    ensures Tokens(items + [item]) == Tokens(items) + if item.message.Marker? then {item.message.token} else {}
    ensures !item.message.Malformed?
  {
    var all := items + [item];
    assert all[|items|] == item;
    assert forall i :: 0 <= i < |items| ==> all[i] == items[i];
  }

  lemma IdsUpToLast(items: seq<Item>)
    requires Feasible(items) && items != []
    ensures forall id <- IdsOf(items) :: 0 < id <= items[|items| - 1].id
  {
    IdsOfMembers(items);
  }

  lemma LoadFits(w: World, items: seq<Item>, item: Item)
    requires Feasible(items) && Feasible(items + [item]) && StreamHolds(w, items) && MarkersHold(w, items)
    ensures Fits(w, item) && item.id !in IdsOf(items)
  {
    IdsBelow(items, item);
    TokenIsNew(items, item);
    if items != [] { IdsUpToLast(items); }
    assert CanAdd(w, item.id);
    assert forall e <- w.entries :: e <= w.lastDelivered;
  }

  /** What loading changes in the stream. */
  lemma LoadFields(w: World, item: Item)
    ensures var w' := Load(w, item);
            && w'.admitted == w.admitted[item.id := item.message]
            && w'.entries == w.entries + {item.id} && w'.pending == w.pending + {item.id}
            && w'.delivered == w.delivered + {item.id} && w'.lastDelivered == item.id
            && w'.entriesRead == w.entriesRead + 1 && w'.watermark == w.watermark
            && w'.rows == (if item.message.Event? then w.rows + {(item.id, item.message.payload)} else w.rows)
            && (item.message.Event? ==> w'.markers == w.markers && w'.dedup == w.dedup)
  {
  }

  lemma LoadGrowsStream(w: World, ids: set<Id>, last: Id, item: Item)
    requires StreamIs(w, ids, last) && item.id !in ids
    ensures StreamIs(Load(w, item), ids + {item.id}, item.id)
  {
    LoadFields(w, item);
  }

  lemma LoadStream(w: World, items: seq<Item>, item: Item)
    requires Feasible(items + [item]) && StreamHolds(w, items)
    ensures StreamHolds(Load(w, item), items + [item])
  {
    var ids, all := Ids(IdsOf(items)), items + [item];
    IdsBelow(items, item);
    IdsGrow(IdsOf(items), item.id);
    assert Ids(IdsOf(all)) == ids + {item.id} && item.id !in ids && all[|all| - 1] == item;
    LoadGrowsStream(w, ids, if items == [] then 0 else items[|items| - 1].id, item);
  }

  lemma IdsGrow(ids: seq<Id>, id: Id)
    ensures Ids(ids + [id]) == Ids(ids) + {id}
  {
  }

  lemma LoadMarkers(w: World, items: seq<Item>, item: Item)
    requires Feasible(items + [item]) && MarkersHold(w, items)
    ensures MarkersHold(Load(w, item), items + [item])
  {
    TokenIsNew(items, item);
  }

  lemma LoadKeepsClean(w: World, item: Item, id: Id)
    requires id in w.admitted && id != item.id && Clean(w, id)
    requires item.message.Marker? ==> item.message.token !in w.markers
    ensures Clean(Load(w, item), id)
  {
    LoadFields(w, item);
  }

  lemma LoadIsClean(w: World, item: Item)
    requires !item.message.Malformed?
    ensures Clean(Load(w, item), item.id)
  {
    LoadFields(w, item);
  }

  lemma LoadClean(w: World, items: seq<Item>, item: Item)
    requires Feasible(items + [item]) && StreamHolds(w, items) && MarkersHold(w, items) && AllClean(w)
    ensures AllClean(Load(w, item))
  {
    TokenIsNew(items, item);
    LoadFields(w, item);
    var w' := Load(w, item);
    forall id | id in w'.admitted ensures Clean(w', id) {
      if id != item.id { LoadKeepsClean(w, item, id); } else { LoadIsClean(w, item); }
    }
  }

  lemma {:induction false} LoadedHolds(items: seq<Item>)
    requires Feasible(items)
    ensures StreamHolds(Loaded(items), items) && MarkersHold(Loaded(items), items) && AllClean(Loaded(items))
  {
    if items != [] {
      var before, item := items[..|items| - 1], items[|items| - 1];
      assert before + [item] == items;
      FeasiblePrefix(before, item);
      LoadedHolds(before);
      LoadStream(Loaded(before), before, item);
      LoadMarkers(Loaded(before), before, item);
      LoadClean(Loaded(before), before, item);
    }
  }

  lemma {:induction false} LoadingAll(items: seq<Item>, t: State)
    requires Feasible(items) && Leads(Solo(Loaded(items), Idle(IdsOf(items), {})), t)
    ensures Leads(Solo(OpenWorld(), Idle([], {})), t)
  {
    if items != [] {
      var before, item := items[..|items| - 1], items[|items| - 1];
      assert before + [item] == items;
      FeasiblePrefix(before, item);
      LoadingLast(before, item, t);
      LoadingAll(before, t);
    }
  }

  lemma FeasiblePrefix(before: seq<Item>, item: Item)
    requires Feasible(before + [item])
    ensures Feasible(before)
  {
    assert forall i :: 0 <= i < |before| ==> (before + [item])[i] == before[i];
  }

  lemma LoadingLast(before: seq<Item>, item: Item, t: State)
    requires Feasible(before + [item])
    requires Leads(Solo(Load(Loaded(before), item), Idle(IdsOf(before) + [item.id], {})), t)
    ensures Leads(Solo(Loaded(before), Idle(IdsOf(before), {})), t)
  {
    FeasiblePrefix(before, item);
    LoadedHolds(before);
    LoadFits(Loaded(before), before, item);
    Loading(Loaded(before), IdsOf(before), item, t);
  }

  // ----- finalization, batch after batch

  function Flatten(batches: seq<seq<Id>>): seq<Id> {
    if batches == [] then [] else batches[0] + Flatten(batches[1..])
  }

  predicate NonEmpty(batches: seq<seq<Id>>) {
    forall i :: 0 <= i < |batches| ==> batches[i] != []
  }

  /** Everything still pending is in the queue, with the authority to acknowledge it. */
  ghost predicate Finalizable(w: World, durable: seq<Id>) {
    && Frontier.Distinct(durable) && w.pending == w.entries == Ids(durable)
    && (forall id <- durable :: Authorized(w, id))
    && (forall t <- w.markers :: w.markers[t].state.Published?)
  }

  /** Verification, XACK + XDEL and the look at the group, for the batch at the front of the queue. */
  lemma Acknowledging(w: World, durable: seq<Id>, done: set<Id>, batch: seq<Id>, t: State)
    requires Finalizable(w, durable) && batch != [] && batch <= durable
    requires var w' := AckDelete(w, batch);
             Leads(Solo(w', Idle(durable, done).(
                          finalizer := Finalizer(true, done + Ids(batch),
                                                 Observed(batch, w'.pending == {}, w'.lastDelivered, w'.entriesRead)),
                          history := History(done + Ids(batch), true))), t)
    ensures Leads(Solo(w, Idle(durable, done)), t)
  {
    var w', wr, all := AckDelete(w, batch), Idle(durable, done), done + Ids(batch);
    var executed := wr.(finalizer := Finalizer(true, all, Executed(batch)), history := History(all, true));
    var observed := executed.(finalizer := Finalizer(true, all,
                                                     Observed(batch, w'.pending == {}, w'.lastDelivered,
                                                              w'.entriesRead)));
    LeadsByFinalize(w', executed, ObserveGroup, w', observed, t);
    Executing(w, wr, executed, durable, done, batch, t);
  }

  lemma Executing(w: World, wr: Writer, executed: Writer, durable: seq<Id>, done: set<Id>, batch: seq<Id>, t: State)
    requires Finalizable(w, durable) && batch != [] && batch <= durable && wr == Idle(durable, done)
    requires executed == wr.(finalizer := Finalizer(true, done + Ids(batch), Executed(batch)),
                             history := History(done + Ids(batch), true))
    requires Leads(Solo(AckDelete(w, batch), executed), t)
    ensures Leads(Solo(w, wr), t)
  {
    var verified := wr.(finalizer := Finalizer(false, done, Verified(batch)));
    assert forall id <- batch :: id in durable;
    ExecutingStep(w, verified, executed, done, batch, t);
    Verifying(w, wr, verified, durable, done, batch, t);
  }

  lemma ExecutingStep(w: World, verified: Writer, executed: Writer, done: set<Id>, batch: seq<Id>, t: State)
    requires Frontier.Distinct(batch) && forall id <- batch :: id in w.pending && id in w.entries
    requires verified.finalizer == Finalizer(false, done, Verified(batch)) && verified.history == History(done, false)
    requires executed == verified.(finalizer := Finalizer(true, done + Ids(batch), Executed(batch)),
                                   history := History(done + Ids(batch), true))
    requires Leads(Solo(AckDelete(w, batch), executed), t)
    ensures Leads(Solo(w, verified), t)
  {
    var a := Execute(Committed);
    Frontier.ExecuteAcceptsExactBatch(w, verified.finalizer, batch, Committed);
    assert FinalizeNext(w, verified.finalizer, verified.durable, a) == executed.finalizer;
    assert HistoryNext(w, verified.finalizer, verified.history, a) == executed.history;
    LeadsByFinalize(w, verified, a, AckDelete(w, batch), executed, t);
  }

  lemma Verifying(w: World, wr: Writer, verified: Writer, durable: seq<Id>, done: set<Id>, batch: seq<Id>, t: State)
    requires Finalizable(w, durable) && batch != [] && batch <= durable && wr == Idle(durable, done)
    requires verified == wr.(finalizer := Finalizer(false, done, Verified(batch))) && Leads(Solo(w, verified), t)
    ensures Leads(Solo(w, wr), t)
  {
    assert forall id <- batch :: id in durable;
    assert !NeedsDegrade(w, batch);
    LeadsByFinalize(w, wr, ReadAuthority(batch), w, verified, t);
  }

  lemma {:induction false} WithoutAll(queue: seq<Id>, ids: set<Id>)
    requires forall id <- queue :: id !in ids
    ensures Without(queue, ids) == queue
  {
    if queue != [] { WithoutAll(queue[1..], ids); }
  }

  lemma {:induction false} WithoutPrefix(batch: seq<Id>, rest: seq<Id>, ids: set<Id>)
    requires forall id <- batch :: id in ids
    requires forall id <- rest :: id !in ids
    ensures Without(batch + rest, ids) == rest
  {
    if batch == [] {
      assert batch + rest == rest;
      WithoutAll(rest, ids);
    } else {
      assert (batch + rest)[1..] == batch[1..] + rest;
      WithoutPrefix(batch[1..], rest, ids);
    }
  }

  lemma FrontOfQueue(durable: seq<Id>, batch: seq<Id>)
    requires Frontier.Distinct(durable) && batch <= durable
    ensures var rest := durable[|batch|..];
            && durable == batch + rest && Frontier.Distinct(rest) && Ids(rest) == Ids(durable) - Ids(batch)
            && Without(durable, Ids(batch)) == rest
  {
    var rest := durable[|batch|..];
    assert durable == batch + rest;
    forall id | id in rest ensures id !in batch {
      var j :| 0 <= j < |rest| && rest[j] == id;
      assert durable[|batch| + j] == id;
    }
    WithoutPrefix(batch, rest, Ids(batch));
  }

  /** A batch that is not the last. */
  lemma Skipping(w: World, durable: seq<Id>, done: set<Id>, batch: seq<Id>, t: State)
    requires Finalizable(w, durable) && batch != [] && batch < durable
    requires Leads(Solo(AckDelete(w, batch), Idle(durable[|batch|..], done + Ids(batch))), t)
    ensures Leads(Solo(w, Idle(durable, done)), t)
  {
    var w', all := AckDelete(w, batch), done + Ids(batch);
    FrontOfQueue(durable, batch);
    assert durable[|batch|] in w'.pending;
    var observed := Idle(durable, done).(
                    finalizer := Finalizer(true, all, Observed(batch, false, w'.lastDelivered, w'.entriesRead)),
                    history := History(all, true));
    LeadsByFinalize(w', observed, SkipFrontier, w', Idle(durable[|batch|..], all), t);
    Acknowledging(w, durable, done, batch, t);
  }

  /** Everything that was ever handed out is accounted for by what is done and what is queued. */
  ghost predicate Counted(w: World, durable: seq<Id>, done: set<Id>) {
    && w.watermark == Some(Watermark(0, 0, true))
    && done + Ids(durable) == w.delivered && |w.delivered| == w.entriesRead
    && w.lastDelivered in w.delivered && forall id <- w.delivered :: 0 < id <= w.lastDelivered
  }

  lemma FrontierAdvances(w: World, durable: seq<Id>, done: set<Id>)
    requires Counted(w, durable, done)
    ensures FrontierUpdate(Watermark(0, 0, true), done + Ids(durable), w.lastDelivered, w.entriesRead)
         == Watermark(w.lastDelivered, w.entriesRead, true)
  {
    assert NewlyFinalized(w.delivered, 0) == w.delivered;
  }

  function Advanced(w: World, durable: seq<Id>): World {
    AckDelete(w, durable).(watermark := Some(Watermark(w.lastDelivered, w.entriesRead, true)))
  }

  /** The last batch: the frontier moves to the head. */
  lemma Committing(w: World, durable: seq<Id>, done: set<Id>, t: State)
    requires Finalizable(w, durable) && durable != [] && Counted(w, durable, done)
    requires Leads(Solo(Advanced(w, durable), Idle([], {})), t)
    ensures Leads(Solo(w, Idle(durable, done)), t)
  {
    var w', all := AckDelete(w, durable), done + Ids(durable);
    assert w'.pending == {};
    var observed := Idle(durable, done).(
                    finalizer := Finalizer(true, all, Observed(durable, true, w'.lastDelivered, w'.entriesRead)),
                    history := History(all, true));
    CommittingStep(w, w', observed, durable, done, t);
    Acknowledging(w, durable, done, durable, t);
  }

  lemma CommittingStep(w: World, w': World, observed: Writer, durable: seq<Id>, done: set<Id>, t: State)
    requires Frontier.Distinct(durable) && Counted(w, durable, done) && w' == AckDelete(w, durable)
    requires observed == Idle(durable, done).(
                         finalizer := Finalizer(true, done + Ids(durable),
                                                Observed(durable, true, w'.lastDelivered, w'.entriesRead)),
                         history := History(done + Ids(durable), true))
    requires Leads(Solo(Advanced(w, durable), Idle([], {})), t)
    ensures Leads(Solo(w', observed), t)
  {
    var a := CommitFrontier(Committed);
    FrontOfQueue(durable, durable);
    assert durable[|durable|..] == [];
    FrontierAdvances(w, durable, done);
    assert FinalizeWorld(w', observed.finalizer, durable, a) == Advanced(w, durable);
    LeadsByFinalize(w', observed, a, Advanced(w, durable), Idle([], {}), t);
  }

  /** What is left to finalize after one batch. */
  lemma OneBatchLess(w: World, durable: seq<Id>, done: set<Id>, batch: seq<Id>)
    requires Finalizable(w, durable) && Counted(w, durable, done) && batch <= durable
    ensures var w', rest := AckDelete(w, batch), durable[|batch|..];
            Finalizable(w', rest) && Counted(w', rest, done + Ids(batch))
  {
    FrontOfQueue(durable, batch);
    var w', rest := AckDelete(w, batch), durable[|batch|..];
    forall id | id in rest ensures Authorized(w', id) {
      assert id in durable && Authorized(w, id);
    }
  }

  lemma {:induction false} FinalizingAll(w: World, batches: seq<seq<Id>>, done: set<Id>) returns (final: World)
    requires batches != [] && NonEmpty(batches)
    requires Finalizable(w, Flatten(batches)) && Counted(w, Flatten(batches), done)
    ensures final.watermark == Some(Watermark(w.lastDelivered, w.entriesRead, true))
    ensures final.admitted == w.admitted && final.rows == w.rows && final.markers == w.markers
    ensures final.entries == {} && final.pending == {}
    ensures Leads(Solo(w, Idle(Flatten(batches), done)), Solo(final, Idle([], {})))
    decreases |batches|
  {
    var durable, batch := Flatten(batches), batches[0];
    if |batches| == 1 {
      assert durable == batch + Flatten(batches[1..]) == batch;
      final := Advanced(w, durable);
      LeadsToItself(Solo(final, Idle([], {})));
      Committing(w, durable, done, Solo(final, Idle([], {})));
    } else {
      CutBatch(batches);
      OneBatchLess(w, durable, done, batch);
      final := FinalizingAll(AckDelete(w, batch), batches[1..], done + Ids(batch));
      Skipping(w, durable, done, batch, Solo(final, Idle([], {})));
    }
  }

  lemma CutBatch(batches: seq<seq<Id>>)
    requires |batches| > 1 && NonEmpty(batches)
    ensures NonEmpty(batches[1..]) && batches[0] < Flatten(batches)
    ensures Flatten(batches)[|batches[0]|..] == Flatten(batches[1..])
  {
    assert Flatten(batches[1..]) == batches[1] + Flatten(batches[1..][1..]);
  }

  /** For every feasible list of events and markers, and every way to cut it into batches, some run from a
      fresh stream stores or publishes all of them, finalizes batch after batch while the later ones are
      pending, and ends with an empty stream and a healthy watermark at the last identifier. */
  lemma FrontierCanAdvance(items: seq<Item>, batches: seq<seq<Id>>) returns (steps: seq<Step>)
    requires items != [] && Feasible(items)
    requires NonEmpty(batches) && Flatten(batches) == IdsOf(items)
    ensures Init(State(FreshWorld(), map[])) && Run(State(FreshWorld(), map[]), steps)
    ensures var w := After(State(FreshWorld(), map[]), steps).world;
            && w.admitted.Keys == Ids(IdsOf(items)) && w.entries == {} && w.pending == {}
            && w.watermark == Some(Watermark(items[|items| - 1].id, |items|, true))
            && (forall id <- w.admitted :: Stored(w, id) || PublishedMarker(w, id))
  {
    var w := Loaded(items);
    LoadedHolds(items);
    LoadedIsFinalizable(items);
    assert batches != [] by { IdsOfMembers(items); }
    var final := FinalizingAll(w, batches, {});
    StaysClean(w, final);
    var t := Solo(final, Idle([], {}));
    LoadingAll(items, t);
    Opening(t);
    steps :| Run(State(FreshWorld(), map[]), steps) && After(State(FreshWorld(), map[]), steps) == t;
  }

  lemma StaysClean(w: World, final: World)
    requires AllClean(w) && final.admitted == w.admitted && final.rows == w.rows && final.markers == w.markers
    ensures forall id <- final.admitted :: Stored(final, id) || PublishedMarker(final, id)
  {
    forall id | id in final.admitted ensures Stored(final, id) || PublishedMarker(final, id) {
      assert Clean(w, id);
    }
  }

  lemma LoadedIsFinalizable(items: seq<Item>)
    requires Feasible(items) && items != []
    requires StreamHolds(Loaded(items), items) && MarkersHold(Loaded(items), items) && AllClean(Loaded(items))
    ensures Finalizable(Loaded(items), IdsOf(items)) && Counted(Loaded(items), IdsOf(items), {})
  {
    var w, ids, n := Loaded(items), IdsOf(items), |items|;
    IdsOfMembers(items);
    assert ids[n - 1] == items[n - 1].id && ids[n - 1] in ids;
    assert {} + Ids(ids) == Ids(ids);
    forall id | id in ids ensures Authorized(w, id) {
      assert Clean(w, id);
    }
  }

  // ----- an ill-formed entry

  function MalformedWorld(id: Id): World {
    OpenWorld().(admitted := map[id := Malformed], entries := {id}, pending := {id}, delivered := {id},
    lastDelivered := id, entriesRead := 1, deadLettered := {id}, watermark := Some(Watermark(0, 0, false)))
  }

  lemma Rejecting(id: Id, t: State)
    requires id > 0 && Leads(Solo(MalformedWorld(id), Idle([id], {})), t)
    ensures Leads(Solo(OpenWorld(), Idle([], {})), t)
  {
    var wr, w := Idle([], {}), Add(OpenWorld(), id, Malformed);
    var read := Deliver(w, id);
    var dead := DeadLetter(read, id);
    var held, rejecting := wr.intake.(inbox := [id]), wr.intake.(rejecting := {id});
    assert Degrade(dead) == MalformedWorld(id) && Enqueue([], id) == [id];
    assert TakeIntake(dead, rejecting, RejectCommitted(id)) == wr.intake;
    LeadsByTake(dead, wr.(intake := rejecting), RejectCommitted(id), MalformedWorld(id), wr.intake, [id], t);
    assert [id][1..] == [] && TakeIntake(read, held, RejectMalformed) == rejecting;
    LeadsByTake(read, wr.(intake := held), RejectMalformed, dead, rejecting, [], t);
    Receiving(w, wr, id, false, t);
    LeadsByStep(Solo(OpenWorld(), wr), Produce(id, Malformed), Solo(w, wr), t);
  }

  /** An ill-formed entry of any identifier can be dead-lettered and removed; the watermark is then degraded
      where it stood. */
  lemma IllFormedCanBeRemoved(id: Id) returns (steps: seq<Step>)
    requires id > 0
    ensures Run(State(FreshWorld(), map[]), steps)
    ensures var w := After(State(FreshWorld(), map[]), steps).world;
            && w.admitted == map[id := Malformed] && w.deadLettered == {id} && w.entries == {} && w.pending == {}
            && w.watermark == Some(Watermark(0, 0, false))
  {
    var w := MalformedWorld(id);
    var w' := AckDelete(w, [id]);
    var t := Solo(w', Idle([], {}));
    LeadsToItself(t);
    assert Ids([id]) == {id} && w'.pending == {} && {} + {id} == {id};
    RemovingStep(w', Idle([id], {}).(
                       finalizer := Finalizer(true, {id}, Observed([id], true, w'.lastDelivered, w'.entriesRead)),
                       history := History({id}, true)), id, t);
    Acknowledging(w, [id], {}, [id], t);
    Rejecting(id, t);
    Opening(t);
    steps :| Run(State(FreshWorld(), map[]), steps) && After(State(FreshWorld(), map[]), steps) == t;
  }

  // ----- a quarantined marker

  lemma DegradingFirst(w: World, id: Id, t: State)
    requires QuarantineOwns(w, id) && id in w.admitted && w.admitted[id].Marker?
    requires Leads(Solo(Degrade(w), Idle([id], {}).(finalizer := Finalizer(false, {}, Verified([id])))), t)
    ensures Leads(Solo(w, Idle([id], {})), t)
  {
    var wr := Idle([id], {});
    var waiting := wr.(finalizer := Finalizer(false, {}, AwaitingDegrade([id])));
    var verified := wr.(finalizer := Finalizer(false, {}, Verified([id])));
    LeadsByFinalize(w, waiting, DegradeForQuarantine, Degrade(w), verified, t);
    assert id in [id] && NeedsDegrade(w, [id]);
    LeadsByFinalize(w, wr, ReadAuthority([id]), w, waiting, t);
  }

  /** A delivery of a quarantined marker can be removed from the stream, after the watermark is degraded where it
      stands. */
  lemma QuarantinedCanBeRemoved(w: World, id: Id, t: State)
    requires QuarantineOwns(w, id) && id in w.admitted && w.admitted[id].Marker? && w.watermark.Some?
    requires w.pending == {id} && w.entries == {id}
    requires t == Solo(AckDelete(Degrade(w), [id]), Idle([], {}))
    ensures Leads(Solo(w, Idle([id], {})), t)
  {
    var degraded, wr := Degrade(w), Idle([id], {});
    var w' := AckDelete(degraded, [id]);
    var executed := wr.(finalizer := Finalizer(true, {id}, Executed([id])), history := History({id}, true));
    var observed := executed.(finalizer := Finalizer(true, {id},
                                                     Observed([id], true, w'.lastDelivered, w'.entriesRead)));
    LeadsToItself(t);
    assert Ids([id]) == {id} && w'.pending == {} && {} + {id} == {id};
    RemovingStep(w', observed, id, t);
    LeadsByFinalize(w', executed, ObserveGroup, w', observed, t);
    ExecutingStep(degraded, wr.(finalizer := Finalizer(false, {}, Verified([id]))), executed, {}, [id], t);
    DegradingFirst(w, id, t);
  }

  lemma RemovingStep(w': World, observed: Writer, id: Id, t: State)
    requires w'.watermark.Some? && !w'.watermark.value.healthy && Leads(Solo(w', Idle([], {})), t)
    requires observed == Idle([id], {}).(
                         finalizer := Finalizer(true, {id}, Observed([id], true, w'.lastDelivered, w'.entriesRead)),
                         history := History({id}, true))
    ensures Leads(Solo(w', observed), t)
  {
    FrontOfQueue([id], [id]);
    assert [id][1..] == [] && SetWatermark(w', w'.watermark.value) == w';
    LeadsByFinalize(w', observed, CommitFrontier(Committed), w', Idle([], {}), t);
  }
}
