/** A caller of the file loader: it requests a key and produces the content when it is nominated. */
module FileConsumer {
  import opened Prelude
  import opened StoreState
  import opened StoreInvariant
  import opened StoreInner
  import opened ProducerPermit
  import opened InFlightBudget
  import opened ReadExact
  import opened FileKey
  import opened FileDirectory
  import opened ProducerLife
  import opened FileProducer
  import opened FileLoader

  /** A store with one missing identity hands its handle the first attempt. */
  lemma FirstAcquire(storeId: nat)
    ensures var created := Create(Empty(storeId));
      && created.reply.Ok?
      && var out := StoreState.Acquire(created.state, created.reply.value);
         && out.reply.Ok? && out.reply.value.AcquiredProducer?
         && Valid(out.state) && Guards(out.state, out.reply.value.permit)
         && out.state.readyBytes == 0 && out.state.touch == 2
         && Retained(EntryAt(out.state, out.reply.value.permit.id.slot).phase).None?
  {
    EmptyIsValid(storeId);
    CreateKeepsValid(Empty(storeId));
    var created := Create(Empty(storeId));
    AcquireKeepsValid(created.state, created.reply.value);
  }

  /**
   A request followed by the production it may nominate: a snapshot that comes out of it
   holds what the variant of the key makes of the source, whatever the loader did before.
   */
  method RequestAndProduce(
    loader: FileLoader, key: Key, retry: bool, upgradable: bool,
    budget: Option<InFlightBudget>, file: Result<Source, IoError>, length: Result<U64, IoError>, usizeMax: nat)
    returns (request: Result<FileRequest, LoadError>, made: Option<Result<Snapshot, LoadError>>,
             ghost attempt: Result<Content, LoadError>)
    requires !loader.store.locked && Valid(loader.store.View())
    requires budget.Some? ==> budget.value.Valid()
    modifies loader`directory, loader.store, loader.metrics
    modifies if budget.Some? then {budget.value} else {}
    modifies if file.Ok? then {file.value} else {}
    ensures !loader.store.locked && Valid(loader.store.View())
    ensures made.Some? <==> request.Ok? && request.value.RequestProducer?
    ensures made.Some? ==>
      (attempt.Ok? <==> Loadable(old(RoomBefore(budget)), file, length, usizeMax, old(ContentOf(file))))
    ensures made.Some? && made.value.Ok? ==>
      && attempt.Ok? && Renders(key, old(ContentOf(file)).0, attempt.value)
      && made.value.value.value == loader.shared.value(attempt.value)
      && made.value.value.bytes == |old(ContentOf(file)).0|
    ensures budget.Some? ==> budget.value.Valid() && budget.value.ledger == old(budget.value.ledger)
  {
    made, attempt := None, Ok([]);
    request := loader.Request(key, retry, upgradable);
    if request.Ok? && request.value.RequestProducer? {
      var r, _, tried := request.value.producer.ProduceWith(budget, file, length, usizeMax, true);
      made, attempt := Some(r), tried;
    }
  }

  /** What `FirstAcquire` says of the attempt the loader hands out. */
  ghost predicate Fresh(producer: FileProducer, shared: Shared, key: Key)
    reads producer, if producer.permit.Some? then {producer.permit.value, producer.permit.value.store} else {}
  {
    && producer.Live() && producer.key == key && producer.shared == shared && Usable(producer.permit.value.store)
    && var s, permit := producer.permit.value.store.View(), producer.permit.value.permit;
       Guards(s, permit) && s.touch == 2 && BytesAfter(s, permit, U64_MAX) <= U64_MAX
  }

  /** A fresh loader nominates the first one who asks for a key. */
  method FirstRequest(storeId: nat, shared: Shared, key: Key) returns (producer: FileProducer)
    ensures Fresh(producer, shared, key)
    ensures fresh(producer) && fresh(producer.permit.value) && fresh(producer.permit.value.store)
    ensures fresh(producer.metrics)
  {
    FirstAcquire(storeId);
    var loader := new FileLoader(storeId, shared);
    var request := loader.Request(key, false, false);
    if request.Err? || !request.value.RequestProducer? { assert false; }
    producer := request.value.producer;
  }

  /**
   A whole load with a loader of its own: the first request is nominated to produce, and it
   succeeds exactly when the source could be opened and sized, was admitted by the budget and
   was read without error in the length announced; otherwise it says why not.
   */
  method LoadOnce(
    storeId: nat, shared: Shared, key: Key,
    budget: Option<InFlightBudget>, file: Result<Source, IoError>, length: Result<U64, IoError>, usizeMax: nat)
    returns (r: Result<Snapshot, LoadError>, ghost attempt: Result<Content, LoadError>)
    requires budget.Some? ==> budget.value.Valid()
    modifies if budget.Some? then {budget.value} else {}
    modifies if file.Ok? then {file.value} else {}
    ensures r.Ok? <==> Loadable(old(RoomBefore(budget)), file, length, usizeMax, old(ContentOf(file)))
    ensures r.Ok? ==>
      && attempt.Ok? && Renders(key, old(ContentOf(file)).0, attempt.value)
      && r.value.value == shared.value(attempt.value) && r.value.bytes == |old(ContentOf(file)).0|
    ensures r.Err? ==> attempt == Err(r.error)
    ensures budget.Some? ==> budget.value.Valid() && budget.value.ledger == old(budget.value.ledger)
  {
    var producer := FirstRequest(storeId, shared, key);
    ghost var s, permit := producer.permit.value.store.View(), producer.permit.value.permit;
    var made, _, tried := producer.ProduceWith(budget, file, length, usizeMax, true);
    r, attempt := made, tried;
    EndingIsTheOutcome(s, permit, attempt, shared);
  }
}
