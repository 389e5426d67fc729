/** The file loader as the object it is: a key directory, a store and the counters. */
module FileLoader {
  import opened Prelude
  import opened StoreState
  import opened StoreInvariant
  import opened StoreInner
  import opened StoreWorld
  import opened FileDirectory
  import opened ProducerPermit
  import opened ReadExact
  import opened FileKey
  import opened ProducerLife
  import opened FileProducer

  datatype FileRequest =
    | RequestReady(snapshot: Snapshot)
    | RequestProducer(producer: FileProducer)
    | RequestWaiting(waiter: AttemptRef)
    | RequestFailed(failure: Failure)

  /** The counters an acquisition moves. */
  function Counting(stats: Stats, acquired: Acquired): Stats {
    match acquired
    case AcquiredReady(_) => stats.(readyHits := Up(stats.readyHits))
    case AcquiredProducer(_) => Began(stats)
    case AcquiredWaiter(_) => stats.(joinedWaiters := Up(stats.joinedWaiters))
    case AcquiredFailed(_) => stats.(failedRequests := Up(stats.failedRequests))
  }

  /** Each answer is counted under its own name, and a producer is in flight as well. */
  lemma CountersOfAnAnswer(stats: Stats, acquired: Acquired)
    ensures var n := Counting(stats, acquired);
      && n.readyHits == (if acquired.AcquiredReady? then Up(stats.readyHits) else stats.readyHits)
      && n.producers == (if acquired.AcquiredProducer? then Up(stats.producers) else stats.producers)
      && n.inFlight == (if acquired.AcquiredProducer? then Up(stats.inFlight) else stats.inFlight)
      && n.joinedWaiters == (if acquired.AcquiredWaiter? then Up(stats.joinedWaiters) else stats.joinedWaiters)
      && n.failedRequests == (if acquired.AcquiredFailed? then Up(stats.failedRequests) else stats.failedRequests)
      && n == stats.(readyHits := n.readyHits, producers := n.producers, inFlight := n.inFlight,
                     joinedWaiters := n.joinedWaiters, failedRequests := n.failedRequests)
  {
  }

  class FileLoader {
    const store: StoreInner
    const metrics: Metrics
    const shared: Shared
    var directory: Directory

    constructor (storeId: nat, shared: Shared)
      ensures !store.locked && Valid(store.View()) && store.View() == Empty(storeId)
      ensures directory == map[] && metrics.stats == Zero && this.shared == shared && fresh(store) && fresh(metrics)
    {
      store := new StoreInner(storeId);
      metrics := new Metrics();
      this.shared := shared;
      directory := map[];
    }

    /** `upgradable`: whether some strong owner of the mapped token is left. */
    method HandleFor(key: Key, upgradable: bool) returns (r: Result<Token, AssetError>)
      requires !store.locked && Valid(store.View())
      modifies this`directory, store
      ensures !store.locked && Valid(store.View())
      ensures Routed(store.View(), directory, r)
           == FileDirectory.HandleFor(old(store.View()), old(directory), key, upgradable)
    {
      if key in directory {
        var upgraded := store.Upgrade(directory[key], upgradable);
        if upgraded.Err? { return Err(upgraded.error); }
        if upgraded.value.Some? { return Ok(upgraded.value.value); }
      }
      r := store.Create();
      if r.Ok? { directory := directory[key := r.value]; }
    }

    method Forget(key: Key, strongUsers: nat) returns (r: Result<(), AssetError>)
      requires !store.locked && Valid(store.View())
      modifies this`directory, store
      ensures !store.locked && Valid(store.View())
      ensures Routed(store.View(), directory, r)
           == FileDirectory.Forget(old(store.View()), old(directory), key, strongUsers)
    {
      if key !in directory { return Ok(()); }
      var removed := store.Remove(directory[key].id, strongUsers);
      if removed.Err? { return Err(removed.error); }
      directory := directory - {key};
      return Ok(());
    }

    /** Does `r` hand out what the store granted, a producer with the key requested? */
    ghost predicate Grants(key: Key, r: Result<FileRequest, LoadError>, reply: Result<Acquired, AssetError>)
      reads if r.Ok? && r.value.RequestProducer? then {r.value.producer} else {}
      reads if r.Ok? && r.value.RequestProducer? && r.value.producer.permit.Some?
            then {r.value.producer.permit.value} else {}
    {
      match reply
      case Err(error) => r == Err(Core(error))
      case Ok(AcquiredReady(snapshot)) => r == Ok(RequestReady(snapshot))
      case Ok(AcquiredWaiter(waiter)) => r == Ok(RequestWaiting(waiter))
      case Ok(AcquiredFailed(failure)) => r == Ok(RequestFailed(failure))
      case Ok(AcquiredProducer(permit)) =>
        && r.Ok? && r.value.RequestProducer?
        && var producer := r.value.producer;
           && producer.key == key && producer.Live() && producer.permit.value.permit == permit
           && producer.permit.value.store == store && producer.metrics == metrics && producer.shared == shared
    }

    method Acquire(key: Key, handle: Token, retry: bool) returns (r: Result<FileRequest, LoadError>)
      requires !store.locked && Valid(store.View())
      modifies store, metrics
      ensures !store.locked && Valid(store.View())
      ensures r.Ok? && r.value.RequestProducer? ==>
        fresh(r.value.producer) && r.value.producer.permit.Some? && fresh(r.value.producer.permit.value)
      ensures var out := HandleOut(if retry then OpRetry else OpAcquire, old(store.View()), handle);
        && store.View() == out.state && Grants(key, r, out.reply)
        && metrics.stats == if out.reply.Ok? then Counting(old(metrics.stats), out.reply.value) else old(metrics.stats)
    {
      var acquired;
      if retry { acquired := store.Retry(handle); } else { acquired := store.Acquire(handle); }
      if acquired.Err? { return Err(Core(acquired.error)); }
      match acquired.value
      case AcquiredReady(snapshot) =>
        metrics.stats := metrics.stats.(readyHits := Up(metrics.stats.readyHits));
        return Ok(RequestReady(snapshot));
      case AcquiredProducer(permit) =>
        metrics.stats := metrics.stats.(producers := Up(metrics.stats.producers));
        metrics.stats := metrics.stats.(inFlight := Up(metrics.stats.inFlight));
        var owned := new ProducerPermit(store, permit);
        var producer := new FileProducer(key, owned, metrics, shared);
        return Ok(RequestProducer(producer));
      case AcquiredWaiter(waiter) =>
        metrics.stats := metrics.stats.(joinedWaiters := Up(metrics.stats.joinedWaiters));
        return Ok(RequestWaiting(waiter));
      case AcquiredFailed(failure) =>
        metrics.stats := metrics.stats.(failedRequests := Up(metrics.stats.failedRequests));
        return Ok(RequestFailed(failure));
    }

    /** `request` and `retry`: the handle of the key, then its acquisition. */
    method Request(key: Key, retry: bool, upgradable: bool) returns (r: Result<FileRequest, LoadError>)
      requires !store.locked && Valid(store.View())
      modifies this`directory, store, metrics
      ensures !store.locked && Valid(store.View())
      ensures r.Ok? && r.value.RequestProducer? ==>
        fresh(r.value.producer) && r.value.producer.permit.Some? && fresh(r.value.producer.permit.value)
      ensures var routed := FileDirectory.HandleFor(old(store.View()), old(directory), key, upgradable);
        var counted := old(metrics.stats).(requests := Up(old(metrics.stats).requests));
        && directory == routed.directory
        && match routed.reply
           case Err(error) => store.View() == routed.state && r == Err(Core(error)) && metrics.stats == counted
           case Ok(handle) =>
             var out := HandleOut(if retry then OpRetry else OpAcquire, routed.state, handle);
             && store.View() == out.state && Grants(key, r, out.reply)
             && metrics.stats == if out.reply.Ok? then Counting(counted, out.reply.value) else counted
    {
      metrics.stats := metrics.stats.(requests := Up(metrics.stats.requests));
      var handle := HandleFor(key, upgradable);
      if handle.Err? { return Err(Core(handle.error)); }
      r := Acquire(key, handle.value, retry);
    }
  }
}
