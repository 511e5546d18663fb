/** The cache-aside product service: an imperative service that is exact when operations do not overlap, and a step
    machine, one product at a time, that bounds staleness when they do. Times are in milliseconds. */
module ProductCache {
  import opened Events

  const TTL_BASE := 300_000
  const TTL_JITTER := 60  // seconds, exclusive
  const NULL_TTL := 60_000
  const MAX_TTL := 359_000

  datatype Product = Product(name: string, description: string, price: Money, category: string, imageUrl: string,
                             status: int)

  datatype Patch = Patch(name: string, description: string, price: Money, category: string, imageUrl: string,
                         status: Option<int>)

  datatype Result<T> = Ok(value: T) | NotFound | Failed

  /** What Redis holds under a key: the empty marker, a product, or something that does not parse. */
  datatype Cached = NullMarker | Json(product: Product) | Garbage

  datatype Entry = Entry(cached: Cached, expires: nat)

  /** Empty strings, a zero price and a missing status leave the field alone. */
  function Patched(p: Product, patch: Patch): Product {
    Product(if patch.name != "" then patch.name else p.name,
            if patch.description != "" then patch.description else p.description,
            if patch.price > 0.0 then patch.price else p.price,
            if patch.category != "" then patch.category else p.category,
            if patch.imageUrl != "" then patch.imageUrl else p.imageUrl,
            if patch.status.Some? then patch.status.value else p.status)
  }

  /** Each field that the patch gives has its new value, and every other field the one it had. */
  predicate Applied(p: Product, patch: Patch, p': Product) {
    && (if patch.name == "" then p'.name == p.name else p'.name == patch.name)
    && (if patch.description == "" then p'.description == p.description else p'.description == patch.description)
    && (if patch.price <= 0.0 then p'.price == p.price else p'.price == patch.price)
    && (if patch.category == "" then p'.category == p.category else p'.category == patch.category)
    && (if patch.imageUrl == "" then p'.imageUrl == p.imageUrl else p'.imageUrl == patch.imageUrl)
    && (if patch.status.None? then p'.status == p.status else Some(p'.status) == patch.status)
  }

  /** A patch that gives nothing changes nothing. */
  lemma EmptyPatch(p: Product, patch: Patch)
    requires patch.name == patch.description == patch.category == patch.imageUrl == ""
    requires patch.price <= 0.0 && patch.status.None?
    ensures Patched(p, patch) == p
  {
  }

  /** Of two patches the later one wins, field by field. */
  lemma LaterPatchWins(p: Product, a: Patch, b: Patch)
    ensures var q := Patched(Patched(p, a), b);
            && q.name == (if b.name != "" then b.name else if a.name != "" then a.name else p.name)
            && q.description == (if b.description != "" then b.description
                                 else if a.description != "" then a.description else p.description)
            && q.price == (if b.price > 0.0 then b.price else if a.price > 0.0 then a.price else p.price)
            && q.category == (if b.category != "" then b.category
                              else if a.category != "" then a.category else p.category)
            && q.imageUrl == (if b.imageUrl != "" then b.imageUrl
                              else if a.imageUrl != "" then a.imageUrl else p.imageUrl)
            && q.status == (if b.status.Some? then b.status.value
                            else if a.status.Some? then a.status.value else p.status)
  {
  }

  function Lookup(db: map<ProductId, Product>, id: ProductId): Result<Product> {
    if id in db then Ok(db[id]) else NotFound
  }

  function Answer(c: Cached): Result<Product>
    requires !c.Garbage?
  {
    if c.NullMarker? then NotFound else Ok(c.product)
  }

  // ---------------------------------------------------------------- the service, one operation after the other

  class CachedProductService {
    var db: map<ProductId, Product>
    var cache: map<ProductId, Entry>
    var now: nat

    predicate Live(id: ProductId)
      reads this
    {
      id in cache && now < cache[id].expires
    }

    /** Every readable cache entry says what the database says. */
    ghost predicate Coherent()
      reads this
    {
      forall id | Live(id) && !cache[id].cached.Garbage? :: Answer(cache[id].cached) == Lookup(db, id)
    }

    constructor ()
      ensures db == map[] && cache == map[] && Coherent()
    {
      db, cache, now := map[], map[], 0;
    }

    method Wait(ms: nat)
      modifies this`now
      ensures now == old(now) + ms
      ensures old(Coherent()) ==> Coherent()
    {
      now := now + ms;
    }

    /** Redis answers with an entry that parses. */
    ghost predicate Hit(id: ProductId, readFails: bool)
      reads this
    {
      !readFails && Live(id) && !cache[id].cached.Garbage?
    }

    /** Cache-aside read. A hit is answered as it stands. Otherwise the database answers, if it can, and the answer is
        stored, for 300 s to 359 s if there is a product and for 60 s if there is none, unless Redis fails. A coherent
        cache stays coherent, and unless the database fails the answer is the database's. */
    method GetProductByID(id: ProductId, readFails: bool, setFails: bool, dbFails: bool, jitter: nat)
      returns (r: Result<Product>)
      requires jitter < 60
      modifies this`cache
      ensures old(Coherent()) ==> Coherent()
      ensures old(Coherent()) ==> r == Lookup(db, id) || (r.Failed? && dbFails && cache == old(cache))
      ensures r.Failed? <==> dbFails && (readFails || !old(Live(id)) || old(cache)[id].cached.Garbage?)
      ensures old(Hit(id, readFails)) ==>
                && cache == old(cache)
                && match old(cache)[id].cached
                   case Json(p) => r == Ok(p)
                   case _ => r == NotFound
      ensures !old(Hit(id, readFails)) && !dbFails ==> r == if id in db then Ok(db[id]) else NotFound
      ensures !old(Hit(id, readFails)) && !dbFails && !setFails ==>
                cache == old(cache)[id := if id in db then Entry(Json(db[id]), now + 300_000 + jitter * 1000)
                                          else Entry(NullMarker, now + 60_000)]
      ensures setFails || dbFails ==> cache == old(cache)
      ensures forall other | other != id :: other in cache <==> other in old(cache)
      ensures forall other | other in cache && other != id :: cache[other] == old(cache)[other]
      ensures cache == old(cache)
                || (id in cache && now < cache[id].expires <= now + (if r.Ok? then MAX_TTL else NULL_TTL)
                                      && !cache[id].cached.Garbage? && Answer(cache[id].cached) == Lookup(db, id))
    {
      if !readFails && Live(id) {
        match cache[id].cached {
          case NullMarker => return NotFound;
          case Json(p) => return Ok(p);
          case Garbage =>
        }
      }
      if dbFails {
        return Failed;
      }
      r := Lookup(db, id);
      if !setFails {
        if r.Ok? {
          cache := cache[id := Entry(Json(r.value), now + TTL_BASE + jitter * 1000)];
        } else {
          cache := cache[id := Entry(NullMarker, now + NULL_TTL)];
        }
      }
    }

    /** The database first, then the invalidation. With Redis up, coherence is kept. The fields that are given read
        back as given, the others as they were. */
    method Update(id: ProductId, patch: Patch, dbFails: bool, delFails: bool) returns (r: Result<Product>)
      modifies this`db, this`cache
      ensures r.Failed? <==> dbFails
      ensures r.Ok? <==> !dbFails && id in old(db)
      ensures r.Ok? ==> Applied(old(db)[id], patch, r.value) && db == old(db)[id := r.value]
      ensures !r.Ok? ==> db == old(db)
      ensures cache == if r.Ok? && !delFails then old(cache) - {id} else old(cache)
      ensures old(Coherent()) && (!delFails || !r.Ok?) ==> Coherent()
    {
      if dbFails {
        return Failed;
      }
      if id !in db {
        return NotFound;
      }
      db := db[id := Patched(db[id], patch)];
      if !delFails {
        cache := cache - {id};
      }
      r := Ok(db[id]);
    }

    method Delete(id: ProductId, dbFails: bool, delFails: bool) returns (r: Result<()>)
      modifies this`db, this`cache
      ensures r == if dbFails then Failed else if id in old(db) then Ok(()) else NotFound
      ensures db == if r.Ok? then old(db) - {id} else old(db)
      ensures cache == if r.Ok? && !delFails then old(cache) - {id} else old(cache)
      ensures old(Coherent()) && (!delFails || !r.Ok?) ==> Coherent()
    {
      if dbFails {
        return Failed;
      }
      if id !in db {
        return NotFound;
      }
      db := db - {id};
      if !delFails {
        cache := cache - {id};
      }
      r := Ok(());
    }

    /** Creation goes straight to the database under a new id. It keeps coherence exactly when no not-found marker
        for that id is still alive: the marker is not removed. */
    method CreateProduct(id: ProductId, p: Product)
      requires id !in db
      modifies this`db
      ensures db == old(db)[id := p]
      ensures old(Coherent()) ==> (Coherent() <==> !(old(Live(id)) && cache[id].cached.NullMarker?))
    {
      db := db[id := p];
      if Live(id) && cache[id].cached.NullMarker? {
        assert Answer(cache[id].cached) != Lookup(db, id);
      }
    }
  }

  // ---------------------------------------------------------------- two calls, one after the other

  /** What has been read once is answered from the cache for the next 300 s, a missing product for the next 60 s, even
      if the database is down. */
  method GetTwice(service: CachedProductService, id: ProductId, readFails: bool, jitter: nat, ms: nat)
    returns (first: Result<Product>, second: Result<Product>)
    requires jitter < 60 && !service.Hit(id, readFails)
    modifies service
    ensures service.db == old(service.db) && first == if id in service.db then Ok(service.db[id]) else NotFound
    ensures ms < (if first.Ok? then 300_000 else 60_000) ==> second == first
  {
    first := service.GetProductByID(id, readFails, false, false, jitter);
    service.Wait(ms);
    second := service.GetProductByID(id, false, false, true, jitter);
  }

  /** After an update whose invalidation Redis has executed, a read gives what was written. */
  method UpdateThenGet(service: CachedProductService, id: ProductId, patch: Patch, ms: nat, readFails: bool,
                       setFails: bool, jitter: nat)
    returns (r: Result<Product>)
    requires jitter < 60 && service.Coherent()
    modifies service
    ensures r.Ok? <==> id in old(service.db)
    ensures r.Ok? ==> Applied(old(service.db)[id], patch, r.value)
  {
    var _ := service.Update(id, patch, false, false);
    service.Wait(ms);
    r := service.GetProductByID(id, readFails, setFails, false, jitter);
  }

  // ---------------------------------------------------------------- overlapping operations on one product

  /** A value the database held from a point in time until the next version, None standing for no such row. */
  datatype Version = Version(value: Option<Product>, since: nat)

  /** A load under way in one process: begun, then read, then its SET sent, once. Singleflight allows one load per
      process. */
  datatype Flight = Flight(begun: nat, read: Option<Reading>, filled: bool)

  /** A value read from the database: which version, and when. */
  datatype Reading = Reading(version: nat, at: nat)

  /** A cache entry, with the load that produced it. */
  datatype Stored = Stored(load: Flight, at: nat, expires: nat)

  datatype State = State(now: nat, versions: seq<Version>, cache: Option<Stored>, flights: map<nat, Flight>)

  datatype Step =
    | Tick(ms: nat)
    | Write(value: Option<Product>)             // the statement of a Create, Update or Delete
    | Invalidate(executed: bool)                // the DEL that follows an Update or Delete, or an eviction
    | StartLoad(process: nat)
    | ReadDatabase(process: nat)
    | Fill(process: nat, jitter: nat, executed: bool)  // SET; an error may hide that it was executed
    | EndLoad(process: nat)                     // the load returns its value or the database's error

  predicate Enabled(s: State, step: Step) {
    match step
    case StartLoad(p) => p !in s.flights
    case ReadDatabase(p) => p in s.flights && s.flights[p].read.None? && s.versions != []
    case Fill(p, jitter, _) => p in s.flights && Valued(s, p) && !s.flights[p].filled && jitter < TTL_JITTER
    case EndLoad(p) => p in s.flights
    case _ => true
  }

  /** The load has read the database. */
  predicate Valued(s: State, p: nat)
    requires p in s.flights
  {
    s.flights[p].read.Some? && s.flights[p].read.value.version < |s.versions|
  }

  function ValueOf(s: State, load: Flight): Option<Product>
    requires load.read.Some? && load.read.value.version < |s.versions|
  {
    s.versions[load.read.value.version].value
  }

  function TtlOf(value: Option<Product>, jitter: nat): nat {
    if value.Some? then TTL_BASE + jitter * 1000 else NULL_TTL
  }

  function Apply(s: State, step: Step): State
    requires Enabled(s, step)
  {
    match step
    case Tick(ms) => s.(now := s.now + ms)
    case Write(value) => s.(versions := s.versions + [Version(value, s.now)])
    case Invalidate(executed) => if executed then s.(cache := None) else s
    case StartLoad(p) => s.(flights := s.flights[p := Flight(s.now, None, false)])
    case ReadDatabase(p) =>
      s.(flights := s.flights[p := s.flights[p].(read := Some(Reading(|s.versions| - 1, s.now)))])
    case Fill(p, jitter, executed) =>
      var entry := Stored(s.flights[p], s.now, s.now + TtlOf(ValueOf(s, s.flights[p]), jitter));
      s.(cache := if executed then Some(entry) else s.cache, flights := s.flights[p := s.flights[p].(filled := true)])
    case EndLoad(p) => s.(flights := s.flights - {p})
  }

  predicate Init(s: State) {
    |s.versions| == 1 && s.versions[0].since <= s.now && s.cache == None && s.flights == map[]
  }

  /** Version v was the database's value at time t. */
  predicate Current(s: State, v: nat, t: nat) {
    v < |s.versions| && s.versions[v].since <= t <= s.now && (v + 1 < |s.versions| ==> t <= s.versions[v + 1].since)
  }

  predicate Sound(s: State, load: Flight) {
    load.begun <= s.now &&
    (load.read.Some? ==>
       load.begun <= load.read.value.at && Current(s, load.read.value.version, load.read.value.at))
  }

  ghost predicate Inv(s: State) {
    && s.versions != [] && s.versions[|s.versions| - 1].since <= s.now
    && (forall p | p in s.flights :: Sound(s, s.flights[p]))
    && (s.cache.Some? ==>
          var c := s.cache.value;
          && Sound(s, c.load) && c.load.read.Some? && c.load.read.value.at <= c.at <= s.now
          && c.expires <= c.at + (if ValueOf(s, c.load).Some? then MAX_TTL else NULL_TTL))
  }

  lemma StepKeeps(s: State, step: Step)
    requires Inv(s) && Enabled(s, step)
    ensures Inv(Apply(s, step))
  {
    assert forall load | Sound(s, load) :: Sound(Apply(s, step), load);
  }

  predicate Runs(s: State, steps: seq<Step>)
    decreases |steps|, 0
  {
    steps == [] || (Runs(s, steps[..|steps| - 1]) && Enabled(After(s, steps[..|steps| - 1]), steps[|steps| - 1]))
  }

  function After(s: State, steps: seq<Step>): State
    requires Runs(s, steps)
    decreases |steps|, 1
  {
    if steps == [] then s else Apply(After(s, steps[..|steps| - 1]), steps[|steps| - 1])
  }

  lemma {:induction false} RunKeeps(s0: State, steps: seq<Step>)
    requires Inv(s0) && Runs(s0, steps)
    ensures Inv(After(s0, steps))
    decreases |steps|
  {
    if steps != [] {
      RunKeeps(s0, steps[..|steps| - 1]);
      StepKeeps(After(s0, steps[..|steps| - 1]), steps[|steps| - 1]);
    }
  }

  /** The value was in the database at some moment at most `age` milliseconds ago. */
  ghost predicate HeldWithin(s: State, value: Option<Product>, age: int) {
    exists v: nat, t: nat :: v < |s.versions| && s.versions[v].value == value && Current(s, v, t) && s.now - t <= age
  }

  /** What a cache hit answers is at most 359 s, or 60 s for not-found, plus the duration of the load that filled the
      entry, behind the database, whatever overlapped and whichever invalidations were lost. */
  lemma HitStaleness(s0: State, steps: seq<Step>)
    requires Init(s0) && Runs(s0, steps)
    requires var s := After(s0, steps); s.cache.Some? && s.now < s.cache.value.expires
    ensures var s := After(s0, steps);
            var c := s.cache.value;
            && c.load.read.Some? && c.load.read.value.version < |s.versions|
            && HeldWithin(s, ValueOf(s, c.load),
                          (if ValueOf(s, c.load).Some? then 359_000 else 60_000) + (c.at - c.load.begun))
  {
    RunKeeps(s0, steps);
    var s := After(s0, steps);
    var load := s.cache.value.load;
    assert Current(s, load.read.value.version, load.read.value.at);
  }

  /** A value that a load stores is there to be hit for at least 300 s, or 60 s for not-found, unless it is invalidated
      or replaced. */
  lemma FillLasts(s: State, p: nat, jitter: nat)
    requires Enabled(s, Fill(p, jitter, true))
    ensures var s' := Apply(s, Fill(p, jitter, true));
            && s'.cache.Some? && s'.cache.value.load == s.flights[p] && s'.versions == s.versions
            && s'.cache.value.expires >= s.now + (if ValueOf(s, s.flights[p]).Some? then 300_000 else 60_000)
  {
  }

  /** What a load answers, also to callers that joined it, is at most its own duration behind the database. */
  lemma LoadStaleness(s0: State, steps: seq<Step>, p: nat)
    requires Init(s0) && Runs(s0, steps)
    requires var s := After(s0, steps); p in s.flights && s.flights[p].read.Some?
    ensures var s := After(s0, steps);
            && s.flights[p].read.value.version < |s.versions|
            && HeldWithin(s, ValueOf(s, s.flights[p]), s.now - s.flights[p].begun)
  {
    RunKeeps(s0, steps);
    var s := After(s0, steps);
    var load := s.flights[p];
    assert Current(s, load.read.value.version, load.read.value.at);
  }

  // ---------------------------------------------------------------- when is an invalidation final?

  /** The load has read the database and not yet sent its SET. */
  predicate MayFill(load: Flight) {
    load.read.Some? && !load.filled
  }

  /** Everything cached or about to be cached was read at version v or later. */
  ghost predicate AtLeastVersion(s: State, v: nat) {
    && v < |s.versions|
    && (forall p | p in s.flights && MayFill(s.flights[p]) :: s.flights[p].read.value.version >= v)
    && CacheAtLeast(s, v)
  }

  /** No load that has yet to fill the cache has read an older version than the newest. */
  ghost predicate NoOldLoad(s: State) {
    forall p | p in s.flights && MayFill(s.flights[p]) :: s.flights[p].read.value.version >= |s.versions| - 1
  }

  lemma {:induction false} NewerStaysNewer(s0: State, steps: seq<Step>)
    requires Runs(s0, steps) && s0.versions != [] && s0.cache == None && NoOldLoad(s0)
    ensures AtLeastVersion(After(s0, steps), |s0.versions| - 1)
    decreases |steps|
  {
    if steps != [] {
      NewerStaysNewer(s0, steps[..|steps| - 1]);
    }
  }

  /** The cache holds nothing older than version v. */
  predicate CacheAtLeast(s: State, v: nat) {
    s.cache.Some? ==> s.cache.value.load.read.Some? && s.cache.value.load.read.value.version >= v
  }

  /** A load that read before the newest write puts the older value back into the cache when it fills it. */
  lemma OldLoadFillsCache(s: State, p: nat)
    requires Inv(s) && p in s.flights && MayFill(s.flights[p])
    requires s.flights[p].read.value.version < |s.versions| - 1
    ensures Runs(s, [Fill(p, 0, true)]) && !CacheAtLeast(After(s, [Fill(p, 0, true)]), |s.versions| - 1)
  {
    assert Sound(s, s.flights[p]);
    OneStep(s, Fill(p, 0, true));
  }

  lemma OneStep(s: State, step: Step)
    requires Enabled(s, step)
    ensures Runs(s, [step]) && After(s, [step]) == Apply(s, step)
  {
    var none: seq<Step> := [];
    assert [step][..0] == none;
    assert Runs(s, none) && After(s, none) == s;
  }

  /** After a write and its executed invalidation, no run takes the cache back behind the write, exactly if at that
      moment no load has read before the write and not yet sent its SET. */
  lemma InvalidationIsFinalExactly(s: State)
    requires Inv(s) && s.cache == None
    ensures NoOldLoad(s) <==> forall steps | Runs(s, steps) :: CacheAtLeast(After(s, steps), |s.versions| - 1)
  {
    if NoOldLoad(s) {
      forall steps | Runs(s, steps) ensures CacheAtLeast(After(s, steps), |s.versions| - 1) {
        NewerStaysNewer(s, steps);
      }
    } else {
      var p :| p in s.flights && MayFill(s.flights[p]) && s.flights[p].read.value.version < |s.versions| - 1;
      OldLoadFillsCache(s, p);
    }
  }
}
