/** The district loop of `main` (main.py:104-122): filter the permit records,
    count cache hits and misses, resolve each address and collect the output
    records, with the address cache (main.py:14) as shared state. */
module Pipeline {
  import opened Common
  import opened Selection
  import opened Geocode

  /** One entry of a district's `result` list. */
  datatype Record = Record(
    usePurpose: string,    // USE_PURP
    permitStatus: string,  // JOB_GBN_NM
    landCategory: string,  // JIMOK
    address: string,       // ADDRESS
    handledOn: string,     // HNDL_YMD
    districtCode: string)  // SGG_CD

  /** One element of the output `data` list. */
  datatype OutputRecord = OutputRecord(
    address: string, placeName: string, lat: string, lng: string, date: string, sggCd: string)

  /** A district's parsed listing body: `None` when it has no `result` key
      (or is empty), otherwise the records in listing order. */
  type Listing = Option<seq<Record>>

  const ResidentialUse: string := "주거용"
  const Granted: string := "허가"
  const BuildingSite: string := "대"

  /** The three `continue` guards of lines 111-113. */
  predicate Qualifies(rec: Record)
  {
    rec.usePurpose == ResidentialUse && rec.permitStatus == Granted && rec.landCategory == BuildingSite
  }

  /** `place_name and lat and lng`. */
  predicate Usable(p: Place)
  {
    Truthy(p.name) && Truthy(p.lat) && Truthy(p.lng)
  }

  /** `o` is the output record built from `rec` and its usable resolved place `p`. */
  predicate Emits(rec: Record, p: Place, o: OutputRecord)
  {
    Usable(p) &&
    o == OutputRecord(rec.address, p.name.value, p.lat.value, p.lng.value, rec.handledOn, rec.districtCode)
  }

  /** Everything the loop touches: the address cache, `api_call_count`,
      `cache_hit_count`, the output list, and the search queries sent so far. */
  datatype State = State(
    cache: map<string, Place>, misses: nat, hits: nat, data: seq<OutputRecord>, queries: seq<string>)

  /** The state before the loop: the loaded cache, zero counters, no output. */
  function Start(cache: map<string, Place>): State
  {
    State(cache, 0, 0, [], [])
  }

  predicate CacheExtends(before: map<string, Place>, after: map<string, Place>)
  {
    forall a | a in before :: a in after && after[a] == before[a]
  }

  /** One iteration of the inner loop body (lines 111-122). */
  function Step(s: State, rec: Record, service: string -> Response): (t: State)
    ensures !Qualifies(rec) ==> t == s
    ensures Qualifies(rec) ==> t.hits + t.misses == s.hits + s.misses + 1
    ensures Qualifies(rec) ==> (t.hits == s.hits + 1 <==> rec.address in s.cache)
    ensures rec.address in s.cache ==> t.cache == s.cache && t.queries == s.queries
    ensures Qualifies(rec) ==> t.cache == Resolve(s.cache, rec.address, service).cache
    ensures Qualifies(rec) && rec.address !in s.cache ==> t.queries == s.queries + [Query(rec.address)]
    ensures |t.queries| + s.misses == |s.queries| + t.misses
    ensures CacheExtends(s.cache, t.cache)
    ensures |s.data| <= |t.data| <= |s.data| + 1 && t.data[..|s.data|] == s.data
    ensures |t.data| == |s.data| + 1 <==>
              Qualifies(rec) && Usable(Resolve(s.cache, rec.address, service).place)
    ensures |t.data| == |s.data| + 1 ==>
              Emits(rec, Resolve(s.cache, rec.address, service).place, t.data[|s.data|])
  {
    if !Qualifies(rec) then s
    else
      var hit := rec.address in s.cache;
      var lookup := Resolve(s.cache, rec.address, service);
      var p := lookup.place;
      State(lookup.cache,
            if hit then s.misses else s.misses + 1,
            if hit then s.hits + 1 else s.hits,
            if Usable(p)
            then s.data + [OutputRecord(rec.address, p.name.value, p.lat.value, p.lng.value, rec.handledOn, rec.districtCode)]
            else s.data,
            if lookup.queried then s.queries + [Query(rec.address)] else s.queries)
  }

  /** The loop body applied to `recs` in order. */
  function Process(s: State, recs: seq<Record>, service: string -> Response): (t: State)
    ensures |s.data| <= |t.data| <= |s.data| + |recs|
    ensures s.hits <= t.hits && s.misses <= t.misses
  {
    if recs == [] then s
    else Step(Process(s, recs[..|recs| - 1], service), recs[|recs| - 1], service)
  }

  function Records(listing: Listing): seq<Record>
  {
    if listing.Some? then listing.value else []
  }

  /** All records the run visits, district by district in the order of
      `codes`, each district's records in listing order. */
  function Gather(codes: seq<string>, fetch: string -> Listing): (recs: seq<Record>)
    ensures forall rec | rec in recs :: exists c | c in codes :: rec in Records(fetch(c))
    ensures forall c, rec | c in codes && rec in Records(fetch(c)) :: rec in recs
  {
    if codes == [] then []
    else Gather(codes[..|codes| - 1], fetch) + Records(fetch(codes[|codes| - 1]))
  }

  /** Districts are visited in order: gathering two stretches of districts is
      gathering the first and then the second. */
  lemma {:induction false} GatherAppend(a: seq<string>, b: seq<string>, fetch: string -> Listing)
    ensures Gather(a + b, fetch) == Gather(a, fetch) + Gather(b, fetch)
  {
    if b == [] {
      assert a + b == a;
    } else {
      assert (a + b)[..|a + b| - 1] == a + b[..|b| - 1];
      assert (a + b)[|a + b| - 1] == b[|b| - 1];
      GatherAppend(a, b[..|b| - 1], fetch);
    }
  }

  /** The records that pass the three guards, in order. */
  function Qualifying(recs: seq<Record>): (r: seq<Record>)
  {
    if recs == [] then []
    else Qualifying(recs[..|recs| - 1]) + (if Qualifies(recs[|recs| - 1]) then [recs[|recs| - 1]] else [])
  }

  /** Processing two stretches of records one after the other is processing
      their concatenation: a later district continues from the state an
      earlier one left. */
  lemma {:induction false} ProcessAppend(s: State, a: seq<Record>, b: seq<Record>, service: string -> Response)
    ensures Process(s, a + b, service) == Process(Process(s, a, service), b, service)
  {
    if b != [] {
      assert (a + b)[..|a + b| - 1] == a + b[..|b| - 1];
      assert (a + b)[|a + b| - 1] == b[|b| - 1];
      ProcessAppend(s, a, b[..|b| - 1], service);
    } else {
      assert a + b == a;
    }
  }

  /** Records failing any of the three guards are neither counted, nor
      resolved, nor emitted: the run is the same on the qualifying ones alone. */
  lemma {:induction false} OnlyQualifyingRecordsMatter(s: State, recs: seq<Record>, service: string -> Response)
    ensures Process(s, recs, service) == Process(s, Qualifying(recs), service)
  {
    if recs != [] {
      var init, last := recs[..|recs| - 1], recs[|recs| - 1];
      OnlyQualifyingRecordsMatter(s, init, service);
      var tail := if Qualifies(last) then [last] else [];
      ProcessAppend(s, Qualifying(init), tail, service);
      if Qualifies(last) {
        assert tail[..0] == [];
      }
    }
  }

  /** Every qualifying record bumps exactly one of the two counters. */
  lemma {:induction false} CountersCoverQualifying(s: State, recs: seq<Record>, service: string -> Response)
    ensures var t := Process(s, recs, service);
            t.hits + t.misses == s.hits + s.misses + |Qualifying(recs)|
  {
    if recs != [] {
      CountersCoverQualifying(s, recs[..|recs| - 1], service);
    }
  }

  /** `api_call_count` counts exactly the search requests sent: each miss sends
      one, each hit none. */
  lemma {:induction false} MissesAreQueries(s: State, recs: seq<Record>, service: string -> Response)
    ensures var t := Process(s, recs, service);
            |t.queries| + s.misses == |s.queries| + t.misses
  {
    if recs != [] {
      MissesAreQueries(s, recs[..|recs| - 1], service);
    }
  }

  /** Cached entries are authoritative: none is removed or overwritten. */
  lemma {:induction false} CacheOnlyGrows(s: State, recs: seq<Record>, service: string -> Response)
    ensures CacheExtends(s.cache, Process(s, recs, service).cache)
  {
    if recs != [] {
      CacheOnlyGrows(s, recs[..|recs| - 1], service);
    }
  }

  /** Some qualifying record of `recs` yields `o`, from the place `cache`
      holds for its address. */
  predicate FromQualifying(recs: seq<Record>, cache: map<string, Place>, o: OutputRecord)
  {
    exists rec | rec in recs :: Qualifies(rec) && rec.address in cache && Emits(rec, cache[rec.address], o)
  }

  /** Output is only appended to, and each appended record is built from a
      qualifying input record and the usable place its address resolved to,
      which the cache holds at the end of the run. */
  lemma {:induction false} OutputsComeFromQualifying(s: State, recs: seq<Record>, service: string -> Response)
    ensures var t := Process(s, recs, service);
            |s.data| <= |t.data| && t.data[..|s.data|] == s.data &&
            forall k | |s.data| <= k < |t.data| :: FromQualifying(recs, t.cache, t.data[k])
  {
    if recs != [] {
      var init, last := recs[..|recs| - 1], recs[|recs| - 1];
      OutputsComeFromQualifying(s, init, service);
      var u := Process(s, init, service);
      var t := Step(u, last, service);
      assert Process(s, recs, service) == t;
      assert t.data[..|s.data|] == s.data by {
        assert t.data[..|u.data|] == u.data;
      }
      forall k | |s.data| <= k < |t.data|
        ensures FromQualifying(recs, t.cache, t.data[k])
      {
        if k < |u.data| {
          assert t.data[k] == u.data[k];
          assert FromQualifying(init, u.cache, u.data[k]);
          var rec :| rec in init && Qualifies(rec) && rec.address in u.cache && Emits(rec, u.cache[rec.address], u.data[k]);
          assert rec in recs && rec.address in t.cache && t.cache[rec.address] == u.cache[rec.address];
        } else {
          var lookup := Resolve(u.cache, last.address, service);
          assert Usable(lookup.place) && lookup.place != Unresolved;
          assert last in recs && Qualifies(last) && t.cache[last.address] == lookup.place;
          assert Emits(last, t.cache[last.address], t.data[k]);
        }
      }
    }
  }

  /** A qualifying record whose address is cached with a usable place is
      emitted again however often it recurs: there is no de-duplication. */
  lemma {:induction false} CachedRepeatsAreEmitted(s: State, rec: Record, n: nat, service: string -> Response)
    requires Qualifies(rec) && rec.address in s.cache && Usable(s.cache[rec.address])
    ensures var t := Process(s, seq(n, _ => rec), service);
            |t.data| == |s.data| + n && t.hits == s.hits + n &&
            t.misses == s.misses && t.queries == s.queries && t.cache == s.cache
  {
    if n > 0 {
      var recs := seq(n, _ => rec);
      assert recs[..n - 1] == seq(n - 1, _ => rec);
      CachedRepeatsAreEmitted(s, rec, n - 1, service);
    }
  }

  /** A cold run over one district holding one qualifying record, whose only
      search candidate is a real-estate document, emits exactly that record. */
  lemma SingleRecordRun()
    ensures var rec := Record("주거용", "허가", "대", "종로구 1-1", "20240101", "11110");
            var doc := Doc(Some("부동산"), Some("A"), Some("127.0"), Some("37.5"));
            var t := Process(Start(map[]), Gather(["11110"], c => Some([rec])), q => Documents([doc]));
            t.data == [OutputRecord("종로구 1-1", "A", "37.5", "127.0", "20240101", "11110")] &&
            t.misses == 1 && t.hits == 0 && t.queries == ["서울시 종로구 1-1"]
  {
    var rec := Record("주거용", "허가", "대", "종로구 1-1", "20240101", "11110");
    var doc := Doc(Some("부동산"), Some("A"), Some("127.0"), Some("37.5"));
    assert IsBest([doc], 0);
    assert Query(rec.address) == "서울시 종로구 1-1";
    assert Gather(["11110"], c => Some([rec])) == [rec];
  }

  /** The address cache with the loop's counters and output list. */
  class Collector {
    var cache: map<string, Place>
    var apiCallCount: nat
    var cacheHitCount: nat
    var data: seq<OutputRecord>
    /** Search queries sent so far, in order; not kept by the program. */
    ghost var Queries: seq<string>

    ghost function Snapshot(): State
      reads this
    {
      State(cache, apiCallCount, cacheHitCount, data, Queries)
    }

    /** Start of `main`: the cache file's contents, or an empty cache when it
        is missing or cannot be loaded; counters at zero and no output. */
    constructor (loaded: Option<map<string, Place>>)
      ensures Snapshot() == Start(if loaded.Some? then loaded.value else map[])
    {
      cache := if loaded.Some? then loaded.value else map[];
      apiCallCount, cacheHitCount := 0, 0;
      data := [];
      Queries := [];
    }

    /** get_lat_lon: answer from the cache, or search, and commit the triple
        only when the response was handled without an exception. */
    method GetLatLon(address: string, service: string -> Response) returns (place: Place)
      modifies this
      ensures var lookup := Resolve(old(cache), address, service);
              place == lookup.place && cache == lookup.cache &&
              Queries == old(Queries) + (if lookup.queried then [Query(address)] else [])
      ensures apiCallCount == old(apiCallCount) && cacheHitCount == old(cacheHitCount) && data == old(data)
    {
      if address in cache {
        return cache[address];
      }
      var query := Query(address);
      Queries := Queries + [query];
      var outcome := Interpret(service(query));
      match outcome
      case Failed =>
        place := Unresolved;
      case Resolved(p) =>
        cache := cache[address := p];
        place := p;
    }

    /** Lines 111-122: one record of a district's listing. */
    method VisitRecord(x: Record, service: string -> Response)
      modifies this
      ensures Snapshot() == Step(old(Snapshot()), x, service)
    {
      if x.usePurpose != ResidentialUse { return; }
      if x.permitStatus != Granted { return; }
      if x.landCategory != BuildingSite { return; }

      if x.address in cache {
        cacheHitCount := cacheHitCount + 1;
      } else {
        apiCallCount := apiCallCount + 1;
      }

      var place := GetLatLon(x.address, service);
      if Usable(place) {
        data := data + [OutputRecord(x.address, place.name.value, place.lat.value, place.lng.value,
                                     x.handledOn, x.districtCode)];
      }
    }

    /** Lines 110-122: the records of one district's listing, in order. */
    method VisitListing(records: seq<Record>, service: string -> Response)
      modifies this
      ensures Snapshot() == Process(old(Snapshot()), records, service)
    {
      for i := 0 to |records|
        invariant Snapshot() == Process(old(Snapshot()), records[..i], service)
      {
        assert records[..i + 1][..i] == records[..i];
        VisitRecord(records[i], service);
      }
      assert records[..|records|] == records;
    }

    /** Lines 104-122: every district in order, every record of its listing
        in order. */
    method Run(districts: seq<string>, fetch: string -> Listing, service: string -> Response)
      modifies this
      ensures Snapshot() == Process(old(Snapshot()), Gather(districts, fetch), service)
    {
      for d := 0 to |districts|
        invariant Snapshot() == Process(old(Snapshot()), Gather(districts[..d], fetch), service)
      {
        assert districts[..d + 1][..d] == districts[..d];
        var listing := fetch(districts[d]);
        ghost var done := Gather(districts[..d], fetch);
        assert Gather(districts[..d + 1], fetch) == done + Records(listing);
        if listing.None? {
          assert done + [] == done;
          continue;
        }
        VisitListing(listing.value, service);
        ProcessAppend(old(Snapshot()), done, listing.value, service);
      }
      assert districts[..|districts|] == districts;
    }
  }
}
