/** One address lookup against the keyword-search service (get_lat_lon,
    main.py:35-74) and the memoisation rule that governs the address cache. */
module Geocode {
  import opened Common
  import opened Selection

  /** What the body returned by the search request turns out to be once
      parsed: not JSON at all (including the transport's failure marker),
      an object without a `documents` key, or the candidate list. */
  datatype Response = Unparsable | NoDocumentsKey | Documents(docs: seq<Doc>)

  /** The cached and returned triple `(place_name, lat, lng)`. */
  datatype Place = Place(name: Option<string>, lat: Option<string>, lng: Option<string>)

  /** `(None, None, None)`: the negative entry and the failure result. */
  const Unresolved: Place := Place(None, None, None)

  /** The result of the `try` block: it either finishes and yields a triple
      to commit, or raises. */
  datatype Outcome = Failed | Resolved(place: Place)

  /** Municipality qualifier put in front of every address. */
  const City: string := "서울시"

  /** The `query` parameter of the search request. */
  function Query(address: string): string
  {
    City + " " + address
  }

  /** Lines 47-70 of main.py as a function of the parsed response. */
  function Interpret(resp: Response): (r: Outcome)
    ensures !resp.Documents? ==> r == Failed
    ensures resp == Documents([]) ==> r == Resolved(Unresolved)
    ensures resp.Documents? && resp.docs != [] ==>
              (r.Resolved? <==>
                 Categorised(resp.docs) &&
                 forall i | IsBest(resp.docs, i) :: resp.docs[i].x.Some? && resp.docs[i].y.Some?)
    ensures resp.Documents? && resp.docs != [] && r.Resolved? ==>
              forall i | IsBest(resp.docs, i) ::
                r.place == Place(resp.docs[i].placeName, resp.docs[i].y, resp.docs[i].x)
  {
    match resp
    case Unparsable => Failed
    case NoDocumentsKey => Failed
    case Documents(docs) =>
      if docs == [] then Resolved(Unresolved)
      else if !Categorised(docs) then Failed
      else
        ChooseIsFirstOfBestRank(docs);
        var doc := Choose(docs).value;
        if doc.y.None? || doc.x.None? then Failed
        else
          assert forall i | IsBest(docs, i) :: docs[i] == doc by {
            forall i | IsBest(docs, i) ensures docs[i] == doc {
              ChooseIsBest(docs, i);
            }
          }
          Resolved(Place(doc.placeName, doc.y, doc.x))
  }

  /** The result of one lookup: the triple returned, the cache afterwards, and
      whether a search request was sent. */
  datatype Lookup = Lookup(place: Place, cache: map<string, Place>, queried: bool)

  /** get_lat_lon against the cache `cache`, with `service` answering queries. */
  function Resolve(cache: map<string, Place>, address: string, service: string -> Response): (r: Lookup)
    ensures r.queried <==> address !in cache
    ensures address in cache ==> r.place == cache[address] && r.cache == cache
    ensures forall a | a in cache :: a in r.cache && r.cache[a] == cache[a]
    ensures r.cache.Keys <= cache.Keys + {address}
    ensures address in r.cache ==> r.cache[address] == r.place
    ensures address !in r.cache ==> r.place == Unresolved
    ensures address !in cache ==>
              (address in r.cache <==> Interpret(service(Query(address))).Resolved?)
    ensures address !in cache && Interpret(service(Query(address))).Resolved? ==>
              r.place == Interpret(service(Query(address))).place
  {
    if address in cache then Lookup(cache[address], cache, false)
    else
      match Interpret(service(Query(address)))
      case Failed => Lookup(Unresolved, cache, true)
      case Resolved(p) => Lookup(p, cache[address := p], true)
  }

  /** A second lookup of the same address is answered from the cache with the
      same triple and no request, unless the first one failed, in which case
      the address is searched again. */
  lemma RepeatedLookup(cache: map<string, Place>, address: string, service: string -> Response)
    ensures var first := Resolve(cache, address, service);
            var second := Resolve(first.cache, address, service);
            (address in first.cache ==> second == Lookup(first.place, first.cache, false)) &&
            (address !in first.cache ==> second.queried && second.cache == first.cache)
  {
  }
}
