/** The tiered choice among the candidate documents of one keyword search
    (main.py:50-64): apartments first, then residential facilities, then
    real estate, then anything; within a tier the service's order decides. */
module Selection {
  import opened Common

  /** One candidate of a keyword-search response. A field is `None` when its
      key is absent, in which case reading it raises. A `category_name` that
      is present but not a string is not modelled. */
  datatype Doc = Doc(category: Option<string>, placeName: Option<string>, x: Option<string>, y: Option<string>)

  const Apartment: string := "아파트"
  const Residential: string := "주거시설"
  const RealEstate: string := "부동산"

  /** Every document has a string category, so the tier filters do not raise. */
  predicate Categorised(docs: seq<Doc>)
  {
    forall i | 0 <= i < |docs| :: docs[i].category.Some?
  }

  predicate Mentions(d: Doc, keyword: string)
  {
    d.category.Some? && Contains(d.category.value, keyword)
  }

  /** Index `i` holds the first document whose category mentions `keyword`. */
  predicate FirstMentioning(docs: seq<Doc>, i: int, keyword: string)
  {
    0 <= i < |docs| && Mentions(docs[i], keyword) &&
    forall j | 0 <= j < i :: !Mentions(docs[j], keyword)
  }

  predicate NoneMentions(docs: seq<Doc>, keyword: string)
  {
    forall j | 0 <= j < |docs| :: !Mentions(docs[j], keyword)
  }

  /** The list comprehension `[x for x in docs if keyword in x['category_name']]`. */
  function Filter(docs: seq<Doc>, keyword: string): (r: seq<Doc>)
    requires Categorised(docs)
    ensures |r| <= |docs|
    ensures forall d | d in r :: d in docs && Mentions(d, keyword)
    ensures forall i | 0 <= i < |docs| && Mentions(docs[i], keyword) :: docs[i] in r
  {
    if docs == [] then []
    else (if Mentions(docs[0], keyword) then [docs[0]] else []) + Filter(docs[1..], keyword)
  }

  /** The documents of the first non-empty tier (the whole list when no tier
      matches): exactly the documents of the best tier present. */
  function Candidates(docs: seq<Doc>): (r: seq<Doc>)
    requires Categorised(docs)
    ensures r != [] <==> docs != []
    ensures forall d | d in r :: d in docs && forall j | 0 <= j < |docs| :: Rank(d) <= Rank(docs[j])
    ensures forall i | 0 <= i < |docs| && (forall j | 0 <= j < |docs| :: Rank(docs[i]) <= Rank(docs[j])) ::
              docs[i] in r
  {
    FilterEmptyWhenNoneMentions(docs, Apartment);
    FilterEmptyWhenNoneMentions(docs, Residential);
    FilterEmptyWhenNoneMentions(docs, RealEstate);
    var apartments := Filter(docs, Apartment);
    if |apartments| > 0 then apartments
    else
      var residences := Filter(docs, Residential);
      if |residences| > 0 then residences
      else
        var realEstate := Filter(docs, RealEstate);
        if |realEstate| > 0 then realEstate
        else docs
  }

  /** `documents[0]` of the chosen tier, when there is one. */
  function Choose(docs: seq<Doc>): (r: Option<Doc>)
    requires Categorised(docs)
    ensures r.Some? <==> docs != []
    ensures r.Some? ==> r.value in docs
  {
    var candidates := Candidates(docs);
    if |candidates| > 0 then Some(candidates[0]) else None
  }

  /** The filter keeps service order: its head is the first matching document. */
  lemma {:induction false} FilterStartsAtFirstMatch(docs: seq<Doc>, keyword: string, i: int)
    requires Categorised(docs) && FirstMentioning(docs, i, keyword)
    ensures Filter(docs, keyword) != [] && Filter(docs, keyword)[0] == docs[i]
  {
    if i > 0 {
      FilterStartsAtFirstMatch(docs[1..], keyword, i - 1);
    }
  }

  /** The filter is empty exactly when no document mentions the keyword. */
  lemma FilterEmptyWhenNoneMentions(docs: seq<Doc>, keyword: string)
    requires Categorised(docs)
    ensures Filter(docs, keyword) == [] <==> NoneMentions(docs, keyword)
  {
    if Filter(docs, keyword) != [] {
      var d := Filter(docs, keyword)[0];
      assert d in docs && Mentions(d, keyword);
      var j :| 0 <= j < |docs| && docs[j] == d;
      assert Mentions(docs[j], keyword);
    }
  }

  /** Index of the first document mentioning `keyword`. */
  function FirstIndex(docs: seq<Doc>, keyword: string): (i: int)
    requires exists j | 0 <= j < |docs| :: Mentions(docs[j], keyword)
    ensures FirstMentioning(docs, i, keyword)
  {
    if Mentions(docs[0], keyword) then 0
    else
      assert exists j | 0 <= j < |docs[1..]| :: Mentions(docs[1..][j], keyword) by {
        var j :| 0 <= j < |docs| && Mentions(docs[j], keyword);
        assert j > 0 && docs[1..][j - 1] == docs[j];
      }
      1 + FirstIndex(docs[1..], keyword)
  }

  /** The four tiers, each as the source states it. */
  lemma ChooseFollowsTiers(docs: seq<Doc>, i: int)
    requires Categorised(docs) && 0 <= i < |docs|
    ensures FirstMentioning(docs, i, Apartment) ==> Choose(docs) == Some(docs[i])
    ensures NoneMentions(docs, Apartment) && FirstMentioning(docs, i, Residential) ==>
              Choose(docs) == Some(docs[i])
    ensures (NoneMentions(docs, Apartment) && NoneMentions(docs, Residential) &&
             FirstMentioning(docs, i, RealEstate)) ==> Choose(docs) == Some(docs[i])
    ensures (NoneMentions(docs, Apartment) && NoneMentions(docs, Residential) &&
             NoneMentions(docs, RealEstate)) ==> Choose(docs) == Some(docs[0])
  {
    FilterEmptyWhenNoneMentions(docs, Apartment);
    FilterEmptyWhenNoneMentions(docs, Residential);
    FilterEmptyWhenNoneMentions(docs, RealEstate);
    if FirstMentioning(docs, i, Apartment) {
      FilterStartsAtFirstMatch(docs, Apartment, i);
    }
    if NoneMentions(docs, Apartment) && FirstMentioning(docs, i, Residential) {
      FilterStartsAtFirstMatch(docs, Residential, i);
    }
    if NoneMentions(docs, Apartment) && NoneMentions(docs, Residential) && FirstMentioning(docs, i, RealEstate) {
      FilterStartsAtFirstMatch(docs, RealEstate, i);
    }
  }

  /** Tier of one document: 1 apartment, 2 residential facility, 3 real estate, 4 other. */
  function Rank(d: Doc): nat
  {
    if Mentions(d, Apartment) then 1
    else if Mentions(d, Residential) then 2
    else if Mentions(d, RealEstate) then 3
    else 4
  }

  /** Reference definition of the choice: index `i` is the first document of
      the best (lowest) tier present in the response. */
  predicate IsBest(docs: seq<Doc>, i: int)
  {
    0 <= i < |docs| &&
    (forall j | 0 <= j < |docs| :: Rank(docs[i]) <= Rank(docs[j])) &&
    (forall j | 0 <= j < i :: Rank(docs[i]) < Rank(docs[j]))
  }

  /** At most one index is the best. */
  lemma BestIsUnique(docs: seq<Doc>, i: int, k: int)
    requires IsBest(docs, i) && IsBest(docs, k)
    ensures i == k
  {
    assert Rank(docs[i]) == Rank(docs[k]);
  }

  /** The tiered choice is the first document of the best tier present, and it
      exists for every non-empty response. */
  lemma ChooseIsFirstOfBestRank(docs: seq<Doc>)
    requires Categorised(docs) && docs != []
    ensures exists i :: IsBest(docs, i) && Choose(docs) == Some(docs[i])
  {
    var i;
    if !NoneMentions(docs, Apartment) {
      i := FirstIndex(docs, Apartment);
    } else if !NoneMentions(docs, Residential) {
      i := FirstIndex(docs, Residential);
    } else if !NoneMentions(docs, RealEstate) {
      i := FirstIndex(docs, RealEstate);
    } else {
      i := 0;
    }
    ChooseFollowsTiers(docs, i);
    assert IsBest(docs, i);
  }

  /** The choice therefore names the unique best index. */
  lemma ChooseIsBest(docs: seq<Doc>, i: int)
    requires Categorised(docs) && IsBest(docs, i)
    ensures Choose(docs) == Some(docs[i])
  {
    ChooseIsFirstOfBestRank(docs);
    var k :| IsBest(docs, k) && Choose(docs) == Some(docs[k]);
    BestIsUnique(docs, i, k);
  }
}
