/** The Vast.ai client's decision logic: which offers are eligible after the
    configured blacklists, and which instances one `create_instances` call
    rents. The HTTP requests themselves are not modelled: the offers search
    answer and each create request's answer are inputs. */
module Vast {
  import opened Wrappers
  import opened Numeric
  import opened Text
  import opened Types
  import opened Configuration

  // ---------------------------------------------------------------------------
  // filter_offers

  /** An id passes an optional blacklist: an absent list bans nothing. */
  predicate NotListed(list: Option<seq<U64>>, id: U64) {
    list.None? || id !in list.value
  }

  /** An offer is eligible when neither its host nor its machine is
      blacklisted. The allow-lists (`good_hosts`, `good_machines`) play no
      part. */
  predicate Allowed(c: Config, o: Offer) {
    NotListed(c.badHosts, o.hostId) && NotListed(c.badMachines, o.machineId)
  }

  /** `filter_offers`: the offers that pass both blacklists, in order. */
  function FilterOffers(c: Config, offers: seq<Offer>): (r: seq<Offer>)
    ensures |r| <= |offers|
    ensures forall i :: 0 <= i < |r| ==> Allowed(c, r[i])
    decreases |offers|
  {
    if |offers| == 0 then []
    else
      var rest := FilterOffers(c, offers[1..]);
      if Allowed(c, offers[0]) then [offers[0]] + rest else rest
  }

  /** One offer in front is kept exactly when it is eligible. */
  lemma FilterCons(c: Config, o: Offer, rest: seq<Offer>)
    ensures FilterOffers(c, [o] + rest) == (if Allowed(c, o) then [o] else []) + FilterOffers(c, rest)
  {
    assert ([o] + rest)[0] == o && ([o] + rest)[1..] == rest;
  }

  /** The filter keeps every eligible offer as often as it occurs and drops
      every other offer. */
  lemma {:induction false} FilterCounts(c: Config, offers: seq<Offer>)
    ensures forall o :: multiset(FilterOffers(c, offers))[o] == if Allowed(c, o) then multiset(offers)[o] else 0
    decreases |offers|
  {
    if |offers| > 0 {
      FilterCounts(c, offers[1..]);
      FilterCons(c, offers[0], offers[1..]);
      assert offers == [offers[0]] + offers[1..];
    }
  }

  /** The kept offers are in their original order. */
  lemma {:induction false} FilterSubsequence(c: Config, offers: seq<Offer>)
    ensures IsSubsequence(FilterOffers(c, offers), offers)
    decreases |offers|
  {
    if |offers| > 0 {
      var rest := FilterOffers(c, offers[1..]);
      FilterSubsequence(c, offers[1..]);
      assert offers == [offers[0]] + offers[1..];
      if Allowed(c, offers[0]) {
        SubsequenceCons(offers[0], rest, offers[1..]);
      } else {
        SubsequenceConsRight(rest, offers[0], offers[1..]);
      }
    }
  }

  /** Filtering works offer by offer: the filter of a concatenation is the
      concatenation of the filters. */
  lemma {:induction false} FilterAppend(c: Config, a: seq<Offer>, b: seq<Offer>)
    ensures FilterOffers(c, a + b) == FilterOffers(c, a) + FilterOffers(c, b)
    decreases |a|
  {
    if |a| > 0 {
      var x := if Allowed(c, a[0]) then [a[0]] else [];
      assert a + b == [a[0]] + (a[1..] + b);
      assert a == [a[0]] + a[1..];
      FilterCons(c, a[0], a[1..] + b);
      FilterCons(c, a[0], a[1..]);
      FilterAppend(c, a[1..], b);
      assert x + (FilterOffers(c, a[1..]) + FilterOffers(c, b)) == (x + FilterOffers(c, a[1..])) + FilterOffers(c, b);
    } else {
      assert a + b == b;
    }
  }

  /** Filtering the filtered offers removes nothing more. */
  lemma {:induction false} FilterIdempotent(c: Config, offers: seq<Offer>)
    ensures FilterOffers(c, FilterOffers(c, offers)) == FilterOffers(c, offers)
    decreases |offers|
  {
    if |offers| > 0 {
      FilterIdempotent(c, offers[1..]);
      var rest := FilterOffers(c, offers[1..]);
      if Allowed(c, offers[0]) {
        assert ([offers[0]] + rest)[0] == offers[0] && ([offers[0]] + rest)[1..] == rest;
      }
    }
  }

  /** Offers that are all eligible pass the filter unchanged. */
  lemma {:induction false} FilterAllAllowed(c: Config, offers: seq<Offer>)
    requires forall i :: 0 <= i < |offers| ==> Allowed(c, offers[i])
    ensures FilterOffers(c, offers) == offers
    decreases |offers|
  {
    if |offers| > 0 {
      assert forall i :: 1 <= i < |offers| ==> offers[1..][i - 1] == offers[i];
      FilterAllAllowed(c, offers[1..]);
      assert offers == [offers[0]] + offers[1..];
    }
  }

  /** Filtering keeps every offer exactly when each one is eligible; with no
      blacklist configured, every offer is kept. */
  lemma FilterKeepsAll(c: Config, offers: seq<Offer>)
    ensures FilterOffers(c, offers) == offers <==> forall i :: 0 <= i < |offers| ==> Allowed(c, offers[i])
    ensures c.badHosts.None? && c.badMachines.None? ==> FilterOffers(c, offers) == offers
  {
    if forall i :: 0 <= i < |offers| ==> Allowed(c, offers[i]) {
      FilterAllAllowed(c, offers);
    } else {
      var i :| 0 <= i < |offers| && !Allowed(c, offers[i]);
      assert offers[i] in offers;
    }
  }

  // ---------------------------------------------------------------------------
  // create_instances

  /** The answer of a create request: `request(k, offerId)` is what the `k`-th
      create request of the call, made for offer `offerId`, returns — the new
      instance (contract) id, or the failure. */
  type Requester = (nat, U64) -> Result<U64, string>

  /** A rented instance as `create_instances` reports it. */
  type Rented = (U64, VastInstance)

  /** Why `create_instances` failed: the offers search failed (the error gets
      the context "Call to request offers"). */
  datatype CreateError = OffersRequestFailed(cause: string)

  /** The outcome of requesting the offer at position `k`: the rented instance
      when the request succeeds, nothing when it fails. */
  function Attempt(offers: seq<Offer>, k: nat, request: Requester): (r: seq<Rented>)
    requires k < |offers|
    ensures |r| <= 1
    ensures |r| == 1 <==> request(k, offers[k].id).Ok?
    ensures |r| == 1 ==> r[0].0 == request(k, offers[k].id).value && r[0].1 == NewInstance(r[0].0, offers[k])
  {
    match request(k, offers[k].id)
    case Ok(iid) => [(iid, NewInstance(iid, offers[k]))]
    case Err(_) => []
  }

  /** The instances rented if every offer in `offers` is requested in turn:
      one per successful request, in request order. */
  function Successes(offers: seq<Offer>, request: Requester): (r: seq<Rented>)
    ensures |r| <= |offers|
    decreases |offers|
  {
    if |offers| == 0 then []
    else
      var k := |offers| - 1;
      Successes(offers[..k], request) + Attempt(offers, k, request)
  }

  /** The answers for positions `k` on depend only on the offers there, so the
      successes of a prefix are read off the longer list. */
  lemma SuccessesStep(offers: seq<Offer>, i: nat, request: Requester)
    requires i < |offers|
    ensures Successes(offers[..i + 1], request) == Successes(offers[..i], request) + Attempt(offers, i, request)
  {
    assert offers[..i + 1][..i] == offers[..i];
    assert Attempt(offers[..i + 1], i, request) == Attempt(offers, i, request) by {
      assert offers[..i + 1][i] == offers[i];
    }
  }

  /** Requesting more offers only adds instances at the end. */
  lemma {:induction false} SuccessesPrefix(offers: seq<Offer>, i: nat, j: nat, request: Requester)
    requires i <= j <= |offers|
    ensures Successes(offers[..i], request) <= Successes(offers[..j], request)
    decreases j - i
  {
    if i < j {
      SuccessesPrefix(offers, i, j - 1, request);
      SuccessesStep(offers, j - 1, request);
    }
  }

  /** Each rented instance carries its instance id as the key, is not marked
      for dropping, and comes from one of the requested offers. */
  lemma {:induction false} SuccessesWellFormed(offers: seq<Offer>, request: Requester)
    ensures forall p :: p in Successes(offers, request) ==>
              p.0 == p.1.instanceId && !p.1.shouldDrop && p.1.offer in offers
    decreases |offers|
  {
    if |offers| > 0 {
      var k := |offers| - 1;
      SuccessesWellFormed(offers[..k], request);
      forall p | p in Successes(offers, request)
        ensures p.0 == p.1.instanceId && !p.1.shouldDrop && p.1.offer in offers
      {
        if p in Successes(offers[..k], request) {
          assert p.1.offer in offers[..k];
        }
      }
    }
  }

  /** The rented instances' offers, in order. */
  function OffersOf(rs: seq<Rented>): (r: seq<Offer>)
    ensures |r| == |rs| && forall i :: 0 <= i < |rs| ==> r[i] == rs[i].1.offer
  {
    seq(|rs|, i requires 0 <= i < |rs| => rs[i].1.offer)
  }

  /** Instances are rented in the order of their offers. */
  lemma {:induction false} SuccessesInOfferOrder(offers: seq<Offer>, request: Requester)
    ensures IsSubsequence(OffersOf(Successes(offers, request)), offers)
    decreases |offers|
  {
    if |offers| > 0 {
      var k := |offers| - 1;
      var before := Successes(offers[..k], request);
      var step := Attempt(offers, k, request);
      SuccessesInOfferOrder(offers[..k], request);
      assert offers == offers[..k] + [offers[k]];
      if |step| == 1 {
        assert OffersOf(before + step) == OffersOf(before) + [offers[k]];
        SubsequenceAppendBoth(OffersOf(before), offers[..k], offers[k]);
      } else {
        assert before + step == before;
        SubsequenceAppend(OffersOf(before), offers[..k], [offers[k]]);
      }
    }
  }

  /** A common last element can be added to both sides. */
  lemma {:induction false} SubsequenceAppendBoth<T>(a: seq<T>, b: seq<T>, x: T)
    requires IsSubsequence(a, b)
    ensures IsSubsequence(a + [x], b + [x])
    decreases |b|
  {
    if |a| == 0 {
      assert IsSubsequence([x], [x]) by {
        assert [x][1..] == [];
      }
      SubsequencePrepend([x], b, [x]);
      assert a + [x] == [x];
    } else {
      assert (a + [x])[0] == a[0] && (a + [x])[1..] == a[1..] + [x];
      assert (b + [x])[0] == b[0] && (b + [x])[1..] == b[1..] + [x];
      if a[0] == b[0] {
        SubsequenceAppendBoth(a[1..], b[1..], x);
      } else {
        SubsequenceAppendBoth(a, b[1..], x);
      }
    }
  }

  /** At most `count` of the successes, from the front. */
  function Take(rs: seq<Rented>, count: nat): (r: seq<Rented>)
    ensures r <= rs && |r| <= count
    ensures |r| == count || r == rs
  {
    if |rs| <= count then rs else rs[..count]
  }

  /** The request loop of `create_instances`: the offers are requested in
      order until `count` instances are rented or the offers run out. `tried`
      is the number of create requests made. */
  method RequestInOrder(offers: seq<Offer>, count: nat, request: Requester)
      returns (instances: seq<Rented>, tried: nat)
    requires count > 0
    ensures tried <= |offers|
    // exactly the instances of the requests made ...
    ensures instances == Successes(offers[..tried], request)
    // ... which are the first `count` of all successes
    ensures instances == Take(Successes(offers, request), count)
    // and no request is made once `count` instances are rented
    ensures tried < |offers| ==> |instances| == count
    ensures tried > 0 ==> |Successes(offers[..tried - 1], request)| < count
  {
    instances := [];
    tried := 0;
    assert offers[..0] == [];
    while tried < |offers|
      invariant 0 <= tried <= |offers|
      invariant instances == Successes(offers[..tried], request)
      invariant |instances| < count
      invariant tried > 0 ==> |Successes(offers[..tried - 1], request)| < count
    {
      var step := Attempt(offers, tried, request);
      assert Successes(offers[..tried + 1], request) == instances + step by {
        SuccessesStep(offers, tried, request);
      }
      instances := instances + step;
      tried := tried + 1;
      if |instances| == count {
        break;
      }
    }
    assert instances == Take(Successes(offers, request), count) by {
      CreateInstancesTakesFirst(offers, tried, count, request);
    }
  }

  /** `create_instances(count)`, given the offers search's answer `found` and
      the answers of the create requests. No offer is searched for when no
      instance is wanted; otherwise the eligible offers are requested in order
      (see `RequestInOrder`). */
  method CreateInstances(config: Config, count: nat, found: Result<seq<Offer>, string>, request: Requester)
      returns (r: Result<seq<Rented>, CreateError>, tried: nat)
    ensures count == 0 ==> r == Ok([]) && tried == 0
    ensures count > 0 && found.Err? ==> r == Err(OffersRequestFailed(found.error)) && tried == 0
    ensures count > 0 && found.Ok? ==>
              && r.Ok?
              && r.value == Take(Successes(FilterOffers(config, found.value), request), count)
              && tried <= |FilterOffers(config, found.value)|
              && r.value == Successes(FilterOffers(config, found.value)[..tried], request)
              && (tried < |FilterOffers(config, found.value)| ==> |r.value| == count)
              && (tried > 0 ==> |Successes(FilterOffers(config, found.value)[..tried - 1], request)| < count)
    ensures r.Ok? ==> |r.value| <= count
    ensures r.Ok? ==> forall p :: p in r.value ==> Allowed(config, p.1.offer) && p.0 == p.1.instanceId && !p.1.shouldDrop
  {
    tried := 0;
    if count == 0 {
      return Ok([]), tried;
    }
    if found.Err? {
      return Err(OffersRequestFailed(found.error)), tried;
    }
    var offers := FilterOffers(config, found.value);
    var instances;
    instances, tried := RequestInOrder(offers, count, request);
    r := Ok(instances);
    SuccessesWellFormed(offers[..tried], request);
    forall p | p in instances
      ensures Allowed(config, p.1.offer)
    {
      assert p.1.offer in offers[..tried];
    }
  }

  /** Stopping at the first `count` successes, or at the end of the offers,
      yields the first `count` successes of the whole list. */
  lemma CreateInstancesTakesFirst(offers: seq<Offer>, tried: nat, count: nat, request: Requester)
    requires tried <= |offers|
    requires |Successes(offers[..tried], request)| <= count
    requires tried < |offers| ==> |Successes(offers[..tried], request)| == count
    ensures Successes(offers[..tried], request) == Take(Successes(offers, request), count)
  {
    var all := Successes(offers, request);
    var got := Successes(offers[..tried], request);
    assert offers[..|offers|] == offers;
    SuccessesPrefix(offers, tried, |offers|, request);
    assert got == all[..|got|];
  }
}
