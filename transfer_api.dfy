/**
 * The transfer provider's REST API, seen from the job: an abstract service holding the pending
 * transfers, the quotes and the live rates, that answers the six requests the job sends
 * (transferwise.go:174-317). Every request is appended to `requests`, so that contracts can say
 * which calls were made. An endpoint listed in `failing` answers every request with that error
 * text; this stands for transport errors, non-200 answers and undecodable bodies alike.
 */
module TransferApi {
  import opened Results
  import opened Records
  import opened Paths

  datatype Endpoint =
    | ListTransfersEndpoint
    | LiveRateEndpoint
    | CreateQuoteEndpoint
    | QuoteDetailEndpoint
    | CreateTransferEndpoint
    | CancelTransferEndpoint

  datatype Request =
    | ListTransfersRequest(limit: nat, offset: nat, status: string)
    | LiveRateRequest(source: string, target: string)
    | QuoteRequest(quote: CreateQuoteRequest)
    | QuoteDetailRequest(path: string)
    | TransferRequest(transfer: CreateTransferRequest)
    | CancelRequest(path: string)
  {
    /** Requests that change the provider's state. */
    predicate Writes() {
      QuoteRequest? || TransferRequest? || CancelRequest?
    }
  }

  /** No request in rs changes the provider's state. */
  predicate ReadOnly(rs: seq<Request>) {
    forall i :: 0 <= i < |rs| ==> !rs[i].Writes()
  }

  /** The provider's answer to a request naming an unknown transfer or quote. */
  const NotFound := "404 : <nil>"
  /** The provider's answer to a quote for a currency pair it has no rate for. */
  const BadRequest := "400 : <nil>"

  /** Identifiers the provider gives to the quotes it creates. */
  function QuoteId(n: nat): string {
    "quote-" + Decimal(n)
  }

  lemma QuoteIdInjective(a: nat, b: nat)
    requires QuoteId(a) == QuoteId(b)
    ensures a == b
  {
    assert Decimal(a) == QuoteId(a)[6..];
    assert Decimal(b) == QuoteId(b)[6..];
    DecimalInjective(a, b);
  }

  predicate Distinct(s: seq<nat>) {
    forall i, j :: 0 <= i < j < |s| ==> s[i] != s[j]
  }

  /** s without x. */
  function Without(s: seq<nat>, x: nat): (r: seq<nat>)
    ensures forall y :: y in r <==> y in s && y != x
  {
    if s == [] then []
    else if s[0] == x then Without(s[1..], x)
    else [s[0]] + Without(s[1..], x)
  }

  lemma {:induction false} WithoutKeepsDistinct(s: seq<nat>, x: nat)
    requires Distinct(s)
    ensures Distinct(Without(s, x))
  {
    if s != [] {
      var tail := s[1..];
      assert Distinct(tail) by {
        forall i, j | 0 <= i < j < |tail| ensures tail[i] != tail[j] {
          assert tail[i] == s[i + 1] && tail[j] == s[j + 1];
        }
      }
      WithoutKeepsDistinct(tail, x);
      if s[0] != x {
        assert s[0] !in tail by {
          forall k | 0 <= k < |tail| ensures tail[k] != s[0] {
            assert tail[k] == s[k + 1];
          }
        }
        var rest := Without(tail, x);
        var r := Without(s, x);
        assert r == [s[0]] + rest;
        forall i, j | 0 <= i < j < |r| ensures r[i] != r[j] {
          assert r[j] == rest[j - 1] && r[j] in rest;
          if i > 0 {
            assert r[i] == rest[i - 1];
          }
        }
      }
    }
  }

  /** A transfer created from a stored quote. */
  function TransferFromQuote(id: nat, q: QuoteDetail, req: CreateTransferRequest): Transfer {
    Transfer(id, q.profile, req.targetAccount, q.sourceAmount, q.rate, req.quoteUuid,
             q.sourceCurrency, q.targetCurrency, req.details)
  }

  /** The transfers stored under the given ids, in the order of the ids. */
  function Lookup(m: map<nat, Transfer>, ids: seq<nat>): (ts: seq<Transfer>)
    requires forall i :: 0 <= i < |ids| ==> ids[i] in m
    ensures |ts| == |ids|
    ensures forall i :: 0 <= i < |ts| ==> ts[i] == m[ids[i]]
  {
    if ids == [] then [] else [m[ids[0]]] + Lookup(m, ids[1..])
  }

  class Provider {
    /** Pending transfers by id, and the order in which the listing returns them. */
    var transfers: map<nat, Transfer>
    var order: seq<nat>
    var nextId: nat
    var quotes: map<string, QuoteDetail>
    var nextQuote: nat
    var rates: map<(string, string), seq<LiveRate>>
    var failing: map<Endpoint, string>
    var requests: seq<Request>

    ghost predicate Valid()
      reads this`transfers, this`order, this`nextId, this`quotes, this`nextQuote
    {
      && Distinct(order)
      && (forall id :: id in transfers <==> id in order)
      && (forall id :: id in transfers ==> transfers[id].id == id && id < nextId)
      && (forall n: nat :: QuoteId(n) in quotes ==> n < nextQuote)
    }

    /** A provider with no pending transfers, no quotes and no requests yet. */
    constructor(rates: map<(string, string), seq<LiveRate>>, failing: map<Endpoint, string>)
      ensures Valid()
      ensures transfers == map[] && order == [] && quotes == map[] && requests == []
      ensures this.rates == rates && this.failing == failing
    {
      transfers := map[];
      order := [];
      nextId := 0;
      quotes := map[];
      nextQuote := 0;
      this.rates := rates;
      this.failing := failing;
      requests := [];
    }

    /** Up to `limit` pending transfers, starting at `offset` of the listing order. */
    function Listing(limit: nat, offset: nat): (ts: seq<Transfer>)
      reads this`transfers, this`order, this`nextId, this`quotes, this`nextQuote
      requires Valid()
      ensures |ts| <= limit
      ensures |ts| == (if offset < |order| then (if |order| - offset < limit then |order| - offset else limit) else 0)
      ensures forall i :: 0 <= i < |ts| ==> offset + i < |order| && ts[i] == transfers[order[offset + i]]
    {
      var lo := if offset < |order| then offset else |order|;
      var hi := if offset + limit < |order| then offset + limit else |order|;
      var ids := order[lo..hi];
      assert forall i :: 0 <= i < |ids| ==> ids[i] == order[lo + i] && ids[i] in transfers;
      Lookup(transfers, ids)
    }

    function ListAnswer(limit: nat, offset: nat): Result<seq<Transfer>>
      reads this`transfers, this`order, this`nextId, this`quotes, this`nextQuote, this`failing
      requires Valid()
    {
      if ListTransfersEndpoint in failing then Err(failing[ListTransfersEndpoint])
      else Ok(Listing(limit, offset))
    }

    function LiveRateAnswer(source: string, target: string): Result<seq<LiveRate>>
      reads this`rates, this`failing
    {
      if LiveRateEndpoint in failing then Err(failing[LiveRateEndpoint])
      else if (source, target) in rates then Ok(rates[(source, target)])
      else Ok([])
    }

    /** A new quote at the pair's current rate, under the next quote id. */
    function QuoteAnswer(req: CreateQuoteRequest): Result<QuoteDetail>
      reads this`nextQuote, this`rates, this`failing
    {
      var pair := (req.sourceCurrency, req.targetCurrency);
      if CreateQuoteEndpoint in failing then Err(failing[CreateQuoteEndpoint])
      else if pair !in rates || rates[pair] == [] then Err(BadRequest)
      else Ok(QuoteDetail(QuoteId(nextQuote), rates[pair][0].rate, req.sourceAmount,
                          req.sourceCurrency, req.targetCurrency, req.profile, "", []))
    }

    function QuoteDetailAnswer(path: string): Result<QuoteDetail>
      reads this`quotes, this`failing
    {
      if QuoteDetailEndpoint in failing then Err(failing[QuoteDetailEndpoint])
      else match ParseQuoteDetailPath(path)
        case Some(id) => if id in quotes then Ok(quotes[id]) else Err(NotFound)
        case None => Err(NotFound)
    }

    function TransferAnswer(req: CreateTransferRequest): Result<Transfer>
      reads this`nextId, this`quotes, this`failing
    {
      if CreateTransferEndpoint in failing then Err(failing[CreateTransferEndpoint])
      else if req.quoteUuid !in quotes then Err(NotFound)
      else Ok(TransferFromQuote(nextId, quotes[req.quoteUuid], req))
    }

    /** The transfer a cancel request removes. */
    function CancelAnswer(path: string): Result<Transfer>
      reads this`transfers, this`failing
    {
      if CancelTransferEndpoint in failing then Err(failing[CancelTransferEndpoint])
      else match ParseCancelPath(path)
        case Some(id) => if id in transfers then Ok(transfers[id]) else Err(NotFound)
        case None => Err(NotFound)
    }

    method ListTransfers(limit: nat, offset: nat, status: string) returns (r: Result<seq<Transfer>>)
      requires Valid()
      modifies this`requests
      ensures requests == old(requests) + [ListTransfersRequest(limit, offset, status)]
      ensures r == ListAnswer(limit, offset)
    {
      requests := requests + [ListTransfersRequest(limit, offset, status)];
      r := ListAnswer(limit, offset);
    }

    method GetLiveRate(source: string, target: string) returns (r: Result<seq<LiveRate>>)
      modifies this`requests
      ensures requests == old(requests) + [LiveRateRequest(source, target)]
      ensures r == LiveRateAnswer(source, target)
    {
      requests := requests + [LiveRateRequest(source, target)];
      r := LiveRateAnswer(source, target);
    }

    method GetQuoteDetail(path: string) returns (r: Result<QuoteDetail>)
      modifies this`requests
      ensures requests == old(requests) + [QuoteDetailRequest(path)]
      ensures r == QuoteDetailAnswer(path)
    {
      requests := requests + [QuoteDetailRequest(path)];
      r := QuoteDetailAnswer(path);
    }

    /** Stores the new quote under an id no earlier quote has. */
    method CreateQuote(req: CreateQuoteRequest) returns (r: Result<QuoteDetail>)
      requires Valid()
      modifies this`requests, this`quotes, this`nextQuote
      ensures Valid()
      ensures requests == old(requests) + [QuoteRequest(req)]
      ensures r == old(QuoteAnswer(req))
      ensures r.Ok? ==> r.value.id !in old(quotes) && quotes == old(quotes)[r.value.id := r.value]
      ensures r.Err? ==> quotes == old(quotes) && nextQuote == old(nextQuote)
    {
      requests := requests + [QuoteRequest(req)];
      r := QuoteAnswer(req);
      if r.Ok? {
        var k := nextQuote;
        forall n | QuoteId(n) == QuoteId(k)
          ensures n == k
        {
          QuoteIdInjective(n, k);
        }
        quotes := quotes[r.value.id := r.value];
        nextQuote := k + 1;
      }
    }

    /** Books a new pending transfer from a stored quote; it is listed first. */
    method CreateTransfer(req: CreateTransferRequest) returns (r: Result<Transfer>)
      requires Valid()
      modifies this`requests, this`transfers, this`order, this`nextId
      ensures Valid()
      ensures requests == old(requests) + [TransferRequest(req)]
      ensures r == old(TransferAnswer(req))
      ensures r.Ok? ==> r.value.id !in old(transfers) && transfers == old(transfers)[r.value.id := r.value]
                        && order == [r.value.id] + old(order)
      ensures r.Err? ==> transfers == old(transfers) && order == old(order) && nextId == old(nextId)
    {
      requests := requests + [TransferRequest(req)];
      r := TransferAnswer(req);
      if r.Ok? {
        var id, rest := nextId, order;
        assert id !in rest;
        forall i, j | 0 <= i < j < |[id] + rest| ensures ([id] + rest)[i] != ([id] + rest)[j] {
          assert ([id] + rest)[j] == rest[j - 1];
        }
        transfers := transfers[nextId := r.value];
        order := [nextId] + order;
        nextId := nextId + 1;
      }
    }

    /** Removes the transfer named by the path from the pending ones. */
    method Cancel(path: string) returns (r: Result<Transfer>)
      requires Valid()
      modifies this`requests, this`transfers, this`order
      ensures Valid()
      ensures requests == old(requests) + [CancelRequest(path)]
      ensures r == old(CancelAnswer(path))
      ensures r.Ok? ==> transfers == old(transfers) - {r.value.id} && order == Without(old(order), r.value.id)
      ensures r.Err? ==> transfers == old(transfers) && order == old(order)
    {
      requests := requests + [CancelRequest(path)];
      r := CancelAnswer(path);
      if r.Ok? {
        WithoutKeepsDistinct(order, r.value.id);
        transfers := transfers - {r.value.id};
        order := Without(order, r.value.id);
      }
    }
  }
}
