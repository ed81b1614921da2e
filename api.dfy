/**
 * The relay client (ffrelay-api/src/api.rs). The HTTP transport is replaced
 * by the server's answers, which every operation takes as parameters, and by
 * a log of the requests the client sends, oldest first.
 */
module Api {
  import opened Errors
  import opened Types
  import Decimal

  const ApiBase: string := "https://relay.firefox.com/api"

  /** The two sub-resources that hold relays. */
  datatype Endpoint = Standard | Domain

  function EndpointPath(e: Endpoint): string {
    match e
    case Standard => "v1/relayaddresses"
    case Domain => "v1/domainaddresses"
  }

  // URL templates: no trailing slash to list or delete, one to create or patch.

  /** The collection URL: below the API base, without a trailing slash. */
  function ListUrl(e: Endpoint): (u: string)
    ensures |u| > |ApiBase| + 1 && u[..|ApiBase| + 1] == ApiBase + "/"
    ensures u[|u| - 1] != '/'
  {
    ApiBase + "/" + EndpointPath(e)
  }

  /** The creation URL is the collection URL with a trailing slash. */
  function CreateUrl(e: Endpoint): (u: string)
    ensures u == ListUrl(e) + "/"
  {
    ApiBase + "/" + EndpointPath(e) + "/"
  }

  /** The deletion URL appends the id to the creation URL, so it ends in a digit. */
  function DeleteUrl(e: Endpoint, id: u64): (u: string)
    ensures u == CreateUrl(e) + Decimal.ToDecimal(id)
    ensures Decimal.IsDigit(u[|u| - 1])
  {
    ApiBase + "/" + EndpointPath(e) + "/" + Decimal.ToDecimal(id)
  }

  /** The update URL is the deletion URL with a trailing slash. */
  function PatchUrl(e: Endpoint, id: u64): (u: string)
    ensures u == DeleteUrl(e, id) + "/"
  {
    ApiBase + "/" + EndpointPath(e) + "/" + Decimal.ToDecimal(id) + "/"
  }

  /** Where a delete URL holds the letter that tells the sub-resources apart, and where its id starts. */
  lemma DeleteUrlParts(e: Endpoint, id: u64)
    ensures |DeleteUrl(e, id)| > |ApiBase| + 4
    ensures DeleteUrl(e, id)[|ApiBase| + 4] == EndpointPath(e)[3]
    ensures DeleteUrl(e, id)[|ApiBase| + |EndpointPath(e)| + 2..] == Decimal.ToDecimal(id)
  {
    var u := DeleteUrl(e, id);
    assert u == (ApiBase + "/" + EndpointPath(e) + "/") + Decimal.ToDecimal(id);
  }

  /** A delete URL names exactly one sub-resource and one id. */
  lemma DeleteUrlInjective(e1: Endpoint, id1: u64, e2: Endpoint, id2: u64)
    requires DeleteUrl(e1, id1) == DeleteUrl(e2, id2)
    ensures e1 == e2 && id1 == id2
  {
    DeleteUrlParts(e1, id1);
    DeleteUrlParts(e2, id2);
    assert EndpointPath(e1)[3] == EndpointPath(e2)[3];
    Decimal.ToDecimalInjective(id1, id2);
  }

  /** A patch URL names exactly one sub-resource and one id. */
  lemma PatchUrlInjective(e1: Endpoint, id1: u64, e2: Endpoint, id2: u64)
    requires PatchUrl(e1, id1) == PatchUrl(e2, id2)
    ensures e1 == e2 && id1 == id2
  {
    var u1, u2 := PatchUrl(e1, id1), PatchUrl(e2, id2);
    assert u1[..|u1| - 1] == DeleteUrl(e1, id1);
    assert u2[..|u2| - 1] == DeleteUrl(e2, id2);
    DeleteUrlInjective(e1, id1, e2, id2);
  }

  datatype Verb = Get | Post | Patch | Delete

  datatype Body =
    | NoBody
    | CreateBody(request: RelayRequest)
    // A PATCH carries only the `enabled` flag.
    | ToggleBody(enabled: bool)

  /** One request as sent; `authorization` is the value of its authorization header. */
  datatype Request = Request(verb: Verb, url: string, authorization: string, body: Body) {
    predicate IsMutation() {
      verb == Patch || verb == Delete
    }
  }

  /** The number of DELETE and PATCH requests in `reqs`. */
  function MutationCount(reqs: seq<Request>): nat {
    if reqs == [] then 0
    else (if reqs[0].IsMutation() then 1 else 0) + MutationCount(reqs[1..])
  }

  lemma {:induction false} MutationCountAppend(a: seq<Request>, b: seq<Request>)
    ensures MutationCount(a + b) == MutationCount(a) + MutationCount(b)
  {
    if a == [] {
      assert a + b == b;
    } else {
      assert (a + b)[1..] == a[1..] + b;
      MutationCountAppend(a[1..], b);
    }
  }

  /**
   * What the answer to a GET or POST decodes to, or how getting it failed:
   * `TransportFailed` when sending failed or the body is not JSON at all,
   * `DecodeFailed` when the body is JSON of another shape. A non-2xx answer
   * is not singled out: it ends in one of the three, depending on its body.
   */
  datatype Reply<+T> = Decoded(value: T) | TransportFailed | DecodeFailed

  /** The answer to a DELETE or PATCH: a status code, or a failure to send. */
  datatype Response = Responded(status: u16) | SendFailed

  /** A 2xx status: exactly the codes whose hundreds digit is 2. */
  function IsSuccess(status: u16): (b: bool)
    ensures b <==> status / 100 == 2
  {
    200 <= status <= 299
  }

  /** The authorization header value: the "Token" scheme, a space, then the token verbatim. */
  function AuthorizationHeader(token: string): (h: string)
    ensures |h| == |token| + 6 && h[..6] == "Token " && h[6..] == token
  {
    "Token " + token
  }

  /** The result of a GET: the decoded value, or the transport or decoding error. */
  function FromReply<T>(reply: Reply<T>): (r: Result<T>)
    ensures r.Ok? <==> reply.Decoded?
    ensures reply.Decoded? ==> r.value == reply.value
    ensures reply.TransportFailed? ==> r == Err(HttpError)
    ensures reply.DecodeFailed? ==> r == Err(Serialization)
  {
    match reply
    case Decoded(v) => Ok(v)
    case TransportFailed => Err(HttpError)
    case DecodeFailed => Err(Serialization)
  }

  /** The result of a creation: the new relay's address, or the transport or decoding error. */
  function CreatedAddress(reply: Reply<EmailRelay>): (r: Result<string>)
    ensures r.Ok? <==> reply.Decoded?
    ensures reply.Decoded? ==> r.value == reply.value.fullAddress
    ensures reply.TransportFailed? ==> r == Err(HttpError)
    ensures reply.DecodeFailed? ==> r == Err(Serialization)
  {
    match reply
    case Decoded(relay) => Ok(relay.fullAddress)
    case TransportFailed => Err(HttpError)
    case DecodeFailed => Err(Serialization)
  }

  /** The result of a DELETE: success exactly on a 2xx status, otherwise that status or the transport error. */
  function DeletionResult(response: Response): (r: Result<()>)
    ensures r.Ok? <==> response.Responded? && IsSuccess(response.status)
    ensures response.Responded? && !IsSuccess(response.status) ==>
      r == Err(EmailDeletionFailure(response.status))
    ensures response.SendFailed? ==> r == Err(HttpError)
  {
    match response
    case Responded(status) => if IsSuccess(status) then Ok(()) else Err(EmailDeletionFailure(status))
    case SendFailed => Err(HttpError)
  }

  /** The result of a PATCH: success exactly on a 2xx status, otherwise that status or the transport error. */
  function UpdateResult(response: Response): (r: Result<()>)
    ensures r.Ok? <==> response.Responded? && IsSuccess(response.status)
    ensures response.Responded? && !IsSuccess(response.status) ==>
      r == Err(EmailUpdateFailure(response.status))
    ensures response.SendFailed? ==> r == Err(HttpError)
  {
    match response
    case Responded(status) => if IsSuccess(status) then Ok(()) else Err(EmailUpdateFailure(status))
    case SendFailed => Err(HttpError)
  }

  /** The relays a GET contributes to a listing: none when it failed. */
  function Harvest(reply: Reply<seq<EmailRelay>>): (h: seq<EmailRelay>)
    ensures reply.Decoded? ==> h == reply.value
    ensures !reply.Decoded? ==> h == []
  {
    if reply.Decoded? then reply.value else []
  }

  /** What a listing collects from the answers of its two GETs. */
  function Collected(std: Reply<seq<EmailRelay>>, dom: Reply<seq<EmailRelay>>): (c: seq<EmailRelay>)
    ensures |c| == |Harvest(std)| + |Harvest(dom)|
    ensures multiset(c) == multiset(Harvest(std)) + multiset(Harvest(dom))
  {
    Harvest(std) + Harvest(dom)
  }

  /**
   * The standard relays come first, then the domain relays, each group in
   * server order; a failed GET adds nothing, so two failures give nothing.
   */
  lemma CollectedLayout(std: Reply<seq<EmailRelay>>, dom: Reply<seq<EmailRelay>>)
    ensures |Collected(std, dom)| == |Harvest(std)| + |Harvest(dom)|
    ensures Collected(std, dom)[..|Harvest(std)|] == Harvest(std)
    ensures Collected(std, dom)[|Harvest(std)|..] == Harvest(dom)
    ensures !std.Decoded? ==> Collected(std, dom) == Harvest(dom)
    ensures !dom.Decoded? ==> Collected(std, dom) == Harvest(std)
    ensures !std.Decoded? && !dom.Decoded? ==> Collected(std, dom) == []
  {
  }

  /** The position of the first relay with `id`, or `|relays|` when there is none. */
  function FirstIndexWithId(relays: seq<EmailRelay>, id: u64): (k: nat)
    ensures k <= |relays|
    ensures forall j :: 0 <= j < k ==> relays[j].id != id
    ensures k < |relays| ==> relays[k].id == id
    decreases |relays|
  {
    if |relays| == 0 || relays[0].id == id then 0
    else 1 + FirstIndexWithId(relays[1..], id)
  }

  /** The first relay with `id` in `relays`, or `RelayIdNotFound` exactly when there is none. */
  function FindById(relays: seq<EmailRelay>, id: u64): (r: Result<EmailRelay>)
    ensures r.Err? <==> forall j :: 0 <= j < |relays| ==> relays[j].id != id
    ensures r.Err? ==> r.error == RelayIdNotFound
    ensures r.Ok? ==> r.value.id == id
    ensures r.Ok? ==> exists k :: 0 <= k < |relays| && relays[k] == r.value &&
                                (forall j :: 0 <= j < k ==> relays[j].id != id)
  {
    var k := FirstIndexWithId(relays, id);
    if k < |relays| then Ok(relays[k]) else Err(RelayIdNotFound)
  }

  /** The sub-resource a found relay is mutated through: decided by its address alone. */
  function RouteFor(relay: EmailRelay): (e: Endpoint)
    ensures e == Domain <==> exists i :: DomainSplitAt(relay.fullAddress, i)
  {
    IsDomainIff(relay);
    if relay.IsDomain() then Domain else Standard
  }

  /** The two GETs of every listing, standard sub-resource first. */
  function ListRequests(auth: string): seq<Request> {
    [Request(Get, ListUrl(Standard), auth, NoBody), Request(Get, ListUrl(Domain), auth, NoBody)]
  }

  /** The requests a deletion sends: the listing, then one DELETE when the id was found. */
  function DeleteTrace(auth: string, id: u64, std: Reply<seq<EmailRelay>>, dom: Reply<seq<EmailRelay>>): (t: seq<Request>)
    ensures |t| == if FindById(Collected(std, dom), id).Ok? then 3 else 2
    ensures t[..2] == ListRequests(auth)
  {
    ListRequests(auth) +
      match FindById(Collected(std, dom), id)
      case Ok(relay) => [Request(Delete, DeleteUrl(RouteFor(relay), id), auth, NoBody)]
      case Err(_) => []
  }

  /** A deletion fails with `RelayIdNotFound` exactly when no listed relay has `id`, and succeeds only on a 2xx answer. */
  function DeleteOutcome(id: u64, std: Reply<seq<EmailRelay>>, dom: Reply<seq<EmailRelay>>, response: Response): (r: Result<()>)
    ensures r == Err(RelayIdNotFound) <==> FindById(Collected(std, dom), id).Err?
    ensures r.Ok? ==> response.Responded? && IsSuccess(response.status)
  {
    match FindById(Collected(std, dom), id)
    case Ok(_) => DeletionResult(response)
    case Err(e) => Err(e)
  }

  /** The requests an enable or disable sends: the listing, then one PATCH when the id was found. */
  function ToggleTrace(auth: string, id: u64, enabled: bool, std: Reply<seq<EmailRelay>>, dom: Reply<seq<EmailRelay>>): (t: seq<Request>)
    ensures |t| == if FindById(Collected(std, dom), id).Ok? then 3 else 2
    ensures t[..2] == ListRequests(auth)
  {
    ListRequests(auth) +
      match FindById(Collected(std, dom), id)
      case Ok(relay) => [Request(Patch, PatchUrl(RouteFor(relay), id), auth, ToggleBody(enabled))]
      case Err(_) => []
  }

  /** An enable or disable fails with `RelayIdNotFound` exactly when no listed relay has `id`, and succeeds only on a 2xx answer. */
  function ToggleOutcome(id: u64, std: Reply<seq<EmailRelay>>, dom: Reply<seq<EmailRelay>>, response: Response): (r: Result<()>)
    ensures r == Err(RelayIdNotFound) <==> FindById(Collected(std, dom), id).Err?
    ensures r.Ok? ==> response.Responded? && IsSuccess(response.status)
  {
    match FindById(Collected(std, dom), id)
    case Ok(_) => UpdateResult(response)
    case Err(e) => Err(e)
  }

  /** A deletion sends one DELETE when the id is listed and none otherwise; nothing but GETs precedes it. */
  lemma DeleteMutatesOnlyWhenFound(auth: string, id: u64, std: Reply<seq<EmailRelay>>, dom: Reply<seq<EmailRelay>>)
    ensures DeleteTrace(auth, id, std, dom)[..2] == ListRequests(auth)
    ensures MutationCount(DeleteTrace(auth, id, std, dom)) ==
      if exists j :: 0 <= j < |Collected(std, dom)| && Collected(std, dom)[j].id == id then 1 else 0
  {
    var trace := DeleteTrace(auth, id, std, dom);
    var tail := trace[2..];
    assert trace == ListRequests(auth) + tail;
    MutationCountAppend(ListRequests(auth), tail);
  }

  /** The DELETE of a listed id goes to the domain sub-resource exactly when the first relay with that id is a domain relay. */
  lemma DeleteTargetsRoute(auth: string, id: u64, std: Reply<seq<EmailRelay>>, dom: Reply<seq<EmailRelay>>, relay: EmailRelay)
    requires FindById(Collected(std, dom), id) == Ok(relay)
    ensures |DeleteTrace(auth, id, std, dom)| == 3
    ensures DeleteTrace(auth, id, std, dom)[2].verb == Delete
    ensures DeleteTrace(auth, id, std, dom)[2].body == NoBody
    ensures DeleteTrace(auth, id, std, dom)[2].url == DeleteUrl(if relay.IsDomain() then Domain else Standard, id)
  {
  }

  /** The whole request sequence of a deletion whose id resolves to `relay`, routed to `e`. */
  lemma DeletesFoundRelay(auth: string, id: u64, std: Reply<seq<EmailRelay>>, dom: Reply<seq<EmailRelay>>, relay: EmailRelay, e: Endpoint)
    requires FindById(Collected(std, dom), id) == Ok(relay)
    requires e == Domain <==> relay.IsDomain()
    ensures DeleteTrace(auth, id, std, dom) == ListRequests(auth) + [Request(Delete, DeleteUrl(e, id), auth, NoBody)]
  {
  }

  /** Every way a deletion can end, and exactly when. */
  lemma DeleteOutcomeCases(id: u64, std: Reply<seq<EmailRelay>>, dom: Reply<seq<EmailRelay>>, response: Response, status: u16)
    ensures var found := FindById(Collected(std, dom), id);
      && (DeleteOutcome(id, std, dom, response) == Err(RelayIdNotFound) <==> found.Err?)
      && (DeleteOutcome(id, std, dom, response).Ok? <==> found.Ok? && response.Responded? && IsSuccess(response.status))
      && (DeleteOutcome(id, std, dom, response) == Err(EmailDeletionFailure(status)) <==>
            found.Ok? && response == Responded(status) && !IsSuccess(status))
      && (DeleteOutcome(id, std, dom, response) == Err(HttpError) <==> found.Ok? && response.SendFailed?)
  {
  }

  /** An enable or disable sends one PATCH when the id is listed and none otherwise. */
  lemma ToggleMutatesOnlyWhenFound(auth: string, id: u64, enabled: bool, std: Reply<seq<EmailRelay>>, dom: Reply<seq<EmailRelay>>)
    ensures ToggleTrace(auth, id, enabled, std, dom)[..2] == ListRequests(auth)
    ensures MutationCount(ToggleTrace(auth, id, enabled, std, dom)) ==
      if exists j :: 0 <= j < |Collected(std, dom)| && Collected(std, dom)[j].id == id then 1 else 0
  {
    var trace := ToggleTrace(auth, id, enabled, std, dom);
    var tail := trace[2..];
    assert trace == ListRequests(auth) + tail;
    MutationCountAppend(ListRequests(auth), tail);
  }

  /** The PATCH of a listed id carries the flag and goes to the sub-resource its address selects. */
  lemma ToggleTargetsRoute(auth: string, id: u64, enabled: bool, std: Reply<seq<EmailRelay>>, dom: Reply<seq<EmailRelay>>, relay: EmailRelay)
    requires FindById(Collected(std, dom), id) == Ok(relay)
    ensures |ToggleTrace(auth, id, enabled, std, dom)| == 3
    ensures ToggleTrace(auth, id, enabled, std, dom)[2].verb == Patch
    ensures ToggleTrace(auth, id, enabled, std, dom)[2].body == ToggleBody(enabled)
    ensures ToggleTrace(auth, id, enabled, std, dom)[2].url == PatchUrl(if relay.IsDomain() then Domain else Standard, id)
  {
  }

  /** The whole request sequence of an enable or disable whose id resolves to `relay`, routed to `e`. */
  lemma TogglesFoundRelay(auth: string, id: u64, enabled: bool, std: Reply<seq<EmailRelay>>, dom: Reply<seq<EmailRelay>>, relay: EmailRelay, e: Endpoint)
    requires FindById(Collected(std, dom), id) == Ok(relay)
    requires e == Domain <==> relay.IsDomain()
    ensures ToggleTrace(auth, id, enabled, std, dom) ==
      ListRequests(auth) + [Request(Patch, PatchUrl(e, id), auth, ToggleBody(enabled))]
  {
  }

  /** Every way an enable or disable can end, and exactly when. */
  lemma ToggleOutcomeCases(id: u64, std: Reply<seq<EmailRelay>>, dom: Reply<seq<EmailRelay>>, response: Response, status: u16)
    ensures var found := FindById(Collected(std, dom), id);
      && (ToggleOutcome(id, std, dom, response) == Err(RelayIdNotFound) <==> found.Err?)
      && (ToggleOutcome(id, std, dom, response).Ok? <==> found.Ok? && response.Responded? && IsSuccess(response.status))
      && (ToggleOutcome(id, std, dom, response) == Err(EmailUpdateFailure(status)) <==>
            found.Ok? && response == Responded(status) && !IsSuccess(status))
      && (ToggleOutcome(id, std, dom, response) == Err(HttpError) <==> found.Ok? && response.SendFailed?)
  {
  }

  /** Two relays listed one by each sub-resource are found by their ids. */
  lemma ListedPair(r1: EmailRelay, r2: EmailRelay)
    requires r1.id == 1 && r2.id == 2
    ensures Collected(Decoded([r1]), Decoded([r2])) == [r1, r2]
    ensures FindById(Collected(Decoded([r1]), Decoded([r2])), 1) == Ok(r1)
    ensures FindById(Collected(Decoded([r1]), Decoded([r2])), 2) == Ok(r2)
  {
    var listed := Collected(Decoded([r1]), Decoded([r2]));
    assert listed == [r1, r2];
    assert listed[1..] == [r2];
    assert FirstIndexWithId([r2], 2) == 0;
    assert FirstIndexWithId(listed, 2) == 1;
  }

  /**
   * One standard relay 1 and one custom-domain relay 2, listed by the two
   * sub-resources in turn: deleting 2 goes to the domain sub-resource and
   * deleting 1 to the standard one.
   */
  lemma TwoRelayScenario(auth: string, r1: EmailRelay, r2: EmailRelay)
    requires r1.id == 1 && r1.fullAddress == "abc@mozmail.com"
    requires r2.id == 2 && r2.fullAddress == "xyz@custom.example"
    ensures Collected(Decoded([r1]), Decoded([r2])) == [r1, r2]
    ensures DeleteTrace(auth, 2, Decoded([r1]), Decoded([r2])) ==
      ListRequests(auth) + [Request(Delete, DeleteUrl(Domain, 2), auth, NoBody)]
    ensures DeleteTrace(auth, 1, Decoded([r1]), Decoded([r2])) ==
      ListRequests(auth) + [Request(Delete, DeleteUrl(Standard, 1), auth, NoBody)]
  {
    ListedPair(r1, r2);
    DeletesFoundRelay(auth, 1, Decoded([r1]), Decoded([r2]), r1, Standard) by {
      assert r1.fullAddress == "abc" + "@" + StandardDomain;
      StandardAddressNotDomain(r1, "abc");
    }
    DeletesFoundRelay(auth, 2, Decoded([r1]), Decoded([r2]), r2, Domain) by {
      IsDomainOtherDomain(r2);
    }
  }

  /**
   * The route depends on the address only, not on the GET that listed the
   * relay: a relay listed by the domain sub-resource whose address is
   * "x@mozmail.com" is deleted through the standard one.
   */
  lemma RouteIgnoresListingOrigin(auth: string, r: EmailRelay)
    requires r.id == 7 && r.fullAddress == "x@mozmail.com"
    ensures DeleteTrace(auth, 7, TransportFailed, Decoded([r])) ==
      ListRequests(auth) + [Request(Delete, DeleteUrl(Standard, 7), auth, NoBody)]
  {
    assert r.fullAddress == "x" + "@" + StandardDomain;
    StandardAddressNotDomain(r, "x");
    assert FindById(Collected(TransportFailed, Decoded([r])), 7) == Ok(r);
  }

  lemma AppendAssoc<T>(a: seq<T>, b: seq<T>, c: seq<T>)
    ensures (a + b) + c == a + (b + c)
  {
  }

  /** The client: a token, and the requests it has sent so far. */
  class RelayApi {
    const token: string
    var log: seq<Request>

    constructor (token: string)
      ensures this.token == token && log == []
    {
      this.token := token;
      log := [];
    }

    method ToggleWithEndpoint(endpoint: Endpoint, id: u64, enabled: bool, response: Response) returns (r: Result<()>)
      modifies this
      ensures log == old(log) + [Request(Patch, PatchUrl(endpoint, id), AuthorizationHeader(token), ToggleBody(enabled))]
      ensures r == UpdateResult(response)
    {
      log := log + [Request(Patch, PatchUrl(endpoint, id), AuthorizationHeader(token), ToggleBody(enabled))];
      match response {
        case SendFailed =>
          r := Err(HttpError);
        case Responded(status) =>
          if IsSuccess(status) {
            r := Ok(());
          } else {
            r := Err(EmailUpdateFailure(status));
          }
      }
    }

    method CreateWithEndpoint(endpoint: Endpoint, request: RelayRequest, reply: Reply<EmailRelay>) returns (r: Result<string>)
      modifies this
      ensures log == old(log) + [Request(Post, CreateUrl(endpoint), AuthorizationHeader(token), CreateBody(request))]
      ensures r == CreatedAddress(reply)
    {
      log := log + [Request(Post, CreateUrl(endpoint), AuthorizationHeader(token), CreateBody(request))];
      var decoded := FromReply(reply);
      if decoded.Err? {
        r := Err(decoded.error);
        return;
      }
      r := Ok(decoded.value.fullAddress);
    }

    method ListWithEndpoint(endpoint: Endpoint, reply: Reply<seq<EmailRelay>>) returns (r: Result<seq<EmailRelay>>)
      modifies this
      ensures log == old(log) + [Request(Get, ListUrl(endpoint), AuthorizationHeader(token), NoBody)]
      ensures r == FromReply(reply)
    {
      log := log + [Request(Get, ListUrl(endpoint), AuthorizationHeader(token), NoBody)];
      r := FromReply(reply);
    }

    method DeleteWithEndpoint(endpoint: Endpoint, id: u64, response: Response) returns (r: Result<()>)
      modifies this
      ensures log == old(log) + [Request(Verb.Delete, DeleteUrl(endpoint, id), AuthorizationHeader(token), NoBody)]
      ensures r == DeletionResult(response)
    {
      log := log + [Request(Verb.Delete, DeleteUrl(endpoint, id), AuthorizationHeader(token), NoBody)];
      match response {
        case SendFailed =>
          r := Err(HttpError);
        case Responded(status) =>
          if IsSuccess(status) {
            r := Ok(());
          } else {
            r := Err(EmailDeletionFailure(status));
          }
      }
    }

    /** Lists both sub-resources and returns the first relay with `id`. */
    method FindEmailRelay(id: u64, std: Reply<seq<EmailRelay>>, dom: Reply<seq<EmailRelay>>) returns (r: Result<EmailRelay>)
      modifies this
      ensures log == old(log) + ListRequests(AuthorizationHeader(token))
      ensures r == FindById(Collected(std, dom), id)
    {
      var listed := List(std, dom);
      // Listing never fails, so propagating its error never happens.
      var relays := listed.value;
      for i := 0 to |relays|
        invariant forall j :: 0 <= j < i ==> relays[j].id != id
      {
        if relays[i].id == id {
          r := Ok(relays[i]);
          return;
        }
      }
      r := Err(RelayIdNotFound);
    }

    /** Posts to the domain sub-resource exactly when the request carries an address. */
    method Create(request: RelayRequest, reply: Reply<EmailRelay>) returns (r: Result<string>)
      modifies this
      ensures log == old(log) + [Request(Post, CreateUrl(if request.address.Some? then Domain else Standard),
                                         AuthorizationHeader(token), CreateBody(request))]
      ensures r == CreatedAddress(reply)
    {
      var endpoint := if request.address.Some? then Domain else Standard;
      r := CreateWithEndpoint(endpoint, request, reply);
    }

    /** Both GETs are always sent; failures are dropped, so listing itself never fails. */
    method List(std: Reply<seq<EmailRelay>>, dom: Reply<seq<EmailRelay>>) returns (r: Result<seq<EmailRelay>>)
      modifies this
      ensures log == old(log) + ListRequests(AuthorizationHeader(token))
      ensures r == Ok(Collected(std, dom))
    {
      var relays: seq<EmailRelay> := [];
      var emailRelays := ListWithEndpoint(Standard, std);
      if emailRelays.Ok? {
        relays := relays + emailRelays.value;
      }
      assert relays == Harvest(std);
      var domainRelays := ListWithEndpoint(Domain, dom);
      if domainRelays.Ok? {
        relays := relays + domainRelays.value;
      } else {
        assert Harvest(std) + Harvest(dom) == Harvest(std);
      }
      r := Ok(relays);
    }

    method Delete(id: u64, std: Reply<seq<EmailRelay>>, dom: Reply<seq<EmailRelay>>, response: Response) returns (r: Result<()>)
      modifies this
      ensures log == old(log) + DeleteTrace(AuthorizationHeader(token), id, std, dom)
      ensures r == DeleteOutcome(id, std, dom, response)
    {
      var found := FindEmailRelay(id, std, dom);
      if found.Err? {
        assert DeleteTrace(AuthorizationHeader(token), id, std, dom) == ListRequests(AuthorizationHeader(token));
        r := Err(found.error);
        return;
      }
      var endpoint := if found.value.IsDomain() then Domain else Standard;
      DeletesFoundRelay(AuthorizationHeader(token), id, std, dom, found.value, endpoint);
      r := DeleteWithEndpoint(endpoint, id, response);
      AppendAssoc(old(log), ListRequests(AuthorizationHeader(token)),
                  [Request(Verb.Delete, DeleteUrl(endpoint, id), AuthorizationHeader(token), NoBody)]);
    }

    method Disable(id: u64, std: Reply<seq<EmailRelay>>, dom: Reply<seq<EmailRelay>>, response: Response) returns (r: Result<()>)
      modifies this
      ensures log == old(log) + ToggleTrace(AuthorizationHeader(token), id, false, std, dom)
      ensures r == ToggleOutcome(id, std, dom, response)
    {
      var found := FindEmailRelay(id, std, dom);
      if found.Err? {
        assert ToggleTrace(AuthorizationHeader(token), id, false, std, dom) == ListRequests(AuthorizationHeader(token));
        r := Err(found.error);
        return;
      }
      var endpoint := if found.value.IsDomain() then Domain else Standard;
      TogglesFoundRelay(AuthorizationHeader(token), id, false, std, dom, found.value, endpoint);
      r := ToggleWithEndpoint(endpoint, id, false, response);
      AppendAssoc(old(log), ListRequests(AuthorizationHeader(token)),
                  [Request(Patch, PatchUrl(endpoint, id), AuthorizationHeader(token), ToggleBody(false))]);
    }

    method Enable(id: u64, std: Reply<seq<EmailRelay>>, dom: Reply<seq<EmailRelay>>, response: Response) returns (r: Result<()>)
      modifies this
      ensures log == old(log) + ToggleTrace(AuthorizationHeader(token), id, true, std, dom)
      ensures r == ToggleOutcome(id, std, dom, response)
    {
      var found := FindEmailRelay(id, std, dom);
      if found.Err? {
        assert ToggleTrace(AuthorizationHeader(token), id, true, std, dom) == ListRequests(AuthorizationHeader(token));
        r := Err(found.error);
        return;
      }
      var endpoint := if found.value.IsDomain() then Domain else Standard;
      TogglesFoundRelay(AuthorizationHeader(token), id, true, std, dom, found.value, endpoint);
      r := ToggleWithEndpoint(endpoint, id, true, response);
      AppendAssoc(old(log), ListRequests(AuthorizationHeader(token)),
                  [Request(Patch, PatchUrl(endpoint, id), AuthorizationHeader(token), ToggleBody(true))]);
    }
  }
}
