/** The IPAM side of machine creation: choosing the address pool among the
    Netbox prefixes, and reserving one free address of it by creating an IP
    address record. The helpers return the requests they send and take
    Netbox's answers as inputs, except where the answer depends on what the
    console itself recorded: the `IPAM` class holds that state (the addresses
    each prefix offers and the IP address records created so far) and
    computes the `available-ips` answer from it. */
module Netbox {

  import opened Wrappers
  import opened Http
  import Text

  datatype IPAddress = IPAddress(address: string, description: Option<string>)

  datatype CustomFields = CustomFields(gateway: Option<IPAddress>, monsoonPool: Option<string>)

  datatype Prefix = Prefix(id: nat, customFields: CustomFields)

  /** One entry of a prefix's `available-ips` list, in CIDR form. */
  datatype AvailableIP = AvailableIP(address: string)

  /** A page of a Netbox list endpoint. */
  datatype NetboxList<T> = NetboxList(count: nat, results: seq<T>)

  /** The errors of this module: a Netbox response outside 2xx, thrown as is
      by `getJSON`/`createJSON` (one alternative per request that can be
      refused), "no prefix found in Netbox with monsoon_pool external" and
      "no available IPs in Netbox prefix". */
  datatype NetboxError =
    | PrefixesRejected(prefixesResponse: Response<NetboxList<Prefix>>)
    | AvailableIPsRejected(availableResponse: Response<seq<AvailableIP>>)
    | CreateRejected(createResponse: Response<AvailableIP>)
    | NoPrefixFound
    | NoAvailableIPs

  /** Status Netbox answers for a listing it serves. */
  const OK := 200

  /** Status Netbox answers for a prefix id it does not know. */
  const NotFound := 404

  /** The pool tag that marks the prefix addresses are drawn from. */
  const ExternalPool := "external"

  predicate IsExternal(p: Prefix)
  {
    p.customFields.monsoonPool == Some(ExternalPool)
  }

  /** The index of the first prefix whose pool tag is `external`, as
      `Array.find` picks it from the listed results. */
  function FindExternal(prefixes: seq<Prefix>): (r: Option<nat>)
    ensures r.Some? ==> r.value < |prefixes| && IsExternal(prefixes[r.value])
    ensures r.Some? ==> forall j :: 0 <= j < r.value ==> !IsExternal(prefixes[j])
    ensures r.None? <==> forall j :: 0 <= j < |prefixes| ==> !IsExternal(prefixes[j])
  {
    if |prefixes| == 0 then None
    else if IsExternal(prefixes[0]) then Some(0)
    else
      match FindExternal(prefixes[1..])
      case Some(i) => Some(i + 1)
      case None => None
  }

  /** A prefix chosen as `FindPrefix` promises is the one `FindExternal` finds. */
  lemma FindExternalUnique(prefixes: seq<Prefix>, p: Prefix)
    requires IsExternal(p)
    requires exists i :: 0 <= i < |prefixes| && prefixes[i] == p
                         && forall j :: 0 <= j < i ==> !IsExternal(prefixes[j])
    ensures FindExternal(prefixes).Some? && prefixes[FindExternal(prefixes).value] == p
  {
    var i :| 0 <= i < |prefixes| && prefixes[i] == p && forall j :: 0 <= j < i ==> !IsExternal(prefixes[j]);
    var k := FindExternal(prefixes);
    assert k.Some?;
    assert !(k.value < i) && !(i < k.value);
  }

  /** Prefix lists that agree on everything but the gateways. */
  ghost predicate SameButGateways(ps: seq<Prefix>, qs: seq<Prefix>)
  {
    && |ps| == |qs|
    && forall i :: 0 <= i < |ps| ==>
         ps[i].id == qs[i].id && ps[i].customFields.monsoonPool == qs[i].customFields.monsoonPool
  }

  /** The selection looks at the pool tag only: changing gateways never
      changes which prefix is chosen, nor whether one is. */
  lemma {:induction false} FindExternalIgnoresGateway(ps: seq<Prefix>, qs: seq<Prefix>)
    requires SameButGateways(ps, qs)
    ensures FindExternal(ps) == FindExternal(qs)
    decreases |ps|
  {
    if |ps| > 0 && !IsExternal(ps[0]) {
      FindExternalIgnoresGateway(ps[1..], qs[1..]);
    }
  }

  /** The index drawn from a list of `length` entries: the draw `random`, in
      [0, 1), scaled to the length and rounded down. */
  function PickIndex(random: real, length: nat): (i: nat)
    requires 0.0 <= random < 1.0
    requires length > 0
    ensures i < length
  {
    var x := random * length as real;
    assert 0.0 <= x < length as real by {
      assert length as real - x == (1.0 - random) * length as real;
    }
    x.Floor
  }

  /** Every index can be drawn: the pick favours no address by construction. */
  lemma EveryIndexReachable(k: nat, length: nat)
    requires k < length
    ensures var random := k as real / length as real;
      0.0 <= random < 1.0 && PickIndex(random, length) == k
  {
    var random := k as real / length as real;
    assert random * length as real == k as real;
  }

  /** The entries of `pool` whose address has not been taken, in order. */
  function Unassigned(pool: seq<AvailableIP>, taken: set<string>): (r: seq<AvailableIP>)
    ensures forall ip :: ip in r <==> ip in pool && ip.address !in taken
    ensures |r| <= |pool|
  {
    if |pool| == 0 then []
    else if pool[0].address in taken then Unassigned(pool[1..], taken)
    else [pool[0]] + Unassigned(pool[1..], taken)
  }

  /** Where the Netbox helpers send their requests, and with which token. */
  datatype NetboxConfig = NetboxConfig(url: string, token: string)

  const PrefixesPath := "/api/ipam/prefixes/"
  const IPAddressesPath := "/api/ipam/ip-addresses/"

  function AvailableIPsPath(prefix: nat): string
  {
    PrefixesPath + Text.NatToString(prefix) + "/available-ips"
  }

  /** Distinct prefixes are asked for at distinct paths. */
  lemma AvailableIPsPathInjective(a: nat, b: nat)
    requires AvailableIPsPath(a) == AvailableIPsPath(b)
    ensures a == b
  {
    var p, x, y, s := PrefixesPath, Text.NatToString(a), Text.NatToString(b), "/available-ips";
    var u := AvailableIPsPath(a);
    assert u[|p|..|u| - |s|] == x;
    assert u[|p|..|u| - |s|] == y;
    Text.ParseNatToString(a);
    Text.ParseNatToString(b);
  }

  /** `getJSON(path)`: a GET of the Netbox URL with the API token; the
      answer `resp` is accepted or thrown by the 2xx rule. */
  method GetJSON<T>(cfg: NetboxConfig, path: string, resp: Response<T>)
    returns (req: Request<()>, result: Result<T, Response<T>>)
    ensures req.verb == GET && req.url == cfg.url + path && req.body == None
    ensures Lookup(req.headers, "Authorization") == Some("Token " + cfg.token)
    ensures Lookup(req.headers, "Content-Type") == None
    ensures result.Success? <==> IsSuccessStatus(resp.status)
    ensures result.Success? ==> result.value == resp.body
    ensures result.Failure? ==> result.error == resp
  {
    req := Request(GET, cfg.url + path, [("Authorization", "Token " + cfg.token)], None);
    result := CheckStatus(resp);
  }

  /** `createJSON(path, item)`: a JSON POST of `item` with the API token;
      the answer `resp` is accepted or thrown by the 2xx rule. */
  method CreateJSON<T>(cfg: NetboxConfig, path: string, item: IPAddress, resp: Response<T>)
    returns (req: Request<IPAddress>, result: Result<T, Response<T>>)
    ensures req.verb == POST && req.url == cfg.url + path && req.body == Some(item)
    ensures Lookup(req.headers, "Authorization") == Some("Token " + cfg.token)
    ensures Lookup(req.headers, "Content-Type") == Some("application/json")
    ensures result.Success? <==> IsSuccessStatus(resp.status)
    ensures result.Success? ==> result.value == resp.body
    ensures result.Failure? ==> result.error == resp
  {
    req := Request(POST, cfg.url + path,
                   [("Authorization", "Token " + cfg.token), ("Content-Type", "application/json")],
                   Some(item));
    result := CheckStatus(resp);
  }

  /** `findPrefix`: list the prefixes (`resp` is Netbox's answer) and take
      the first one in the external pool. A refused listing is thrown as is. */
  method FindPrefix(cfg: NetboxConfig, resp: Response<NetboxList<Prefix>>)
    returns (req: Request<()>, r: Result<Prefix, NetboxError>)
    ensures req.verb == GET && req.url == cfg.url + PrefixesPath
    ensures Lookup(req.headers, "Authorization") == Some("Token " + cfg.token)
    ensures !IsSuccessStatus(resp.status) <==> r == Failure(PrefixesRejected(resp))
    ensures r.Success? ==> IsExternal(r.value)
    ensures r.Success? ==> exists i :: 0 <= i < |resp.body.results| && resp.body.results[i] == r.value
                                       && forall j :: 0 <= j < i ==> !IsExternal(resp.body.results[j])
    ensures r == Failure(NoPrefixFound) <==>
              IsSuccessStatus(resp.status) && forall j :: 0 <= j < |resp.body.results| ==> !IsExternal(resp.body.results[j])
    ensures IsSuccessStatus(resp.status) && FindExternal(resp.body.results).Some? ==>
              r == Success(resp.body.results[FindExternal(resp.body.results).value])
  {
    var listed;
    req, listed := GetJSON(cfg, PrefixesPath, resp);
    if listed.Failure? {
      return req, Failure(PrefixesRejected(listed.error));
    }
    var found := FindExternal(listed.value.results);
    if found.None? {
      return req, Failure(NoPrefixFound);
    }
    r := Success(listed.value.results[found.value]);
  }

  /** The Netbox service as the console sees it: the addresses each prefix
      offers and the IP address records created so far. */
  class IPAM {
    /** For each prefix id, the addresses it offers when none of the records
        below exist; Netbox computes `available-ips` from this and them. */
    var pools: map<nat, seq<AvailableIP>>
    /** The IP address records created through `/api/ipam/ip-addresses/`. */
    var created: seq<IPAddress>

    constructor(pools: map<nat, seq<AvailableIP>>)
      ensures this.pools == pools && created == []
    {
      this.pools := pools;
      created := [];
    }

    function Assigned(): set<string>
      reads this
    {
      set i | 0 <= i < |created| :: created[i].address
    }

    /** No address has been recorded twice. */
    ghost predicate Valid()
      reads this
    {
      forall i, j :: 0 <= i < j < |created| ==> created[i].address != created[j].address
    }

    /** Netbox's answer to `/api/ipam/prefixes/<prefix>/available-ips`: the
        prefix's addresses that no record holds, or 404 with an empty list
        for an unknown id. */
    function AvailableIPs(prefix: nat): (resp: Response<seq<AvailableIP>>)
      reads this
      ensures IsSuccessStatus(resp.status) <==> prefix in pools
      ensures prefix !in pools ==> resp == Response(NotFound, [])
      ensures prefix in pools ==>
                forall ip :: ip in resp.body <==> ip in pools[prefix] && ip.address !in Assigned()
    {
      if prefix in pools then Response(OK, Unassigned(pools[prefix], Assigned()))
      else Response(NotFound, [])
    }

    /** Netbox handling a create of `ip` that it answers with `answer`: the
        record is kept exactly when the answer is a 2xx. */
    method CreateIPAddress(ip: IPAddress, answer: Response<AvailableIP>)
      modifies this`created
      ensures created == if IsSuccessStatus(answer.status) then old(created) + [ip] else old(created)
      ensures Valid() <==> old(Valid()) && (!IsSuccessStatus(answer.status) || ip.address !in old(Assigned()))
    {
      if IsSuccessStatus(answer.status) {
        ghost var before, taken := created, Assigned();
        created := created + [ip];
        if ip.address in taken {
          var k :| 0 <= k < |before| && before[k].address == ip.address;
          assert created[k].address == created[|before|].address;
        } else {
          assert forall i, j :: 0 <= i < j < |before| ==> created[i] == before[i] && created[j] == before[j];
          if old(Valid()) {
            forall i, j | 0 <= i < j < |created|
              ensures created[i].address != created[j].address
            {
              if j == |before| {
                assert created[i].address == before[i].address && before[i].address in taken;
              }
            }
          }
        }
      }
    }
  }

  /** `reserveIPAddress`: fetch the prefix's available addresses, fail if
      there are none, otherwise pick one with the draw `random` and create a
      record of it with `description`, answered by `createAnswer`. The
      address is returned as listed, with its prefix length. Refused
      requests are thrown as is. */
  method ReserveIPAddress(netbox: IPAM, cfg: NetboxConfig, prefix: nat, description: string,
                          random: real, createAnswer: Response<AvailableIP>)
    returns (fetch: Request<()>, create: Option<Request<IPAddress>>, r: Result<string, NetboxError>)
    requires 0.0 <= random < 1.0
    modifies netbox`created
    ensures fetch.verb == GET && fetch.url == cfg.url + AvailableIPsPath(prefix)
    ensures Lookup(fetch.headers, "Authorization") == Some("Token " + cfg.token)
    ensures create.Some? ==> Lookup(create.value.headers, "Authorization") == Some("Token " + cfg.token)
    ensures old(netbox.Valid()) ==> netbox.Valid()
    ensures match CheckStatus(old(netbox.AvailableIPs(prefix)))
      case Failure(refused) =>
        r == Failure(AvailableIPsRejected(refused)) && create == None && netbox.created == old(netbox.created)
      case Success(available) =>
        if available == [] then r == Failure(NoAvailableIPs) && create == None && netbox.created == old(netbox.created)
        else
          var ip := IPAddress(available[PickIndex(random, |available|)].address, Some(description));
          && create.Some? && create.value.verb == POST && create.value.url == cfg.url + IPAddressesPath
          && create.value.body == Some(ip)
          && if IsSuccessStatus(createAnswer.status) then r == Success(ip.address) && netbox.created == old(netbox.created) + [ip]
             else r == Failure(CreateRejected(createAnswer)) && netbox.created == old(netbox.created)
    ensures r.Success? ==> prefix in netbox.pools && AvailableIP(r.value) in netbox.pools[prefix]
                           && r.value !in old(netbox.Assigned())
    ensures r.Success? ==> AvailableIP(r.value) !in netbox.AvailableIPs(prefix).body
  {
    var fetched;
    fetch, fetched := GetJSON(cfg, AvailableIPsPath(prefix), netbox.AvailableIPs(prefix));
    create := None;
    if fetched.Failure? {
      return fetch, None, Failure(AvailableIPsRejected(fetched.error));
    }
    var availableIPs := fetched.value;
    if |availableIPs| == 0 {
      return fetch, None, Failure(NoAvailableIPs);
    }
    var address := availableIPs[PickIndex(random, |availableIPs|)].address;
    assert AvailableIP(address) in availableIPs;
    var ip := IPAddress(address, Some(description));
    netbox.CreateIPAddress(ip, createAnswer);
    var post, stored := CreateJSON(cfg, IPAddressesPath, ip, createAnswer);
    create := Some(post);
    if stored.Failure? {
      return fetch, create, Failure(CreateRejected(stored.error));
    }
    assert netbox.created[|netbox.created| - 1].address == address;
    r := Success(address);
  }
}
