/** The Kubernetes API client: list and create requests against the core API
    and the KubeVirt API, authenticated with the bearer token the client was
    constructed with. Requests are data; the server's response is an input
    and is accepted or thrown by the shared 2xx rule. */
module Kubernetes {

  import opened Wrappers
  import opened Http
  import opened KubernetesTypes
  import Text

  /** `{limit?, labelSelector?}`. */
  datatype ListOptions = ListOptions(limit: Option<int>, labelSelector: Option<string>)

  /** A query parameter of `URLSearchParams`, before percent-encoding. */
  type Param = (string, string)

  function Keys(params: seq<Param>): (keys: seq<string>)
    ensures |keys| == |params|
    ensures forall i :: 0 <= i < |params| ==> keys[i] == params[i].0
  {
    if |params| == 0 then [] else [params[0].0] + Keys(params[1..])
  }

  /** `URLSearchParams.delete(key)`: every pair with another key, in order. */
  function Delete(params: seq<Param>, key: string): seq<Param>
  {
    if |params| == 0 then []
    else if params[0].0 == key then Delete(params[1..], key)
    else [params[0]] + Delete(params[1..], key)
  }

  lemma {:induction false} DeleteTwice(params: seq<Param>, key: string)
    ensures Delete(Delete(params, key), key) == Delete(params, key)
  {
    if |params| > 0 {
      DeleteTwice(params[1..], key);
    }
  }

  /** `URLSearchParams.set(key, value)`: the first pair with `key` gets
      `value` and later ones are removed; without one, the pair is appended. */
  function Set(params: seq<Param>, key: string, value: string): seq<Param>
  {
    if |params| == 0 then [(key, value)]
    else if params[0].0 == key then [(key, value)] + Delete(params[1..], key)
    else [params[0]] + Set(params[1..], key, value)
  }

  /** After `set`, `get` answers the new value, the pairs with other keys are
      untouched, and a new key goes at the end. */
  lemma {:induction false} SetMeaning(params: seq<Param>, key: string, value: string)
    ensures Lookup(Set(params, key, value), key) == Some(value)
    ensures Delete(Set(params, key, value), key) == Delete(params, key)
    ensures Lookup(params, key).None? ==> Set(params, key, value) == params + [(key, value)]
  {
    var r := Set(params, key, value);
    if |params| == 0 {
    } else if params[0].0 == key {
      DeleteTwice(params[1..], key);
    } else {
      SetMeaning(params[1..], key, value);
      var rest := Set(params[1..], key, value);
      assert r == [params[0]] + rest;
      assert Delete(r, key) == [params[0]] + Delete(rest, key);
      assert Lookup(params, key).None? ==> params == [params[0]] + params[1..];
    }
  }

  /** How many pairs have `key`. */
  function Count(params: seq<Param>, key: string): nat
  {
    if |params| == 0 then 0
    else (if params[0].0 == key then 1 else 0) + Count(params[1..], key)
  }

  lemma {:induction false} DeleteRemovesAll(params: seq<Param>, key: string)
    ensures Count(Delete(params, key), key) == 0
  {
    if |params| > 0 {
      DeleteRemovesAll(params[1..], key);
    }
  }

  /** After `set`, the key occurs exactly once. */
  lemma {:induction false} SetLeavesOne(params: seq<Param>, key: string, value: string)
    ensures Count(Set(params, key, value), key) == 1
  {
    if |params| > 0 {
      if params[0].0 == key {
        DeleteRemovesAll(params[1..], key);
        assert Set(params, key, value)[1..] == Delete(params[1..], key);
      } else {
        SetLeavesOne(params[1..], key, value);
        assert Set(params, key, value)[1..] == Set(params[1..], key, value);
      }
    }
  }

  /** The limit counts when it is truthy: present and not zero. */
  predicate HasLimit(opts: ListOptions)
  {
    opts.limit.Some? && opts.limit.value != 0
  }

  /** The selector counts when it is truthy: present and not empty. */
  predicate HasLabelSelector(opts: ListOptions)
  {
    opts.labelSelector.Some? && opts.labelSelector.value != ""
  }

  /** The query of a list request: `limit`, as `String(limit)`, exactly when
      the limit is truthy; `labelSelector` exactly when the selector is a
      non-empty string; nothing else; `limit` first. */
  ghost predicate IsSearchParamsFor(params: seq<Param>, opts: ListOptions)
  {
    && Keys(params) == (if HasLimit(opts) then ["limit"] else [])
                       + (if HasLabelSelector(opts) then ["labelSelector"] else [])
    && Lookup(params, "limit") == (if HasLimit(opts) then Some(Text.IntToString(opts.limit.value)) else None)
    && Lookup(params, "labelSelector") == (if HasLabelSelector(opts) then opts.labelSelector else None)
  }

  /** The options determine the query completely. */
  lemma SearchParamsUnique(p: seq<Param>, q: seq<Param>, opts: ListOptions)
    requires IsSearchParamsFor(p, opts) && IsSearchParamsFor(q, opts)
    ensures p == q
  {
    var keys := Keys(p);
    assert |p| == |q| == |keys|;
    forall i | 0 <= i < |p| ensures p[i] == q[i] {
      assert p[i].0 == keys[i] == q[i].0;
      assert keys[i] == "limit" || keys[i] == "labelSelector";
      assert forall j :: 0 <= j < i ==> keys[j] != keys[i];
      assert Lookup(p, keys[i]) == Some(p[i].1);
      assert Lookup(q, keys[i]) == Some(q[i].1);
    }
  }

  /** `buildSearchParams`. */
  method BuildSearchParams(opts: ListOptions) returns (params: seq<Param>)
    ensures IsSearchParamsFor(params, opts)
  {
    params := [];
    if opts.limit.Some? && opts.limit.value != 0 {
      SetMeaning(params, "limit", Text.IntToString(opts.limit.value));
      params := Set(params, "limit", Text.IntToString(opts.limit.value));
      assert params == [("limit", Text.IntToString(opts.limit.value))];
    }
    ghost var before := params;
    if opts.labelSelector.Some? && opts.labelSelector.value != "" {
      assert Lookup(params, "labelSelector").None?;
      SetMeaning(params, "labelSelector", opts.labelSelector.value);
      params := Set(params, "labelSelector", opts.labelSelector.value);
      assert params == before + [("labelSelector", opts.labelSelector.value)];
    }
    assert Lookup(params, "limit") == if HasLimit(opts) then Some(Text.IntToString(opts.limit.value)) else None;
  }

  /** `params.toString()`, with percent-encoding left out. */
  function QueryString(params: seq<Param>): string
  {
    if |params| == 0 then ""
    else if |params| == 1 then params[0].0 + "=" + params[0].1
    else params[0].0 + "=" + params[0].1 + "&" + QueryString(params[1..])
  }

  /** Without options the query is empty. */
  lemma NoOptionsNoQuery(params: seq<Param>)
    requires IsSearchParamsFor(params, ListOptions(None, None))
    ensures QueryString(params) == ""
  {
    assert |Keys(params)| == 0;
  }

  const NamespacesPath := "/api/v1/namespaces"

  function EventsPath(namespace: string): string
  {
    "/api/v1/namespaces/" + namespace + "/events"
  }

  function VirtualMachinesPath(namespace: string): string
  {
    "/apis/kubevirt.io/v1/namespaces/" + namespace + "/virtualmachines"
  }

  /** The namespace can be read back from the path, so requests for one
      namespace never reach another's; events and machines never share a
      path. */
  lemma PathsIdentifyResource(a: string, b: string)
    ensures EventsPath(a) == EventsPath(b) ==> a == b
    ensures VirtualMachinesPath(a) == VirtualMachinesPath(b) ==> a == b
    ensures EventsPath(a) != VirtualMachinesPath(b)
    ensures EventsPath(a) != NamespacesPath
  {
    var e, v := EventsPath(a), VirtualMachinesPath(b);
    if EventsPath(a) == EventsPath(b) {
      assert e[19..|e| - 7] == a;
      assert EventsPath(b)[19..|e| - 7] == b;
    }
    if VirtualMachinesPath(a) == VirtualMachinesPath(b) {
      var w := VirtualMachinesPath(a);
      assert w[32..|w| - 16] == a;
      assert v[32..|w| - 16] == b;
    }
    assert e[4] == '/' && v[4] == 's';
    assert |e| > |NamespacesPath|;
  }

  class KubernetesClient {
    /** The API server's base URL, read from the environment by the source. */
    const kubeURL: string
    /** The bearer token of the user's session. */
    const token: string

    constructor(kubeURL: string, token: string)
      ensures this.kubeURL == kubeURL && this.token == token
    {
      this.kubeURL := kubeURL;
      this.token := token;
    }

    /** `getJSON(path, opts)`: a GET of `kubeURL + path + "?" + query`. */
    method GetJSON<T>(path: string, opts: ListOptions, resp: Response<T>)
      returns (req: Request<()>, result: Result<T, Response<T>>)
      ensures req.verb == GET && req.body == None
      ensures Lookup(req.headers, "Content-Type") == None
      ensures exists params :: IsSearchParamsFor(params, opts) && req.url == kubeURL + path + "?" + QueryString(params)
      ensures opts == ListOptions(None, None) ==> req.url == kubeURL + path + "?"
      ensures Lookup(req.headers, "Authorization") == Some("Bearer " + token)
      ensures result.Success? <==> IsSuccessStatus(resp.status)
      ensures result.Success? ==> result.value == resp.body
      ensures result.Failure? ==> result.error == resp
    {
      var params := BuildSearchParams(opts);
      if opts == ListOptions(None, None) {
        NoOptionsNoQuery(params);
      }
      req := Request(GET, kubeURL + path + "?" + QueryString(params), [("Authorization", "Bearer " + token)], None);
      result := CheckStatus(resp);
    }

    /** `createJSON(path, item)`: a JSON POST of `item` to `kubeURL + path`,
        with no query string. */
    method CreateJSON<T>(path: string, item: VirtualMachine, resp: Response<T>)
      returns (req: Request<VirtualMachine>, result: Result<T, Response<T>>)
      ensures req.verb == POST && req.url == kubeURL + path && req.body == Some(item)
      ensures Lookup(req.headers, "Authorization") == Some("Bearer " + token)
      ensures Lookup(req.headers, "Content-Type") == Some("application/json")
      ensures result.Success? <==> IsSuccessStatus(resp.status)
      ensures result.Success? ==> result.value == resp.body
      ensures result.Failure? ==> result.error == resp
    {
      req := Request(POST, kubeURL + path,
                     [("Authorization", "Bearer " + token), ("Content-Type", "application/json")],
                     Some(item));
      result := CheckStatus(resp);
    }

    method ListNamespaces(opts: ListOptions, resp: Response<KubernetesList<Namespace>>)
      returns (req: Request<()>, result: Result<KubernetesList<Namespace>, Response<KubernetesList<Namespace>>>)
      ensures req.verb == GET && req.body == None
      ensures exists params :: IsSearchParamsFor(params, opts) && req.url == kubeURL + NamespacesPath + "?" + QueryString(params)
      ensures Lookup(req.headers, "Authorization") == Some("Bearer " + token)
      ensures result == CheckStatus(resp)
    {
      req, result := GetJSON(NamespacesPath, opts, resp);
    }

    method ListEvents(namespace: string, opts: ListOptions, resp: Response<KubernetesList<KubernetesEvent>>)
      returns (req: Request<()>, result: Result<KubernetesList<KubernetesEvent>, Response<KubernetesList<KubernetesEvent>>>)
      ensures req.verb == GET && req.body == None
      ensures exists params :: IsSearchParamsFor(params, opts) && req.url == kubeURL + EventsPath(namespace) + "?" + QueryString(params)
      ensures Lookup(req.headers, "Authorization") == Some("Bearer " + token)
      ensures result == CheckStatus(resp)
    {
      req, result := GetJSON(EventsPath(namespace), opts, resp);
    }

    method ListVirtualMachines(namespace: string, opts: ListOptions, resp: Response<KubernetesList<VirtualMachine>>)
      returns (req: Request<()>, result: Result<KubernetesList<VirtualMachine>, Response<KubernetesList<VirtualMachine>>>)
      ensures req.verb == GET && req.body == None
      ensures exists params :: IsSearchParamsFor(params, opts) && req.url == kubeURL + VirtualMachinesPath(namespace) + "?" + QueryString(params)
      ensures Lookup(req.headers, "Authorization") == Some("Bearer " + token)
      ensures result == CheckStatus(resp)
    {
      req, result := GetJSON(VirtualMachinesPath(namespace), opts, resp);
    }

    method CreateVirtualMachine(vm: VirtualMachine, namespace: string, resp: Response<VirtualMachine>)
      returns (req: Request<VirtualMachine>, result: Result<VirtualMachine, Response<VirtualMachine>>)
      ensures req.verb == POST && req.url == kubeURL + VirtualMachinesPath(namespace) && req.body == Some(vm)
      ensures Lookup(req.headers, "Authorization") == Some("Bearer " + token)
      ensures Lookup(req.headers, "Content-Type") == Some("application/json")
      ensures result == CheckStatus(resp)
    {
      req, result := CreateJSON(VirtualMachinesPath(namespace), vm, resp);
    }
  }
}
