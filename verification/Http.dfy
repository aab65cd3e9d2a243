/** Requests as data and the success rule both HTTP helpers of the console
    share (Kubernetes and Netbox): a response is accepted exactly when its
    status is in the 2xx class; otherwise the response itself is thrown. The
    round trip (`fetch`) is not modelled: a response is an input. */
module Http {

  import opened Wrappers

  datatype Method = GET | POST

  type Header = (string, string)

  /** A request body is the value handed to `JSON.stringify`; the JSON text
      itself is not modelled. */
  datatype Request<B> = Request(verb: Method, url: string, headers: seq<Header>, body: Option<B>)

  /** `body` stands for what `resp.json()` would parse. */
  datatype Response<T> = Response(status: int, body: T)

  /** The value of the first pair whose key is `name` (a header as a server
      reads it, a query parameter as `URLSearchParams.get` returns it). */
  function Lookup(pairs: seq<(string, string)>, key: string): Option<string>
  {
    if |pairs| == 0 then None
    else if pairs[0].0 == key then Some(pairs[0].1)
    else Lookup(pairs[1..], key)
  }

  /** Lookup finds the value of the first pair with the key, and nothing when
      no pair has it. */
  lemma {:induction false} LookupMeaning(pairs: seq<(string, string)>, key: string)
    ensures Lookup(pairs, key).None? <==> forall i :: 0 <= i < |pairs| ==> pairs[i].0 != key
    ensures Lookup(pairs, key).Some? ==>
      exists i :: 0 <= i < |pairs| && pairs[i] == (key, Lookup(pairs, key).value)
                  && forall j :: 0 <= j < i ==> pairs[j].0 != key
  {
    if |pairs| > 0 && pairs[0].0 != key {
      LookupMeaning(pairs[1..], key);
      var v := Lookup(pairs, key);
      if v.Some? {
        var i :| 0 <= i < |pairs[1..]| && pairs[1..][i] == (key, v.value)
                 && forall j :: 0 <= j < i ==> pairs[1..][j].0 != key;
        assert pairs[i + 1] == (key, v.value);
      }
    }
  }

  predicate IsSuccessStatus(status: int)
  {
    !(status < 200 || status >= 300)
  }

  /** The status check of both HTTP helpers: a response outside 200..299 is
      thrown as it is; otherwise its body is the result. */
  function CheckStatus<T>(resp: Response<T>): (r: Result<T, Response<T>>)
    ensures r.Success? <==> 200 <= resp.status < 300
    ensures r.Success? ==> r.value == resp.body
    ensures r.Failure? ==> r.error == resp
  {
    if resp.status < 200 || resp.status >= 300 then Failure(resp) else Success(resp.body)
  }

  /** The accepted statuses are exactly the 2xx class: the ones whose
      hundreds digit is 2. */
  lemma {:induction false} SuccessIsStatusClassTwo(status: int)
    ensures IsSuccessStatus(status) <==> (status >= 0 && status / 100 == 2)
  {
    if status >= 0 && status / 100 == 2 {
      assert 200 <= status < 300;
    }
  }
}
