/** The API client of the product catalogue: the module-level `serverStatus`
    record as the fields of one object, the response interceptors,
    `wakeUpServer`, `cleanup` and the `productAPI` operations, each proved to
    change the record exactly as the `Liveness` functions say. Every network
    outcome, the clock and every wait are inputs. */
module Client {
  import opened Http
  import opened Liveness
  import opened Payload

  /** Request paths of `productAPI`. Ids are passed as the text the template
      literal gives them. */
  const ListRequest := Request(Get, "/products/", NoBody, false)

  function ItemPath(id: string): string
  {
    "/products/" + id
  }

  class ApiClient {
    var isAwake: bool
    var lastWakeUp: Option<int>
    var isWaking: bool

    /** The record `serverStatus` as a value. */
    function Snapshot(): Status
      reads this
    {
      Status(isAwake, lastWakeUp, isWaking)
    }

    /** Module load: `{isAwake: false, lastWakeUp: null, isWaking: false}`. */
    constructor ()
      ensures Snapshot() == Initial
    {
      isAwake, lastWakeUp, isWaking := false, None, false;
    }

    /** `cleanup()` */
    method Cleanup()
      modifies this
      ensures Snapshot() == Initial
    {
      isAwake, lastWakeUp, isWaking := false, None, false;
    }

    /** The success interceptor: a response arrived at time `at`. */
    method OnFulfilled(at: int)
      modifies this
      ensures Snapshot() == MarkAwake(old(Snapshot()), at)
    {
      isAwake := true;
      lastWakeUp := Some(at);
    }

    /** The interceptors on the reply to a request tagged `_retry`: a
        response goes through `OnFulfilled`, an error is rejected as is. */
    method Deliver(reply: Reply)
      modifies this
      ensures Snapshot() == Settle(old(Snapshot()), reply)
    {
      if reply.Success? {
        OnFulfilled(reply.at);
      }
    }

    /** `wakeUpServer()`. `probes` counts the health checks it sends and
        `polls` the one-second waits it makes. */
    method WakeUpServer(env: WakeEnv) returns (awake: bool, probes: nat, polls: nat)
      modifies this
      ensures Wake(Snapshot(), awake, probes, polls) == WakeUp(old(Snapshot()), env)
    {
      if isAwake && lastWakeUp.Some? && lastWakeUp.value != 0 && env.now - lastWakeUp.value < FreshWindow {
        return true, 0, 0;
      }
      if isWaking {
        ghost var start := Snapshot();
        var attempts := 0;
        while isWaking && attempts < MaxPolls
          invariant attempts <= MaxPolls
          invariant Poll(Snapshot(), env.polled, attempts) == Poll(start, env.polled, 0)
          decreases MaxPolls - attempts
        {
          // one second passes; the record is now as the in-flight wake-up left it
          var seen := Observed(Snapshot(), env.polled, attempts);
          isAwake, lastWakeUp, isWaking := seen.isAwake, seen.lastWakeUp, seen.isWaking;
          attempts := attempts + 1;
        }
        return isAwake, 0, attempts;
      }
      isWaking := true;
      // GET /health carries the `_retry` tag, so its reply only settles
      Deliver(env.probe);
      if env.probe.Success? {
        isAwake := true;
        lastWakeUp := Some(env.probe.at);
        awake := true;
      } else {
        isAwake := false;
        awake := false;
      }
      // finally
      isWaking := false;
      probes, polls := 1, 0;
    }

    /** A request through the response interceptors. On a failure with 503,
        502 or ECONNABORTED of an untagged request: mark asleep, tag, wait
        five seconds, wake the server and send the tagged request again. */
    method Send(req: Request, net: Network) returns (result: Reply, sends: nat, probes: nat)
      modifies this
      ensures Exchange(Snapshot(), result, sends, probes) == Dispatch(old(Snapshot()), req, net)
      decreases if req.retry then 0 else 1
    {
      if net.first.Failure? && ShouldRetry(net.first.error, req) {
        isAwake := false;
        var tagged := req.(retry := true);
        // the five-second wait is an abstract step
        var _, p, _ := WakeUpServer(net.rewake);
        // `apiClient(originalRequest)`: the tagged request passes the interceptors again
        var again, n, q := Send(tagged, RetryNetwork(net));
        result, sends, probes := again, 1 + n, p + q;
      } else {
        Deliver(net.first);
        result, sends, probes := net.first, 1, 0;
      }
    }

    /** `await wakeUpServer()` followed by the operation's request. */
    method Call(req: Request, wake: WakeEnv, net: Network) returns (result: Reply)
      modifies this
      ensures Snapshot() == Operation(old(Snapshot()), req, wake, net).status
      ensures result == Operation(old(Snapshot()), req, wake, net).result
    {
      var _, _, _ := WakeUpServer(wake);
      var reply, _, _ := Send(req, net);
      result := reply;
    }

    /** `checkServerHealth()`: an untagged `GET /health` without a wake-up
        first, so it goes through the retry branch like any request; never
        rejects: healthy with the body, or unhealthy with the error. */
    method CheckServerHealth(net: Network) returns (r: Result<Json>)
      modifies this
      ensures var x := Dispatch(old(Snapshot()), StatusRequest, net);
        Snapshot() == x.status
        && r == if x.result.Success? then Ok(x.result.data) else Err(x.result.error)
    {
      var reply, _, _ := Send(StatusRequest, net);
      r := if reply.Success? then Ok(reply.data) else Err(reply.error);
    }

    /** `productAPI.getAll()`: the list, or the request's error. */
    method GetAll(wake: WakeEnv, net: Network) returns (r: Result<seq<Json>>)
      modifies this
      ensures var x := Operation(old(Snapshot()), ListRequest, wake, net);
        Snapshot() == x.status
        && r == if x.result.Success? then Ok(AsList(x.result.data)) else Err(x.result.error)
    {
      var reply := Call(ListRequest, wake, net);
      r := if reply.Success? then Ok(AsList(reply.data)) else Err(reply.error);
    }

    /** `productAPI.create(productData, options)`; `compressed` is what
        `compressImage` produced, None when it threw or gave no blob. */
    method Create(p: ProductInput, opts: UploadOptions, compressed: Option<Image>, wake: WakeEnv, net: Network)
      returns (r: Result<Json>)
      modifies this
      ensures var req := Request(Post, "/products/", Multipart(ProductFields(p, opts, compressed)), false);
        var x := Operation(old(Snapshot()), req, wake, net);
        Snapshot() == x.status
        && r == if x.result.Success? then Ok(x.result.data) else Err(x.result.error)
    {
      var _, _, _ := WakeUpServer(wake);
      var form := BuildProductForm(p, opts, compressed);
      var reply, _, _ := Send(Request(Post, "/products/", Multipart(form.entries), false), net);
      r := if reply.Success? then Ok(reply.data) else Err(reply.error);
    }

    /** `productAPI.update(id, productData, options)` */
    method Update(id: string, p: ProductInput, opts: UploadOptions, compressed: Option<Image>, wake: WakeEnv, net: Network)
      returns (r: Result<Json>)
      modifies this
      ensures var req := Request(Put, ItemPath(id), Multipart(UpdateFields(p, opts, compressed)), false);
        var x := Operation(old(Snapshot()), req, wake, net);
        Snapshot() == x.status
        && r == if x.result.Success? then Ok(x.result.data) else Err(x.result.error)
    {
      var _, _, _ := WakeUpServer(wake);
      var form := BuildUpdateForm(p, opts, compressed);
      var reply, _, _ := Send(Request(Put, ItemPath(id), Multipart(form.entries), false), net);
      r := if reply.Success? then Ok(reply.data) else Err(reply.error);
    }

    /** `productAPI.delete(id)` */
    method DeleteItem(id: string, wake: WakeEnv, net: Network) returns (r: Result<Json>)
      modifies this
      ensures var x := Operation(old(Snapshot()), Request(Delete, ItemPath(id), NoBody, false), wake, net);
        Snapshot() == x.status
        && r == if x.result.Success? then Ok(x.result.data) else Err(x.result.error)
    {
      var reply := Call(Request(Delete, ItemPath(id), NoBody, false), wake, net);
      r := if reply.Success? then Ok(reply.data) else Err(reply.error);
    }

    /** `productAPI.getById(id)` */
    method GetById(id: string, wake: WakeEnv, net: Network) returns (r: Result<Json>)
      modifies this
      ensures var x := Operation(old(Snapshot()), Request(Get, ItemPath(id), NoBody, false), wake, net);
        Snapshot() == x.status
        && r == if x.result.Success? then Ok(x.result.data) else Err(x.result.error)
    {
      var reply := Call(Request(Get, ItemPath(id), NoBody, false), wake, net);
      r := if reply.Success? then Ok(reply.data) else Err(reply.error);
    }

    /** `productAPI.search(query, options)`; `params` is the query string
        `URLSearchParams` makes of the query and the options. */
    method Search(params: string, wake: WakeEnv, net: Network) returns (r: Result<seq<Json>>)
      modifies this
      ensures var x := Operation(old(Snapshot()), Request(Get, "/products/search?" + params, NoBody, false), wake, net);
        Snapshot() == x.status
        && r == if x.result.Success? then Ok(AsList(x.result.data)) else Err(x.result.error)
    {
      var reply := Call(Request(Get, "/products/search?" + params, NoBody, false), wake, net);
      r := if reply.Success? then Ok(AsList(reply.data)) else Err(reply.error);
    }

    /** `productAPI.getStats()`: never rejects. */
    method GetStats(wake: WakeEnv, net: Network) returns (stats: Json)
      modifies this
      ensures var x := Operation(old(Snapshot()), Request(Get, "/products/stats", NoBody, false), wake, net);
        Snapshot() == x.status && stats == StatsOrDefault(x.result)
    {
      var reply := Call(Request(Get, "/products/stats", NoBody, false), wake, net);
      stats := StatsOrDefault(reply);
    }
  }

  /** A caller's view: after `cleanup`, listing the products when the server
      answers the health check and the list at once sends one health check
      and the request once, and leaves the server marked awake. */
  method ListAfterCleanup(client: ApiClient, t: int, items: seq<Json>, other: WakeEnv)
    returns (r: Result<seq<Json>>)
    modifies client
    ensures r == Ok(items)
    ensures client.Snapshot() == Status(true, Some(t + 1), false)
  {
    client.Cleanup();
    var wake := WakeEnv(t, Success(t, JObject([])), []);
    var net := Network(Success(t + 1, JArray(items)), other, Success(t + 1, JArray(items)));
    r := client.GetAll(wake, net);
  }
}
