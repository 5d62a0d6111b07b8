/** What the page posts, as the two generating servers read it. */
module Wire {
  import opened Wrappers
  import opened Json
  import Client
  import PublicExample
  import PackageExample

  /** The batch size a round posts reaches both servers' `generate` unchanged; NaN, which
      `JSON.stringify` sends as `null`, makes `int(None)` and `range(None)` raise. */
  lemma BatchReachesServer(request: Client.Request)
    ensures PublicExample.BatchArg(Client.Body(request))
         == (if request.batch.NaN? then None else Some(request.batch.v))
    ensures PackageExample.BatchArg(Client.Body(request))
         == (if request.batch.NaN? then None else Some(request.batch.v))
  {
    var body := Client.Body(request);
    assert "batch_size" in body && body["batch_size"] == Client.ToJson(request.batch);
  }
}
