/** main.py: the `ArtoisImpl` server, whose `generate` appends a fixed greeting. */
module RootImpl {
  import opened Wrappers
  import opened Json
  import opened ArtoisServer

  /** The positional parameters of `ArtoisImpl.generate`; `batch_size` is not one of them. */
  const Params := ["self", "context", "max_tokens", "min_tokens"]

  const Greeting := ", Hello World!"

  /** `context + ", Hello World!"`: the input is kept as a prefix and exactly fourteen
      characters follow it. `max_tokens` and `min_tokens` are only printed. */
  function Generate(context: string): (r: string)
    ensures |r| == |context| + 14
    ensures r[..|context|] == context
    ensures r[|context|..] == Greeting
  {
    context + Greeting
  }

  /** `do_POST`: other paths get nothing, a request without `context` gets 400 and never
      reaches `generate`; otherwise the answer depends on `context` alone: a string comes back
      with the greeting appended, under the single key `context`, and anything else makes
      `+` raise. */
  method HandlePost(path: string, obj: Object) returns (reply: Reply)
    ensures path != "/" ==> reply == NoReply
    ensures path == "/" && "context" !in obj ==> reply == MissingContextReply
    ensures path == "/" && "context" in obj && !obj["context"].Str? ==> reply == Raised
    ensures path == "/" && "context" in obj && obj["context"].Str? ==>
      reply == Sent(200, None, ContextJson(Str(Generate(obj["context"].s))))
  {
    var pre := Precheck(path, obj);
    if pre.Some? {
      return pre.value;
    }
    var kwargs := ParseGenerateKwargs(Params, obj);
    assert "context" in Tail(Params);
    var context := kwargs["context"];
    if !context.Str? {
      return Raised;
    }
    reply := Sent(200, None, ContextJson(Str(Generate(context.s))));
  }

  /** A `batch_size` field, which the page always sends, never reaches `ArtoisImpl.generate`;
      neither does any other field that is not one of its parameters. */
  method ForwardedToImpl(obj: Object) returns (kwargs: Object)
    ensures "batch_size" !in kwargs
    ensures kwargs.Keys <= {"context", "max_tokens", "min_tokens"}
    ensures forall a :: a in kwargs ==> a in obj && kwargs[a] == obj[a]
  {
    kwargs := ParseGenerateKwargs(Params, obj);
  }
}
