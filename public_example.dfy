/** public/main.py: the example server whose `generate` cycles through the letters a..i and
    whose `do_POST` cuts the result into three-character tokens. */
module PublicExample {
  import opened Wrappers
  import opened Json
  import opened ArtoisServer

  /** The positional parameters of `ArtoisServerExample.generate`. */
  const Params := ["self", "context", "batch_size"]

  /** `offset = 97`, the code point of 'a'. */
  const Offset := 97

  /** `chr((ord(c) - offset + 1) % 9 + offset)`. Python's `%` with a positive divisor is never
      negative, and neither is Dafny's, so a character below 'a' also lands in 'a'..'i'. */
  function Successor(c: char): (r: char)
    ensures 'a' <= r <= 'i'
    ensures 'a' <= c < 'i' ==> r as int == c as int + 1
    ensures c == 'i' ==> r == 'a'
  {
    ((c as int - Offset + 1) % 9 + Offset) as char
  }

  /** The character one loop iteration appends: 'a' after an empty context. */
  function NextChar(context: string): char {
    if |context| == 0 then 'a' else Successor(context[|context| - 1])
  }

  /** The context after `n` loop iterations. */
  function Extended(context: string, n: nat): string
    decreases n
  {
    if n == 0 then context else Extended(context + [NextChar(context)], n - 1)
  }

  /** Where in the nine-letter cycle the first appended character falls (0 is 'a'). */
  function Phase(context: string): int {
    if |context| == 0 then 0 else context[|context| - 1] as int - Offset + 1
  }

  lemma ModShift(a: int, j: int)
    ensures (a % 9 + j) % 9 == (a + j) % 9
  {
    var q := a / 9;
    assert a == 9 * q + a % 9;
    assert (a + j) == 9 * q + (a % 9 + j);
  }

  /** Closed form of the loop: the context is kept as a prefix, exactly `n` characters follow
      it, and they walk the cycle a..i from the phase the context ends in. */
  lemma {:induction false} ExtendedAt(context: string, n: nat)
    decreases n
    ensures |Extended(context, n)| == |context| + n
    ensures Extended(context, n)[..|context|] == context
    ensures forall k :: |context| <= k < |context| + n ==>
      Extended(context, n)[k] as int == (Phase(context) + (k - |context|)) % 9 + Offset
  {
    if n > 0 {
      var next := context + [NextChar(context)];
      ExtendedAt(next, n - 1);
      var r := Extended(context, n);
      assert r == Extended(next, n - 1);
      assert NextChar(context) as int == Phase(context) % 9 + Offset;
      assert Phase(next) == Phase(context) % 9 + 1;
      assert r[..|next|] == next;
      assert r[..|context|] == next[..|context|];
      forall k | |context| <= k < |context| + n
        ensures r[k] as int == (Phase(context) + (k - |context|)) % 9 + Offset
      {
        if k == |context| {
          assert r[k] == next[k];
        } else {
          assert r[k] as int == (Phase(next) + (k - |next|)) % 9 + Offset;
          ModShift(Phase(context), 1 + (k - |next|));
        }
      }
    }
  }

  /** From an empty context the output is "abcdefghiabc..." */
  lemma FromEmpty(n: nat)
    ensures |Extended("", n)| == n
    ensures forall k :: 0 <= k < n ==> Extended("", n)[k] as int == k % 9 + Offset
  {
    ExtendedAt("", n);
  }

  /** Every appended character after the first is the cyclic successor of the one before it,
      and the first is the successor of the context's last character ('a' if it is empty). */
  lemma SuccessorChain(context: string, n: nat)
    ensures |Extended(context, n)| == |context| + n
    ensures n > 0 ==> Extended(context, n)[|context|] == NextChar(context)
    ensures forall k :: |context| <= k < |context| + n - 1 ==>
      Extended(context, n)[k + 1] == Successor(Extended(context, n)[k])
  {
    ExtendedAt(context, n);
    var r := Extended(context, n);
    forall k | |context| <= k < |context| + n - 1
      ensures r[k + 1] == Successor(r[k])
    {
      ModShift(Phase(context) + (k - |context|), 1);
    }
  }

  /** `generate(context, batch_size)` once `int(batch_size)` has succeeded: `range` of a
      negative count runs no iteration. */
  method Generate(context: string, batchSize: int) returns (r: string)
    ensures r == Extended(context, if batchSize > 0 then batchSize else 0)
    ensures |r| == |context| + (if batchSize > 0 then batchSize else 0)
    ensures r[..|context|] == context
    ensures forall k :: |context| <= k < |r| ==> 'a' <= r[k] <= 'i'
  {
    var n := if batchSize > 0 then batchSize else 0;
    r := context;
    for i := 0 to n
      invariant Extended(r, n - i) == Extended(context, n)
    {
      r := r + [NextChar(r)];
    }
    ExtendedAt(context, n);
  }

  /** `int(batch_size)` with the default 1. `None` where the conversion raises: on `null`, and
      on values the model does not interpret. */
  function BatchArg(kwargs: Object): (r: Option<int>)
    ensures "batch_size" !in kwargs ==> r == Some(1)
    ensures "batch_size" in kwargs ==>
      (r.Some? <==> kwargs["batch_size"].Num?) && (r.Some? ==> r.value == kwargs["batch_size"].n)
  {
    if "batch_size" !in kwargs then Some(1)
    else if kwargs["batch_size"].Num? then Some(kwargs["batch_size"].n)
    else None
  }

  /** What `self.generate(**kwargs)` followed by `len(generated)` yields for a request that
      carries `context`; `None` where one of them raises. */
  function Generation(obj: Object): Option<string>
    requires "context" in obj
  {
    match BatchArg(obj)
    case None => None
    case Some(n) =>
      if obj["context"].Str? then Some(Extended(obj["context"].s, if n > 0 then n else 0))
      else None
  }

  /** Concatenation of the token texts. */
  function Concat(tokens: seq<string>): string {
    if |tokens| == 0 then "" else Concat(tokens[..|tokens| - 1]) + tokens[|tokens| - 1]
  }

  /** The token loop of `do_POST`: `len(generated) // 3` slices of three characters each; a
      trailing one or two characters are dropped. */
  method Tokenise(generated: string) returns (tokens: seq<string>)
    ensures |tokens| == |generated| / 3
    ensures forall i :: 0 <= i < |tokens| ==> tokens[i] == generated[3 * i .. 3 * i + 3]
    ensures forall i :: 0 <= i < |tokens| ==> |tokens[i]| == 3
    ensures Concat(tokens) == generated[..3 * (|generated| / 3)]
    ensures 0 <= |generated| - |Concat(tokens)| <= 2
  {
    tokens := [];
    for i := 0 to |generated| / 3
      invariant |tokens| == i
      invariant forall j :: 0 <= j < i ==> tokens[j] == generated[3 * j .. 3 * j + 3]
      invariant Concat(tokens) == generated[..3 * i]
    {
      var token := generated[3 * i .. 3 * i + 3];
      assert generated[..3 * i] + token == generated[..3 * i + 3];
      tokens := tokens + [token];
      assert tokens[..|tokens| - 1] == tokens[..i];
    }
  }

  /** `generate(**kwargs)` with the arguments bound as Python binds them. */
  method Invoke(kwargs: Object) returns (g: Option<string>)
    requires "context" in kwargs
    ensures g == Generation(kwargs)
  {
    var batch := BatchArg(kwargs);
    if batch.None? || !kwargs["context"].Str? {
      return None;
    }
    var generated := Generate(kwargs["context"].s, batch.value);
    return Some(generated);
  }

  /** `do_POST`: other paths get nothing, a request without `context` gets 400 and never
      reaches `generate`, and otherwise the generated text comes back as its complete
      three-character tokens. */
  method HandlePost(path: string, obj: Object) returns (reply: Reply)
    ensures path != "/" ==> reply == NoReply
    ensures path == "/" && "context" !in obj ==> reply == MissingContextReply
    ensures path == "/" && "context" in obj && Generation(obj).None? ==> reply == Raised
    ensures path == "/" && "context" in obj && Generation(obj).Some? ==>
      var g := Generation(obj).value;
      reply.Sent? && reply.status == 200 && reply.contentType == None && reply.body.TokensJson?
      && |reply.body.tokens| == |g| / 3
      && (forall i :: 0 <= i < |g| / 3 ==> reply.body.tokens[i] == g[3 * i .. 3 * i + 3])
      && Concat(reply.body.tokens) == g[..3 * (|g| / 3)]
  {
    var pre := Precheck(path, obj);
    if pre.Some? {
      return pre.value;
    }
    var kwargs := ParseGenerateKwargs(Params, obj);
    assert "context" in Tail(Params) && "batch_size" in Tail(Params);
    assert BatchArg(kwargs) == BatchArg(obj);
    var generated := Invoke(kwargs);
    if generated.None? {
      return Raised;
    }
    var tokens := Tokenise(generated.value);
    reply := Sent(200, None, TokensJson(tokens));
  }

  /** `do_GET` of this server: like the others, but a `.js` file that opens is sent with the
      `text/javascript` content type. */
  function Get(path: string, files: map<string, string>): (r: Reply)
    ensures r.Sent?
    ensures r.status == 200 <==> ServedFile(path) in files
    ensures r.status == 200 ==> r.body == Plain(files[ServedFile(path)])
    ensures r.status != 200 ==> r == NotFoundReply
    ensures r.contentType == Some("text/javascript") <==>
      ServedFile(path) in files && |path| >= 3 && path[|path| - 3..] == ".js"
    ensures r.contentType.Some? ==> r.contentType == Some("text/javascript")
  {
    var name := ServedFile(path);
    var routed := RoutedPath(path);
    if name !in files then NotFoundReply
    else if |routed| >= 3 && routed[|routed| - 3..] == ".js" then
      Sent(200, Some("text/javascript"), Plain(files[name]))
    else Sent(200, None, Plain(files[name]))
  }
}
