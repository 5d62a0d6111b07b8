/** src/artois/main.py: the example server whose `generate` appends successive code points
    and whose `do_POST` answers with `{'context': generated}`. */
module PackageExample {
  import opened Wrappers
  import opened Json
  import opened ArtoisServer

  /** The positional parameters of `ArtoisServerExample.generate`. */
  const Params := ["self", "context", "batch_size"]

  /** The code points a Dafny `char` can hold: every Unicode scalar value. */
  predicate IsCharCode(v: int) {
    0 <= v < 0xD800 || 0xE000 <= v < 0x11_0000
  }

  /** `chr(ord(c) + 1)`; `None` past U+10FFFF, where `chr` raises `ValueError`, and at the
      first surrogate, which a Dafny `char` cannot hold. */
  function Successor(c: char): (r: Option<char>)
    ensures r.Some? <==> IsCharCode(c as int + 1)
    ensures r.Some? ==> r.value as int == c as int + 1
  {
    if IsCharCode(c as int + 1) then Some((c as int + 1) as char) else None
  }

  /** The character one loop iteration appends: 'a' after an empty context. */
  function NextChar(context: string): Option<char> {
    if |context| == 0 then Some('a') else Successor(context[|context| - 1])
  }

  /** The context after `n` loop iterations, `None` if one of them raises. */
  function Extended(context: string, n: nat): Option<string>
    decreases n
  {
    if n == 0 then Some(context)
    else match NextChar(context)
      case None => None
      case Some(c) => Extended(context + [c], n - 1)
  }

  /** The code point of the first appended character. */
  function Start(context: string): int {
    if |context| == 0 then 'a' as int else context[|context| - 1] as int + 1
  }

  /** Closed form of the loop: it succeeds exactly when the `n` code points from `Start` on are
      all characters, and then the context is kept as a prefix and followed by exactly those
      `n` consecutive code points. */
  lemma {:induction false} ExtendedAt(context: string, n: nat)
    decreases n
    ensures Extended(context, n).Some? <==>
      forall v :: Start(context) <= v < Start(context) + n ==> IsCharCode(v)
    ensures Extended(context, n).Some? ==>
      |Extended(context, n).value| == |context| + n
      && Extended(context, n).value[..|context|] == context
      && forall k :: |context| <= k < |context| + n ==>
           Extended(context, n).value[k] as int == Start(context) + (k - |context|)
  {
    if n > 0 {
      match NextChar(context)
      case None =>
        assert !IsCharCode(Start(context));
      case Some(c) =>
        var next := context + [c];
        assert c as int == Start(context);
        assert Start(next) == Start(context) + 1;
        ExtendedAt(next, n - 1);
        if Extended(context, n).Some? {
          var r := Extended(context, n).value;
          assert r == Extended(next, n - 1).value;
          assert r[..|next|] == next;
          assert r[..|context|] == next[..|context|];
          assert r[|context|] == next[|context|];
        }
    }
  }

  /** From an empty context the loop succeeds exactly while it stays below the surrogates,
      and then the output is "abc..." up to the requested length. */
  lemma FromEmpty(n: nat)
    ensures Extended("", n).Some? <==> n <= 0xD800 - 'a' as int
    ensures Extended("", n).Some? ==>
      |Extended("", n).value| == n
      && forall k :: 0 <= k < n ==> Extended("", n).value[k] as int == 'a' as int + k
  {
    ExtendedAt("", n);
    if n > 0xD800 - 'a' as int {
      assert 'a' as int <= 0xD800 < 'a' as int + n && !IsCharCode(0xD800);
    }
  }

  /** Each appended code point is its predecessor's plus one, and after a non-empty context
      the first is the context's last code point plus one. */
  lemma SuccessorChain(context: string, n: nat)
    requires Extended(context, n).Some?
    ensures |Extended(context, n).value| == |context| + n
    ensures n > 0 && |context| > 0 ==>
      Extended(context, n).value[|context|] as int == context[|context| - 1] as int + 1
    ensures forall k :: |context| <= k < |context| + n - 1 ==>
      Extended(context, n).value[k + 1] as int == Extended(context, n).value[k] as int + 1
  {
    ExtendedAt(context, n);
  }

  /** Once the last code point U+10FFFF is reached, a further step raises. */
  lemma RaisesPastLastCodePoint(context: string, n: nat)
    requires |context| > 0 && context[|context| - 1] as int + n > 0x10_FFFF
    ensures Extended(context, n) == None
  {
    ExtendedAt(context, n);
    assert !IsCharCode(0x11_0000);
  }

  /** `generate(context, batch_size)` for an integer `batch_size`: `range` of a negative count
      runs no iteration. */
  method Generate(context: string, batchSize: int) returns (r: Option<string>)
    ensures r == Extended(context, if batchSize > 0 then batchSize else 0)
    ensures r.Some? ==> |r.value| == |context| + (if batchSize > 0 then batchSize else 0)
    ensures r.Some? ==> r.value[..|context|] == context
  {
    var n := if batchSize > 0 then batchSize else 0;
    var s := context;
    for i := 0 to n
      invariant Extended(s, n - i) == Extended(context, n)
    {
      var next := NextChar(s);
      if next.None? {
        return None;
      }
      s := s + [next.value];
    }
    r := Some(s);
    ExtendedAt(context, n);
  }

  /** The `range(batch_size)` argument with the default 1; `None` where `range` raises
      `TypeError` (a string, `null` or any non-integer). */
  function BatchArg(kwargs: Object): (r: Option<int>)
    ensures "batch_size" !in kwargs ==> r == Some(1)
    ensures "batch_size" in kwargs ==>
      (r.Some? <==> kwargs["batch_size"].Num?) && (r.Some? ==> r.value == kwargs["batch_size"].n)
  {
    if "batch_size" !in kwargs then Some(1)
    else if kwargs["batch_size"].Num? then Some(kwargs["batch_size"].n)
    else None
  }

  /** What `self.generate(**kwargs)` returns for a request that carries `context`; `None` where
      it raises. With no iteration to run, the context comes back as it was sent, whatever
      its type; otherwise it must be a string. */
  function Generation(obj: Object): Option<Value>
    requires "context" in obj
  {
    match BatchArg(obj)
    case None => None
    case Some(n) =>
      if n <= 0 then Some(obj["context"])
      else if !obj["context"].Str? then None
      else match Extended(obj["context"].s, n)
        case None => None
        case Some(r) => Some(Str(r))
  }

  /** `generate(**kwargs)` with the arguments bound as Python binds them. */
  method Invoke(kwargs: Object) returns (g: Option<Value>)
    requires "context" in kwargs
    ensures g == Generation(kwargs)
  {
    var batch := BatchArg(kwargs);
    if batch.None? {
      return None;
    }
    if batch.value <= 0 {
      return Some(kwargs["context"]);
    }
    if !kwargs["context"].Str? {
      return None;
    }
    var generated := Generate(kwargs["context"].s, batch.value);
    if generated.None? {
      return None;
    }
    return Some(Str(generated.value));
  }

  /** `do_POST`: other paths get nothing, a request without `context` gets 400 and never
      reaches `generate`, and otherwise the generated text comes back under `context`,
      starting with the context that was sent. */
  method HandlePost(path: string, obj: Object) returns (reply: Reply)
    ensures path != "/" ==> reply == NoReply
    ensures path == "/" && "context" !in obj ==> reply == MissingContextReply
    ensures path == "/" && "context" in obj ==>
      reply == match Generation(obj)
               case None => Raised
               case Some(g) => Sent(200, None, ContextJson(g))
    ensures path == "/" && "context" in obj && obj["context"].Str? && reply.Sent? ==>
      reply.body.context.Str? && obj["context"].s <= reply.body.context.s
  {
    var pre := Precheck(path, obj);
    if pre.Some? {
      return pre.value;
    }
    var kwargs := ParseGenerateKwargs(Params, obj);
    assert "context" in Tail(Params) && "batch_size" in Tail(Params);
    assert BatchArg(kwargs) == BatchArg(obj);
    var generated := Invoke(kwargs);
    if generated.None? {
      return Raised;
    }
    reply := Sent(200, None, ContextJson(generated.value));
    if obj["context"].Str? && BatchArg(obj).value > 0 {
      ExtendedAt(obj["context"].s, BatchArg(obj).value);
    }
  }
}
