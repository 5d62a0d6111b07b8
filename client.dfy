/** script.js: the page that drives generation. It maps the batch-size slider to a number,
    collects the keyword-argument form, and runs the countdown of generation rounds against the
    server, one request per round. */
module Client {
  import opened Wrappers
  import opened Json

  // ---------------------------------------------------------------------------------------
  // Batch-size slider

  function Pow2(k: nat): (r: nat)
    ensures r >= 1
  {
    if k == 0 then 1 else 2 * Pow2(k - 1)
  }

  /** `slider_to_text_mapping`: step 1 is 1, an even step `x` is 2^(x/2), and an odd step
      in between is the mean of the powers of two on either side. Slider steps start at 1. */
  function SliderToText(x: int): (r: int)
    requires x >= 1
    ensures r >= 1
  {
    if x == 1 then 1
    else if x % 2 == 0 then Pow2(x / 2)
    else (Pow2((x - 1) / 2) + Pow2((x + 1) / 2)) / 2
  }

  /** On an odd step past 1 the mean is exact (no rounding happens): it is 3 * 2^((x-3)/2). */
  lemma SliderOddIsMean(x: int)
    requires x >= 3 && x % 2 == 1
    ensures 2 * SliderToText(x) == Pow2((x - 1) / 2) + Pow2((x + 1) / 2)
    ensures SliderToText(x) == 3 * Pow2((x - 3) / 2)
  {
    var k := (x - 3) / 2;
    assert (x - 1) / 2 == k + 1 && (x + 1) / 2 == k + 2;
    var p := Pow2(k);
    assert Pow2(k + 1) == 2 * p;
    assert Pow2(k + 2) == 4 * p;
    assert SliderToText(x) == (2 * p + 4 * p) / 2;
  }

  /** The table in the comment above `slider_to_text_mapping`, steps 1 to 26. */
  const SliderTable := [1, 2, 3, 4, 6, 8, 12, 16, 24, 32, 48, 64, 96, 128, 192, 256, 384, 512,
                        768, 1024, 1536, 2048, 3072, 4096, 6144, 8192]

  lemma SliderMatchesTable()
    ensures forall x :: 1 <= x <= 26 ==> SliderToText(x) == SliderTable[x - 1]
  {
    forall x | 1 <= x <= 26
      ensures SliderToText(x) == SliderTable[x - 1]
    {
      if x <= 13 {
        SliderTableLow(x);
      } else {
        SliderTableHigh(x);
      }
    }
  }

  lemma SliderTableLow(x: int)
    requires 1 <= x <= 13
    ensures SliderToText(x) == SliderTable[x - 1]
  {
    assert Pow2(1) == 2 && Pow2(2) == 4 && Pow2(3) == 8 && Pow2(4) == 16;
    assert Pow2(5) == 32 && Pow2(6) == 64 && Pow2(7) == 128;
    if x == 1 {} else if x == 2 {} else if x == 3 {} else if x == 4 {}
    else if x == 5 {} else if x == 6 {} else if x == 7 {} else if x == 8 {}
    else if x == 9 {} else if x == 10 {} else if x == 11 {} else if x == 12 {}
    else {}
  }

  lemma SliderTableHigh(x: int)
    requires 14 <= x <= 26
    ensures SliderToText(x) == SliderTable[x - 1]
  {
    assert Pow2(7) == 128 && Pow2(8) == 256 by {
      assert Pow2(4) == 16;
    }
    assert Pow2(9) == 512 && Pow2(10) == 1024 && Pow2(11) == 2048;
    assert Pow2(12) == 4096 && Pow2(13) == 8192;
    if x == 14 {} else if x == 15 {} else if x == 16 {} else if x == 17 {}
    else if x == 18 {} else if x == 19 {} else if x == 20 {} else if x == 21 {}
    else if x == 22 {} else if x == 23 {} else if x == 24 {} else if x == 25 {}
    else {}
  }

  /** Each step gives a larger batch size than the one before it. */
  lemma SliderStep(x: int)
    requires x >= 1
    ensures SliderToText(x) < SliderToText(x + 1)
  {
    if x % 2 == 0 {
      assert (x + 1 - 1) / 2 == x / 2 && (x + 1 + 1) / 2 == x / 2 + 1;
    } else if x >= 3 {
      SliderOddIsMean(x);
    }
  }

  /** The mapping is strictly increasing. */
  lemma {:induction false} SliderIncreasing(x: int, y: int)
    requires 1 <= x < y
    ensures SliderToText(x) < SliderToText(y)
    decreases y - x
  {
    SliderStep(y - 1);
    if x < y - 1 {
      SliderIncreasing(x, y - 1);
    }
  }

  /** From step 2 on, two steps up double the batch size. */
  lemma SliderDoubles(x: int)
    requires x >= 2
    ensures SliderToText(x + 2) == 2 * SliderToText(x)
  {
    if x % 2 == 1 {
      SliderOddIsMean(x);
      SliderOddIsMean(x + 2);
      assert (x + 2 - 3) / 2 == (x - 3) / 2 + 1;
    } else {
      assert (x + 2) / 2 == x / 2 + 1;
    }
  }

  /** `Math.log2` on a power of two, where it is exact. */
  function Log2(v: nat): nat
    requires v >= 1
  {
    if v == 1 then 0 else 1 + Log2(v / 2)
  }

  /** `text_to_slider_mapping` undoes `slider_to_text_mapping` on the even steps: the batch size
      there is a power of two, so `Math.log2(v) * 2` is the step again. */
  lemma {:induction false} EvenStepRoundTrip(x: nat)
    requires x >= 2 && x % 2 == 0
    ensures 2 * Log2(SliderToText(x)) == x
    decreases x
  {
    if x > 2 {
      EvenStepRoundTrip(x - 2);
      SliderDoubles(x - 2);
      assert SliderToText(x) / 2 == SliderToText(x - 2);
    }
  }

  // ---------------------------------------------------------------------------------------
  // Numbers

  /** A JavaScript number as this page handles it: an integer, or NaN. */
  datatype Num = NaN | Finite(v: int)

  /** `Math.min`: NaN if either side is NaN. */
  function Min(a: Num, b: Num): (r: Num)
    ensures r.NaN? <==> a.NaN? || b.NaN?
    ensures r.Finite? ==> r.v <= a.v && r.v <= b.v && (r.v == a.v || r.v == b.v)
  {
    if a.NaN? || b.NaN? then NaN else Finite(if a.v < b.v then a.v else b.v)
  }

  /** `a - b`, NaN-propagating. */
  function Sub(a: Num, b: Num): Num {
    if a.NaN? || b.NaN? then NaN else Finite(a.v - b.v)
  }

  /** `n > 0`; false for NaN. */
  predicate Positive(n: Num) {
    n.Finite? && n.v > 0
  }

  /** `JSON.stringify` of a number: NaN becomes `null`. */
  function ToJson(n: Num): Value {
    if n.NaN? then Null else Num(n.v)
  }

  predicate IsDigits(s: string) {
    |s| > 0 && forall i :: 0 <= i < |s| ==> '0' <= s[i] <= '9'
  }

  function DigitsValue(s: string): nat
    requires IsDigits(s)
  {
    if |s| == 1 then s[0] as int - '0' as int
    else 10 * DigitsValue(s[..|s| - 1]) + (s[|s| - 1] as int - '0' as int)
  }

  /** `Number(s)` on the strings the model interprets: the empty string is 0, and an optional
      sign followed by decimal digits is that integer. Everything else is NaN. */
  function ToNumber(s: string): (r: Num)
    ensures r.Finite? <==>
      s == "" || IsDigits(s) || (|s| > 0 && (s[0] == '-' || s[0] == '+') && IsDigits(s[1..]))
  {
    if s == "" then Finite(0)
    else if s[0] == '-' && IsDigits(s[1..]) then Finite(0 - DigitsValue(s[1..]))
    else if s[0] == '+' && IsDigits(s[1..]) then Finite(DigitsValue(s[1..]))
    else if IsDigits(s) then Finite(DigitsValue(s))
    else NaN
  }

  /** The decimal digits of a non-negative integer; for integers below 10^21 this is the text
      JavaScript makes of the number. */
  function Decimal(n: nat): (s: string)
    ensures IsDigits(s)
  {
    var d := ('0' as int + n % 10) as char;
    if n < 10 then [d] else Decimal(n / 10) + [d]
  }

  lemma {:induction false} DecimalValue(n: nat)
    ensures DigitsValue(Decimal(n)) == n
    decreases n
  {
    if n >= 10 {
      DecimalValue(n / 10);
      var s := Decimal(n);
      assert s[..|s| - 1] == Decimal(n / 10);
    }
  }

  /** The slider writes its batch size into the text box as a decimal string and the generate
      button reads it back with `Number`: the counter starts at the slider's value. */
  lemma SliderSetsCounter(x: int)
    requires x >= 1
    ensures ToNumber(Decimal(SliderToText(x))) == Finite(SliderToText(x))
  {
    var s := Decimal(SliderToText(x));
    DecimalValue(SliderToText(x));
    assert '0' <= s[0] <= '9';
  }

  /** The decimal text of any integer, with a leading `-` when it is negative. */
  function SignedDecimal(n: int): string {
    if n < 0 then "-" + Decimal(-n) else Decimal(n)
  }

  /** `Number` reads every integer back from its decimal text. */
  lemma NumberOfDecimal(n: int)
    ensures ToNumber(SignedDecimal(n)) == Finite(n)
  {
    if n < 0 {
      var s := SignedDecimal(n);
      DecimalValue(-n);
      assert s[1..] == Decimal(-n);
    } else {
      DecimalValue(n);
      assert '0' <= Decimal(n)[0] <= '9';
    }
  }

  // ---------------------------------------------------------------------------------------
  // Keyword-argument form

  /** The dictionary `fetch_kwargs` builds from the first `|keys|` pairs: entries are written
      in order, so a later duplicate key overwrites an earlier one. */
  function Collected(keys: seq<string>, values: seq<string>): map<string, string>
    requires |keys| <= |values|
  {
    if |keys| == 0 then map[]
    else Collected(keys[..|keys| - 1], values)[keys[|keys| - 1] := values[|keys| - 1]]
  }

  /** No key is repeated after position `i`. */
  predicate LastOccurrence(keys: seq<string>, i: int)
    requires 0 <= i < |keys|
  {
    forall j :: i < j < |keys| ==> keys[j] != keys[i]
  }

  /** One entry per distinct key. */
  lemma {:induction false} CollectedKeys(keys: seq<string>, values: seq<string>)
    requires |keys| <= |values|
    ensures Collected(keys, values).Keys == set i | 0 <= i < |keys| :: keys[i]
  {
    if |keys| > 0 {
      var init := keys[..|keys| - 1];
      CollectedKeys(init, values);
      assert (set i | 0 <= i < |keys| :: keys[i])
          == (set i | 0 <= i < |init| :: init[i]) + {keys[|keys| - 1]};
    }
  }

  /** A key's value is the one paired with its last occurrence. */
  lemma {:induction false} CollectedLastWins(keys: seq<string>, values: seq<string>, i: int)
    requires |keys| <= |values| && 0 <= i < |keys| && LastOccurrence(keys, i)
    ensures keys[i] in Collected(keys, values)
    ensures Collected(keys, values)[keys[i]] == values[i]
  {
    if i < |keys| - 1 {
      var init := keys[..|keys| - 1];
      assert LastOccurrence(init, i);
      CollectedLastWins(init, values, i);
    }
  }

  /** `fetch_kwargs`. The values list is read at the same positions as the keys list; a values
      list shorter than the keys list makes `values[i].value` throw, and nothing is returned. */
  method FetchKwargs(keys: seq<string>, values: seq<string>)
    returns (kwargs: Option<map<string, string>>)
    ensures kwargs.None? <==> |values| < |keys|
    ensures kwargs.Some? ==> kwargs.value == Collected(keys, values)
  {
    var dict := map[];
    for i := 0 to |keys|
      invariant i <= |values|
      invariant dict == Collected(keys[..i], values)
    {
      if i >= |values| {
        return None;
      }
      assert keys[..i + 1][..i] == keys[..i];
      dict := dict[keys[i] := values[i]];
    }
    assert keys[..|keys|] == keys;
    return Some(dict);
  }

  // ---------------------------------------------------------------------------------------
  // Requests and responses

  /** `Number(kwargs["batch_size"])`; `Number(undefined)` is NaN. */
  function Requested(kwargs: map<string, string>): Num {
    if "batch_size" in kwargs then ToNumber(kwargs["batch_size"]) else NaN
  }

  /** The `kwargs` object a round posts: the form's fields, then `batch_size` and `context`
      written over whatever the form gave them. */
  datatype Request = Request(form: map<string, string>, batch: Num, context: string)

  /** The JSON object `JSON.stringify(kwargs)` sends: every form field as a string, the batch
      size as a number (or `null` for NaN) and the text window's content. */
  function Body(request: Request): (body: Object)
    ensures body.Keys == request.form.Keys + {"batch_size", "context"}
    ensures body["batch_size"] == ToJson(request.batch) && body["context"] == Str(request.context)
    ensures forall k :: k in request.form && k != "batch_size" && k != "context" ==>
      body[k] == Str(request.form[k])
  {
    (map k | k in request.form :: Str(request.form[k]))
      ["batch_size" := ToJson(request.batch)]["context" := Str(request.context)]
  }

  /** What a round's `fetch` comes to: a rejection (network failure, or a body `response.json()`
      cannot parse, such as the plain-text 400 answer), or a parsed object with or without a
      string `context`. */
  datatype Response = Rejected | Resolved(context: Option<string>)

  /** The text window after a round: a rejection is caught and leaves it alone; otherwise it
      shows `json['context']`, and an absent field is `undefined`, which the text area shows
      as the word "undefined". */
  function Applied(text: string, response: Response): (r: string)
    ensures response.Rejected? ==> r == text
    ensures response.Resolved? && response.context.Some? ==> r == response.context.value
  {
    match response
    case Rejected => text
    case Resolved(None) => "undefined"
    case Resolved(Some(c)) => c
  }

  /** The text window after the replies to `sent` have landed one after another, starting
      from `start`. */
  function Replay(start: string, sent: seq<Request>, server: Object -> Response): string {
    if |sent| == 0 then start
    else Applied(Replay(start, sent[..|sent| - 1], server), server(Body(sent[|sent| - 1])))
  }

  // ---------------------------------------------------------------------------------------
  // Countdown

  function Sum(s: seq<int>): int {
    if |s| == 0 then 0 else s[0] + Sum(s[1..])
  }

  /** The batch sizes of the rounds a counter of `remaining` goes through when each round asks
      for `batch` items: `min(batch, remaining)`, subtracted from the counter. */
  function Countdown(batch: int, remaining: int): seq<int>
    requires batch >= 1
    decreases remaining
  {
    if remaining <= 0 then []
    else
      var b := if batch < remaining then batch else remaining;
      [b] + Countdown(batch, remaining - b)
  }

  /** The batches sent add up to the initial counter, every batch is between 1 and the
      requested size, and only the last can be smaller than requested. */
  lemma {:induction false} CountdownSums(batch: int, remaining: int)
    requires batch >= 1
    ensures Sum(Countdown(batch, remaining)) == if remaining > 0 then remaining else 0
    ensures forall i :: 0 <= i < |Countdown(batch, remaining)| ==>
      1 <= Countdown(batch, remaining)[i] <= batch
    ensures forall i :: 0 <= i < |Countdown(batch, remaining)| - 1 ==>
      Countdown(batch, remaining)[i] == batch
    decreases remaining
  {
    if remaining > 0 {
      var b := if batch < remaining then batch else remaining;
      CountdownSums(batch, remaining - b);
      var rest := Countdown(batch, remaining - b);
      assert Countdown(batch, remaining) == [b] + rest;
      assert ([b] + rest)[1..] == rest;
      if b < batch {
        assert rest == [];
      }
    }
  }

  /** The requests of a run so far: each carries the form, its batch, and the text the
      replies before it left. */
  predicate RequestsSent(sent: seq<Request>, form: map<string, string>, batches: seq<int>,
                         start: string, server: Object -> Response)
  {
    |batches| == |sent|
    && forall i :: 0 <= i < |sent| ==>
         sent[i] == Request(form, Finite(batches[i]), Replay(start, sent[..i], server))
  }

  /** Replaying a first request and then the rest is replaying the rest from the text the
      first reply left. */
  lemma {:induction false} ReplayFirst(start: string, first: Request, rest: seq<Request>,
                                       server: Object -> Response)
    ensures Replay(start, [first] + rest, server)
         == Replay(Applied(start, server(Body(first))), rest, server)
    decreases |rest|
  {
    if |rest| > 0 {
      var all := [first] + rest;
      assert all[..|all| - 1] == [first] + rest[..|rest| - 1];
      ReplayFirst(start, first, rest[..|rest| - 1], server);
    }
  }

  /** The requests a chain of `generate` calls posts round after round, starting from counter
      `remaining` and text `text`: each asks for `min(requested, remaining)` items with the
      text the previous reply left, until the counter is no longer positive. */
  function Run(form: map<string, string>, requested: Num, remaining: Num, text: string,
               server: Object -> Response): (r: seq<Request>)
    requires requested.NaN? || requested.v >= 1
    ensures |r| > 0 <==> Positive(remaining)
    decreases if Positive(remaining) then remaining.v + 1 else 0
  {
    if !Positive(remaining) then []
    else
      var request := Request(form, Min(requested, remaining), text);
      [request] + Run(form, requested, Sub(remaining, request.batch),
                      Applied(text, server(Body(request))), server)
  }

  /** Every request of a run carries the form; the first carries the starting text; the
      batches are NaN exactly when the requested size is, and a numeric batch is between 1
      and the starting counter. */
  lemma {:induction false} RunShape(form: map<string, string>, requested: Num, remaining: Num,
                                    text: string, server: Object -> Response)
    requires requested.NaN? || requested.v >= 1
    ensures var r := Run(form, requested, remaining, text, server);
      (|r| > 0 ==> r[0].context == text)
      && forall i :: 0 <= i < |r| ==>
           r[i].form == form
           && (r[i].batch.NaN? <==> requested.NaN?)
           && (r[i].batch.Finite? ==> remaining.Finite? && 1 <= r[i].batch.v <= remaining.v)
    decreases if Positive(remaining) then remaining.v + 1 else 0
  {
    if Positive(remaining) {
      var first := Request(form, Min(requested, remaining), text);
      var next := Sub(remaining, first.batch);
      var nextText := Applied(text, server(Body(first)));
      RunShape(form, requested, next, nextText, server);
      var rest := Run(form, requested, next, nextText, server);
      assert Run(form, requested, remaining, text, server) == [first] + rest;
      assert forall i :: 0 < i <= |rest| ==> ([first] + rest)[i] == rest[i - 1];
    }
  }

  /** One more round of a run: the request just posted joins those before it. */
  lemma RunStep(form: map<string, string>, requested: Num, remaining: Num, text: string,
                server: Object -> Response, done: seq<Request>, whole: seq<Request>)
    requires requested.NaN? || requested.v >= 1
    requires Positive(remaining)
    requires done + Run(form, requested, remaining, text, server) == whole
    ensures var request := Request(form, Min(requested, remaining), text);
      (done + [request])
      + Run(form, requested, Sub(remaining, request.batch), Applied(text, server(Body(request))), server)
      == whole
  {
    var request := Request(form, Min(requested, remaining), text);
    var rest := Run(form, requested, Sub(remaining, request.batch),
                    Applied(text, server(Body(request))), server);
    assert Run(form, requested, remaining, text, server) == [request] + rest;
    assert (done + [request]) + rest == done + ([request] + rest);
  }

  /** With a batch size that is not a number, a positive counter goes through one round only,
      which asks for NaN items. */
  lemma RunNaN(form: map<string, string>, remaining: Num, text: string, server: Object -> Response)
    requires Positive(remaining)
    ensures Run(form, NaN, remaining, text, server) == [Request(form, NaN, text)]
  {
  }

  /** A request with the starting text, followed by requests sent from the text its reply
      left, is a run sent from the starting text. */
  lemma RequestsSentFirst(first: Request, rest: seq<Request>, form: map<string, string>, b: int,
                          batches: seq<int>, start: string, server: Object -> Response)
    requires first == Request(form, Finite(b), start)
    requires RequestsSent(rest, form, batches, Applied(start, server(Body(first))), server)
    ensures RequestsSent([first] + rest, form, [b] + batches, start, server)
  {
    var sent := [first] + rest;
    var next := Applied(start, server(Body(first)));
    forall i | 0 < i < |sent|
      ensures Replay(start, sent[..i], server) == Replay(next, rest[..i - 1], server)
    {
      assert sent[..i] == [first] + rest[..i - 1];
      ReplayFirst(start, first, rest[..i - 1], server);
    }
  }

  /** With a batch size of at least 1, a run asks for exactly the batches of `Countdown`, and
      every request carries the text the replies before it left. */
  lemma {:induction false} RunCountdown(form: map<string, string>, requested: int, remaining: int,
                                        text: string, server: Object -> Response)
    requires requested >= 1
    ensures RequestsSent(Run(form, Finite(requested), Finite(remaining), text, server), form,
                         Countdown(requested, remaining), text, server)
    decreases if remaining > 0 then remaining else 0
  {
    if remaining > 0 {
      var b := if requested < remaining then requested else remaining;
      var first := Request(form, Finite(b), text);
      var next := Applied(text, server(Body(first)));
      var rest := Run(form, Finite(requested), Finite(remaining - b), next, server);
      var sent := Run(form, Finite(requested), Finite(remaining), text, server);
      assert Min(Finite(requested), Finite(remaining)) == Finite(b);
      assert Sub(Finite(remaining), Finite(b)) == Finite(remaining - b);
      assert sent == [first] + rest;
      assert Countdown(requested, remaining) == [b] + Countdown(requested, remaining - b);
      RunCountdown(form, requested, remaining - b, next, server);
      RequestsSentFirst(first, rest, form, b, Countdown(requested, remaining - b), text, server);
    }
  }

  /** The counter after `rounds` calls of `generate` that each ask for `requested` items:
      each call with a positive counter takes `Math.min(requested, remaining)` off it, as
      `Page.Dispatch` does, and a call with a counter that is not positive changes nothing. */
  function CounterAfter(requested: int, remaining: Num, rounds: nat): Num
    decreases rounds
  {
    if rounds == 0 || !Positive(remaining) then remaining
    else CounterAfter(requested, Sub(remaining, Min(Finite(requested), remaining)), rounds - 1)
  }

  /** A batch size of 0 or less never brings the counter down: however many rounds run, it
      stays positive and at least where it started, so the rounds never stop by themselves. */
  lemma {:induction false} NonPositiveBatchNeverFinishes(requested: int, remaining: Num, rounds: nat)
    requires requested <= 0 && Positive(remaining)
    ensures Positive(CounterAfter(requested, remaining, rounds))
    ensures CounterAfter(requested, remaining, rounds).v >= remaining.v
    decreases rounds
  {
    if rounds > 0 {
      var next := Sub(remaining, Min(Finite(requested), remaining));
      assert next == Finite(remaining.v - requested);
      NonPositiveBatchNeverFinishes(requested, next, rounds - 1);
    }
  }

  /** A round keeps going for ever: the counter is positive and the form asks for a finite
      batch size of 0 or less. */
  predicate Runaway(keys: seq<string>, values: seq<string>, remaining: Num) {
    Positive(remaining) && |keys| <= |values|
    && Requested(Collected(keys, values)).Finite?
    && Requested(Collected(keys, values)).v <= 0
  }

  /** What one call of `generate` did up to its request. */
  datatype Round =
    | Idle                    // the counter was not positive
    | Crashed                 // `fetch_kwargs` threw; the chain of rounds ends here
    | Posted(request: Request)

  /** The page's state: the text window's content and `remaining_generations`. */
  class Page {
    var text: string
    var remaining: Num

    constructor (initialText: string)
      ensures text == initialText && remaining == Finite(0)
    {
      text := initialText;
      remaining := Finite(0);
    }

    /** The first half of `generate`: with a positive counter, read the form, send
        `min(requested, remaining)` items' worth of request with the current text, and take
        that batch off the counter before the reply comes. */
    method Dispatch(keys: seq<string>, values: seq<string>) returns (round: Round)
      modifies this
      ensures text == old(text)
      ensures !Positive(old(remaining)) ==> round == Idle && remaining == old(remaining)
      ensures Positive(old(remaining)) && |values| < |keys| ==>
        round == Crashed && remaining == old(remaining)
      ensures Positive(old(remaining)) && |keys| <= |values| ==>
        var batch := Min(Requested(Collected(keys, values)), old(remaining));
        round == Posted(Request(Collected(keys, values), batch, old(text)))
        && remaining == Sub(old(remaining), batch)
    {
      if !Positive(remaining) {
        return Idle;
      }
      var kwargs := FetchKwargs(keys, values);
      if kwargs.None? {
        return Crashed;
      }
      var batch := Min(Requested(kwargs.value), remaining);
      round := Posted(Request(kwargs.value, batch, text));
      remaining := Sub(remaining, batch);
    }

    /** The second half of `generate`: the reply lands in the text window, or the error is
        caught and the text stays. */
    method Complete(response: Response)
      modifies this
      ensures text == Applied(old(text), response) && remaining == old(remaining)
    {
      match response {
        case Rejected =>
        case Resolved(None) => text := "undefined";
        case Resolved(Some(c)) => text := c;
      }
    }

    /** One call of `generate` with a positive counter: read the form, post a request for
        `min(requested, remaining)` items with the current text, take that batch off the
        counter, and put the reply in the text window. `None` when `fetch_kwargs` throws,
        which ends the chain of rounds. */
    method Round(keys: seq<string>, values: seq<string>, server: Object -> Response)
      returns (posted: Option<Request>)
      requires Positive(remaining)
      modifies this
      ensures |values| < |keys| ==>
        posted == None && remaining == old(remaining) && text == old(text)
      ensures |keys| <= |values| ==>
        var batch := Min(Requested(Collected(keys, values)), old(remaining));
        posted == Some(Request(Collected(keys, values), batch, old(text)))
        && remaining == Sub(old(remaining), batch)
        && text == Applied(old(text), server(Body(posted.value)))
    {
      var round := Dispatch(keys, values);
      if round.Crashed? {
        return None;
      }
      Complete(server(Body(round.request)));
      posted := Some(round.request);
    }

    /** The stop button. */
    method Stop()
      modifies this
      ensures remaining == Finite(0) && text == old(text)
    {
      remaining := Finite(0);
    }

    /** The clear button. */
    method Clear()
      modifies this
      ensures text == "" && remaining == old(remaining)
    {
      text := "";
    }

    /** `generate` run round after round until the counter is no longer positive, with the
        server's answer to each request given by `server`. Every request carries the form's
        fields and the text the replies before it left; with a finite requested batch size the
        batches are exactly `Countdown` and the counter ends at 0; with NaN one request goes
        out and the counter becomes NaN. */
    method Generate(keys: seq<string>, values: seq<string>, server: Object -> Response)
      returns (sent: seq<Request>)
      requires !Runaway(keys, values, remaining)
      modifies this
      ensures !Positive(old(remaining)) || |values| < |keys| ==>
        sent == [] && remaining == old(remaining)
      ensures Positive(old(remaining)) && |keys| <= |values| ==>
        var requested := Requested(Collected(keys, values));
        (requested.NaN? || requested.v >= 1)
        && sent == Run(Collected(keys, values), requested, old(remaining), old(text), server)
      ensures Positive(old(remaining)) && |keys| <= |values|
              && Requested(Collected(keys, values)).NaN? ==>
        sent == [Request(Collected(keys, values), NaN, old(text))] && remaining == NaN
      ensures Positive(old(remaining)) && |keys| <= |values|
              && Requested(Collected(keys, values)).Finite? ==>
        remaining == Finite(0)
        && RequestsSent(sent, Collected(keys, values),
                        Countdown(Requested(Collected(keys, values)).v, old(remaining).v),
                        old(text), server)
      ensures text == Replay(old(text), sent, server)
    {
      sent := [];
      ghost var ok := |keys| <= |values|;
      ghost var kwargs := if ok then Collected(keys, values) else map[];
      ghost var requested := Requested(kwargs);
      ghost var running := ok && Positive(old(remaining));
      while Positive(remaining)
        invariant !running ==> sent == [] && remaining == old(remaining)
        invariant running ==> requested.NaN? || requested.v >= 1
        invariant running ==>
          sent + Run(kwargs, requested, remaining, text, server)
          == Run(kwargs, requested, old(remaining), old(text), server)
        invariant running && requested.NaN? ==> remaining == old(remaining) || remaining == NaN
        invariant running && requested.Finite? ==> remaining.Finite? && remaining.v >= 0
        invariant text == Replay(old(text), sent, server)
        decreases if Positive(remaining) then remaining.v else 0
      {
        ghost var before := remaining;
        ghost var beforeText := text;
        var posted := Round(keys, values, server);
        if posted.None? {
          break;
        }
        var request := posted.value;
        RunStep(kwargs, requested, before, beforeText, server, sent,
                Run(kwargs, requested, old(remaining), old(text), server));
        assert (sent + [request])[..|sent|] == sent;
        sent := sent + [request];
      }
      if running {
        if requested.NaN? {
          RunNaN(kwargs, old(remaining), old(text), server);
        } else {
          RunCountdown(kwargs, requested.v, old(remaining).v, old(text), server);
        }
      }
    }

    /** The generate button: the counter is set from the text box, then rounds run. */
    method ClickGenerate(textbox: string, keys: seq<string>, values: seq<string>,
                         server: Object -> Response)
      returns (sent: seq<Request>)
      requires !Runaway(keys, values, ToNumber(textbox))
      modifies this
      ensures !Positive(ToNumber(textbox)) || |values| < |keys| ==>
        sent == [] && remaining == ToNumber(textbox) && text == old(text)
      ensures Positive(ToNumber(textbox)) && |keys| <= |values| ==>
        var requested := Requested(Collected(keys, values));
        (requested.NaN? || requested.v >= 1)
        && sent == Run(Collected(keys, values), requested, ToNumber(textbox), old(text), server)
      ensures Positive(ToNumber(textbox)) && |keys| <= |values|
              && Requested(Collected(keys, values)).NaN? ==>
        sent == [Request(Collected(keys, values), NaN, old(text))] && remaining == NaN
      ensures Positive(ToNumber(textbox)) && |keys| <= |values|
              && Requested(Collected(keys, values)).Finite? ==>
        var cd := Countdown(Requested(Collected(keys, values)).v, ToNumber(textbox).v);
        remaining == Finite(0) && RequestsSent(sent, Collected(keys, values), cd, old(text), server)
      ensures text == Replay(old(text), sent, server)
    {
      remaining := ToNumber(textbox);
      sent := Generate(keys, values, server);
    }
  }

  /** Stop pressed while a request is in flight: the reply still lands in the text window, and
      the round that would have followed finds the counter at 0 and sends nothing. */
  method StopDuringRound(page: Page, keys: seq<string>, values: seq<string>, response: Response)
    returns (next: Round)
    requires Positive(page.remaining) && |keys| <= |values|
    modifies page
    ensures page.remaining == Finite(0)
    ensures page.text == Applied(old(page.text), response)
    ensures next == Idle
  {
    var round := page.Dispatch(keys, values);
    page.Stop();
    page.Complete(response);
    next := page.Dispatch(keys, values);
  }
}
