# Artois generation loop, modelled in Dafny

Artois is a small text-generation playground. A web page (`script.js`) keeps a text window, a
batch-size slider and a form of keyword arguments. The generate button starts a chain of
rounds. Each round posts the form, the batch size and the current text to a local HTTP server.
The server's `generate` method extends the text, and the reply replaces the text window. Each
of three server scripts defines its own copy of a request-handler base class, `ArtoisServer`.
The copies agree on `parse_generate_kwargs`, the guard in `do_POST` and the path rewrite of
`do_GET`, and differ elsewhere:

- `public/main.py` cycles through the letters a..i, answers with three-character tokens, and
  sends `.js` files as `text/javascript`;
- `src/artois/main.py` appends successive code points and answers with `{'context': ...}`;
- `main.py` appends a fixed greeting and has no `start` class method.

The model has one module per concern:

| module | file | models |
|---|---|---|
| `Wrappers` | `wrappers.dfy` | `Option` |
| `Json` | `json.dfy` | the JSON values a request body carries |
| `ArtoisServer` | `artois_server.dfy` | what the three copies of the base class share: keyword-argument forwarding, the guard in front of `generate`, the path rewrite and file lookup of `do_GET` |
| `PublicExample` | `public_example.dfy` | `public/main.py` |
| `PackageExample` | `package_example.dfy` | `src/artois/main.py` |
| `RootImpl` | `root_impl.dfy` | `main.py` |
| `Client` | `client.dfy` | `script.js` |
| `Wire` | `wire.dfy` | how the two generating servers read what the page posts |

The page's mutable state, the text window and `remaining_generations`, is the class
`Client.Page`. The server's answer to each request is a function parameter
`server: Object -> Response`. `generate` ends by calling itself while the counter is positive.
That tail call becomes the `while` loop of `Page.Generate`, which is proved against the
specification function `Run` (the requests a chain posts). Lemmas then prove what `Run` means:

- with a batch size of 1 or more, the batches are exactly `Countdown`;
- their sum is the starting counter;
- every request carries the text that the replies before it left.

The generate button's handler stores the text box's string into `remaining_generations`.
JavaScript's `>`, `Math.min` and `-=` convert it with `Number`, so `ClickGenerate` applies
`ToNumber` once, up front.

## Model

| member | source | states |
|---|---|---|
| ArtoisServer.ParseGenerateKwargs | public/main.py:15-24 | the forwarded keys are exactly the parameters of `generate` after `self` that the request carries, each with its value unchanged; other request fields are dropped (the same text is at src/artois/main.py:14-23 and main.py:13-22) |
| ArtoisServer.Precheck | public/main.py:40-50 | the request reaches `generate` iff it is a POST to `/` with a `context` field; other paths get no answer; a missing `context` gets 400 "Missing context field" |
| ArtoisServer.ServedFile | src/artois/main.py:25-29 | `/` is served from `index.html`; any other path opens the name after its leading `/` |
| ArtoisServer.Get | src/artois/main.py:25-35 | status 200 iff the named file opens, with its contents as the body; otherwise 404 "File not found"; no content type is set (also main.py:24-34) |
| PublicExample.Successor | public/main.py:90 | the appended letter is always in a..i; a..h step to the next letter and i wraps to a |
| PublicExample.ExtendedAt | public/main.py:86-94 | after n iterations the context is a prefix, exactly n characters follow, and character k is `(phase + k - len) % 9 + 97` |
| PublicExample.FromEmpty | public/main.py:86-94 | from an empty context the output is "abcdefghi" repeated, cut to n characters |
| PublicExample.SuccessorChain | public/main.py:86-94 | the first appended letter follows the context's last (a for an empty context), and each later one is the cyclic successor of the one before it |
| PublicExample.Generate | public/main.py:83-94 | the loop's result is the closed form `Extended`: a negative count runs no iteration, the context is kept as a prefix, and every appended character is in a..i |
| PublicExample.Tokenise | public/main.py:57-60 | `len // 3` tokens; token i is characters 3i..3i+3; every token has three characters; together they are the text minus at most two trailing characters |
| PublicExample.BatchArg | public/main.py:83-86 | `int(batch_size)` with the default 1: an absent field gives 1, a JSON integer gives itself, and anything else (`null` included) raises |
| PublicExample.Invoke | public/main.py:54 | `generate(**kwargs)` succeeds iff `int(batch_size)` and the string operations do, and then returns `Extended` of the context |
| PublicExample.HandlePost | public/main.py:40-73 | other paths: nothing; missing context: 400; a failing `generate`: no response; otherwise 200 with the generated text's complete three-character tokens, in order |
| PublicExample.Get | public/main.py:26-38 | as the shared `do_GET`, and a file that opens is sent as `text/javascript` iff its path ends in `.js` |
| PackageExample.Successor | src/artois/main.py:72 | `chr(ord(c) + 1)` is the next code point, and fails past U+10FFFF |
| PackageExample.ExtendedAt | src/artois/main.py:68-76 | the loop succeeds iff the n code points from the start are all characters; then the context is a prefix, followed by n consecutive code points |
| PackageExample.FromEmpty | src/artois/main.py:68-76 | from an empty context the loop succeeds iff it stays below the surrogates (n <= 0xD800 - 97), and then the output is "abc..." up to n characters |
| PackageExample.SuccessorChain | src/artois/main.py:68-76 | each appended code point is one more than the one before it; the first is one more than the context's last |
| PackageExample.RaisesPastLastCodePoint | src/artois/main.py:72 | once the steps would pass U+10FFFF, `generate` raises |
| PackageExample.Generate | src/artois/main.py:66-76 | the loop's result is `Extended`; on success the context is a prefix and exactly `max(0, batch_size)` characters follow |
| PackageExample.BatchArg | src/artois/main.py:66-68 | the `range(batch_size)` count with the default 1: an absent field gives 1, a JSON integer gives itself, and anything else (`null` included) makes `range` raise |
| PackageExample.Invoke | src/artois/main.py:51 | `generate(**kwargs)` returns the context unchanged, whatever its type, when the count is 0 or less; otherwise it returns the extended string, or raises |
| PackageExample.HandlePost | src/artois/main.py:37-56 | other paths: nothing; missing context: 400; otherwise 200 with `{'context': generated}`, or no response when `generate` raises; a string context is a prefix of the answer |
| RootImpl.Generate | main.py:60-62 | the answer is the context followed by exactly ", Hello World!" |
| RootImpl.HandlePost | main.py:36-55 | other paths: nothing; missing context: 400; a string context gets 200 with the greeting appended; any other context makes `+` raise |
| RootImpl.ForwardedToImpl | main.py:48-50 | `batch_size` never reaches `ArtoisImpl.generate`; only `context`, `max_tokens` and `min_tokens` can, with their values unchanged |
| Client.SliderToText | script.js:69-79 | every step of 1 or more gives a batch size of at least 1; what the mapping computes is stated by `SliderOddIsMean`, `SliderMatchesTable`, `SliderStep`, `SliderIncreasing`, `SliderDoubles` and `EvenStepRoundTrip` |
| Client.SliderOddIsMean | script.js:74-77 | an odd step past 1 is the exact mean of the powers of two on either side, 3 * 2^((x-3)/2) |
| Client.SliderMatchesTable | script.js:65-79 | steps 1..26 give exactly the table in the comment above `slider_to_text_mapping` |
| Client.SliderStep | script.js:69-79 | each step gives a larger batch size than the one before |
| Client.SliderIncreasing | script.js:69-79 | the mapping is strictly increasing |
| Client.SliderDoubles | script.js:69-79 | from step 2 on, two steps up double the batch size |
| Client.EvenStepRoundTrip | script.js:81-83 | `text_to_slider_mapping` undoes `slider_to_text_mapping` on even steps |
| Client.DecimalValue | script.js:86 | reading back the decimal text of a non-negative integer gives the integer |
| Client.SliderSetsCounter | script.js:85-90 | the number the slider writes into the text box is the counter the generate button reads back |
| Client.ToNumber | script.js:18 | `Number` of a form or text-box string is a number iff the string is empty, or decimal digits with an optional sign; `NumberOfDecimal` and `SliderSetsCounter` show it reads integers back from their text |
| Client.NumberOfDecimal | script.js:48 | `Number` of the decimal text of any integer, negative ones included, is that integer |
| Client.Min | script.js:18 | `Math.min` is NaN iff either side is, and otherwise the smaller side |
| Client.CollectedKeys | script.js:52-63 | the form dictionary has one entry per distinct key |
| Client.CollectedLastWins | script.js:58-60 | a repeated key keeps the value of its last occurrence |
| Client.FetchKwargs | script.js:52-63 | throws iff there are fewer values than keys; otherwise returns the dictionary built in order |
| Client.Body | script.js:18-33 | the posted object has the form's keys plus `batch_size` and `context`; `batch_size` is the clamped number (`null` for NaN); `context` is the text; other fields are strings |
| Client.Applied | script.js:36-41 | a failed fetch leaves the text window alone; a reply with a `context` string replaces it |
| Client.CountdownSums | script.js:14-23 | the batches sent add up to the starting counter; each is between 1 and the requested size, and only the last can be smaller |
| Client.NonPositiveBatchNeverFinishes | script.js:18-23 | with a batch size of 0 or less, the page's step `remaining - Math.min(batch, remaining)` never brings a positive counter down, however many rounds run, so the rounds never end by themselves |
| Client.Run | script.js:14-44 | the chain of `generate` calls posts a request iff the counter is positive; what each request holds is stated by `RunShape`, `RunNaN` and `RunCountdown`, and `Page.Generate` is proved equal to it |
| Client.RunShape | script.js:18-23 | every request of a chain carries the form; the first carries the starting text; a batch is NaN iff the requested size is, and a numeric batch is between 1 and the starting counter |
| Client.RunNaN | script.js:18-23 | a batch size that is not a number sends one request for NaN items and no more |
| Client.RunCountdown | script.js:14-44 | with a batch size of at least 1, the chain asks for exactly the `Countdown` batches; each request carries the form and the text the replies before it left |
| Client.Page.constructor | script.js:12 | the counter starts at 0 |
| Client.Page.Dispatch | script.js:15-23 | with a positive counter the form is read, `min(requested, remaining)` is sent with the current text and taken off the counter before the reply; the text is untouched; a thrown `fetch_kwargs` leaves the counter alone |
| Client.Page.Complete | script.js:27-41 | the reply lands in the text window (`undefined` without a `context`) or the error is caught; the counter is untouched |
| Client.Page.Round | script.js:14-44 | one round: the request posted, the counter decreased by its batch, and the text replaced by the reply to exactly that request |
| Client.Page.Stop | script.js:93-95 | the counter becomes 0 and the text stays |
| Client.Page.Clear | script.js:97-99 | the text becomes empty and the counter stays |
| Client.Page.Generate | script.js:14-45 | the requests posted are `Run` of the form, counter and text. A batch size of 1 or more ends with the counter at 0 after the `Countdown` batches; NaN sends one request and leaves the counter NaN. A non-positive counter or a thrown `fetch_kwargs` sends nothing. The text ends as the replies left it |
| Client.Page.ClickGenerate | script.js:47-50 | the counter is set from the text box. The requests posted are `Run` from that counter. A non-positive value or a thrown `fetch_kwargs` sends nothing and leaves the counter at the text box's value. NaN sends one request and leaves the counter NaN. A batch size of 1 or more runs the `Countdown` batches down to 0. The text ends as the replies left it |
| Wire.BatchReachesServer | script.js:18-33 | the batch size a round posts reaches both servers' `generate` unchanged, and NaN, posted as `null`, makes both raise |
| Client.StopDuringRound | script.js:93-95 | stop pressed while a request is in flight: the reply still lands, and the next round finds the counter at 0 and sends nothing |

## Left out

- Sockets, HTTP parsing, headers, `Content-Length`, byte encoding, `json.loads` and `JSON.stringify` as text: a request is a JSON object value and a reply is a `Reply` value.
- Malformed or non-object POST bodies: `json.loads` failures and non-dict JSON are not modelled; `Object` is always a dictionary.
- File reading in `do_GET`: the readable files are a map parameter.
- `inspect.getfullargspec`: each `generate` signature is written down as its parameter list (`Params`).
- The mock attention matrix of `public/main.py` (numpy, randomness): it is not part of `TokensJson`.
- `sleep`, `print`, `console.log`, `console.error` and the `start` method that binds the server: no observable effect on the state modelled.
- Concurrency: a second click of generate while a chain runs starts a second interleaved chain; the model runs one chain at a time. Only a stop during one request is modelled (`StopDuringRound`).
- Client.Page.Generate: the form's keys and values are fixed for the whole chain. The page re-reads the form on every round (script.js:16), so a form edit made while a request is in flight reaches the next round. The model cannot represent that. It also cannot represent a text edit made while a request is in flight that is later rejected; the page sends that edited text in the next round.
- PublicExample.BatchArg: `int(batch_size)` of a numeric string, a float or a boolean is not modelled and counts as a failure. The page can send a fraction: a form `batch_size` of "1.5" is posted as 1.5, and `int` truncates it to 1. The model's page never sends one only because `Client.ToNumber` reads decimal fractions as NaN.
- PackageExample.BatchArg: `range(True)` (a boolean count) is not modelled and counts as a failure.
- PublicExample.Invoke: with a count of 0 or less and a list or dictionary context, `generate` returns that value unchanged. A list is then cut into tokens. A dictionary of three or more entries makes the slice raise, and a smaller one gives no tokens. The model counts every such context as a failure; the page always sends a string.
- PackageExample.Successor: the step from U+D7FF to U+D800 gives a lone surrogate in Python; a Dafny `char` cannot hold one, so the model fails there.
- Client.ToNumber: JavaScript numbers are doubles; the model's `Finite` integers are unbounded and exact. Counters and batch sizes are assumed below 2^53. Above it, `Number` rounds ("9007199254740993" is 9007199254740992), and `remaining_generations -= batch_size` can round back to the same counter, so the chain never ends. `CountdownSums`, `RunCountdown` and `Page.Generate` promise the countdown only under that assumption.
- Client.FetchKwargs: a form key `__proto__` with a string value creates no property in JavaScript (the `__proto__` setter ignores non-objects), so that field never reaches the posted body. `Collected`, `CollectedKeys` and `Body` treat it like any other key.
- Client.ToNumber: `Number` of decimals, exponents, hexadecimal, `Infinity` and surrounding white space is not modelled; such strings count as NaN.
- Client.SliderToText: steps below 1 and non-integer steps are not modelled; the slider starts at 1.
- Client.EvenStepRoundTrip: `Math.log2` off the powers of two (odd steps and arbitrary text) is floating point and not modelled.
- Client.Applied: a reply whose `context` is not a string (`null`, a number) is not modelled.
- Client.Page.Generate: requires that the chain is not a runaway, meaning a finite batch size of 0 or less with a positive counter. Such a chain posts for ever. `NonPositiveBatchNeverFinishes` proves that the counter never drops.
- Client.Page.ClickGenerate: requires the same of the counter read from the text box. A click with a positive text box and a form batch size of 0 or less (text box "5", `batch_size` "0") is accepted by the page and posts for ever; the model says nothing about that click beyond `NonPositiveBatchNeverFinishes`.
- PackageExample.FromEmpty: past U+D7FF Python goes on through the surrogates up to U+10FFFF; the model fails at the first surrogate (see `PackageExample.Successor`), so `FromEmpty` promises output only up to n = 0xD800 - 97.
- The mismatch between the page and `public/main.py` is modelled as written: that server answers with `tokens` and no `context`, so the page shows "undefined".
