/** The abstract request handler `ArtoisServer`. Each of the three server scripts defines its
    own copy, and the copies differ: public/main.py sets a content type for `.js` files and
    answers with tokens, and main.py has no `start`. What all three share lives here:
    `parse_generate_kwargs`, the guard in `do_POST` in front of `generate`, and the path
    rewrite and file lookup of `do_GET` (whose content-type variant is in `PublicExample`). */
module ArtoisServer {
  import opened Wrappers
  import opened Json

  /** The body the client receives. */
  datatype Body =
    | Plain(text: string)                 // a bare string written to the socket
    | ContextJson(context: Value)         // `json.dumps({'context': generated})`
    | TokensJson(tokens: seq<string>)     // `{'tokens': [{'text': t}, ...], ...}`, attention left out

  /** What a handler does with one request. */
  datatype Reply =
    | NoReply                             // the handler returns without writing anything
    | Raised                              // an exception escapes the handler: no response is sent
    | Sent(status: int, contentType: Option<string>, body: Body)

  const MissingContextReply := Sent(400, None, Plain("Missing context field"))
  const NotFoundReply := Sent(404, None, Plain("File not found"))

  /** Python's `args[1:]`: every name after the first, empty for an empty list. */
  function Tail(args: seq<string>): seq<string> {
    if |args| == 0 then [] else args[1..]
  }

  /** `parse_generate_kwargs`: `args` is the positional parameter list of `generate` as
      `inspect.getfullargspec` reports it, `self` first. The first name is skipped, and each
      remaining name the request carries is forwarded with its value unchanged; request fields
      that are not parameters of `generate` are dropped. */
  method ParseGenerateKwargs(args: seq<string>, obj: Object) returns (kwargs: Object)
    ensures kwargs.Keys == set a | a in Tail(args) && a in obj
    ensures forall a :: a in kwargs ==> kwargs[a] == obj[a]
  {
    var params := Tail(args);
    kwargs := map[];
    for i := 0 to |params|
      invariant kwargs.Keys == set a | a in params[..i] && a in obj
      invariant forall a :: a in kwargs ==> kwargs[a] == obj[a]
    {
      assert params[..i + 1] == params[..i] + [params[i]];
      if params[i] in obj {
        kwargs := kwargs[params[i] := obj[params[i]]];
      }
    }
    assert params[..|params|] == params;
  }

  /** The part of `do_POST` in front of `generate`: a POST to any other path than `/` is left
      unanswered, and a request without a `context` field is refused with 400. `None` means
      the request goes on to `generate`. */
  function Precheck(path: string, obj: Object): (r: Option<Reply>)
    ensures r.None? <==> path == "/" && "context" in obj
    ensures path != "/" ==> r == Some(NoReply)
    ensures path == "/" && "context" !in obj ==> r == Some(MissingContextReply)
  {
    if path != "/" then Some(NoReply)
    else if "context" !in obj then Some(MissingContextReply)
    else None
  }

  /** `self.path` after the rewrite at the top of `do_GET`. */
  function RoutedPath(path: string): string {
    if path == "/" then "/index.html" else path
  }

  /** The name `do_GET` opens, `self.path[1:]` after the rewrite: `/` is served from
      `index.html`, any other path loses its first character (Python's slice of an empty
      string is empty). */
  function ServedFile(path: string): (name: string)
    ensures path == "/" ==> name == "index.html"
    ensures path != "/" && |path| > 0 ==> name == path[1..]
    ensures path == "" ==> name == ""
  {
    var p := RoutedPath(path);
    if |p| == 0 then "" else p[1..]
  }

  /** `do_GET` as src/artois/main.py and main.py write it. `files` maps each name that `open`
      can read to its contents; every other name fails to open and gives a 404. */
  function Get(path: string, files: map<string, string>): (r: Reply)
    ensures r.Sent? && r.contentType == None
    ensures r.status == 200 <==> ServedFile(path) in files
    ensures path == "/" && "index.html" in files ==> r.body == Plain(files["index.html"])
    ensures path != "/" && |path| > 0 && path[1..] in files ==> r.body == Plain(files[path[1..]])
    ensures ServedFile(path) !in files ==> r == NotFoundReply
  {
    var name := ServedFile(path);
    if name in files then Sent(200, None, Plain(files[name])) else NotFoundReply
  }
}
