/**
 * The three Express routes of functions/webpack-config-generator/webpack-config-generator.js:
 * `generate` checks the reCAPTCHA token and runs `generateFiles`,
 * `download` sends `generated/<id>.zip`, `remove` deletes it.
 * The reCAPTCHA service is a parameter: an object that records the tokens
 * it is asked about and answers with a fixed `success` value.
 */
module Handlers {
  import opened Wrappers
  import opened Strings
  import opened Paths
  import opened FileSystem
  import opened Generator

  /** The JSON values a request body field or the service's `success` can hold. */
  datatype JsValue = JStr(s: string) | JBool(b: bool) | JNum(n: int) | JNull | JUndefined | JObject

  /** JavaScript truthiness (NaN is not modelled). */
  predicate Truthy(v: JsValue) {
    match v
    case JStr(s) => s != ""
    case JBool(b) => b
    case JNum(n) => n != 0
    case JNull => false
    case JUndefined => false
    case JObject => true
  }

  /** The parsed JSON body of a `generate` request. */
  datatype Request = Request(gResp: JsValue, options: Options)

  datatype Body = ErrorBody(error: string) | IdBody(id: string) | FileBody(file: Content)

  /**
   * What the client gets: a sent response; a status set on a response that
   * is never sent; or an error passed on to Express's own error handler.
   */
  datatype Reply = Sent(status: int, body: Body) | Unsent(statusSet: Option<int>) | Forwarded

  const MissingCaptcha := "Select google recaptcha"
  const InvalidCaptcha := "Invalid recaptcha"

  /** The token fields the route refuses before asking the service. */
  predicate MissingToken(gResp: JsValue) {
    gResp == JStr("") || gResp == JUndefined || gResp == JNull
  }

  /** A `success` the route refuses: falsy, or the string "false". */
  predicate Refused(success: JsValue) {
    !Truthy(success) || success == JStr("false")
  }

  /** `path.resolve(__dirname, './generated/<id>.zip')` in the route file. */
  function RouteZipPath(id: string): Path {
    Resolve(FnDir, "./generated/" + id + ".zip")
  }

  /** The routes and the generator name the same archive, whatever the id. */
  lemma SameZipPath(id: string)
    ensures RouteZipPath(id) == ZipPath(id)
  {
    var tail := id + ".zip";
    assert "./generated/" + id + ".zip" == "." + "/" + ("generated" + "/" + tail);
    SplitTwo(".", "generated", tail);
    HereThenDown(Split(tail, '/'));
    assert "../generated/" + id + ".zip" == "../generated/" + tail;
    ResolveGenerated(tail);
  }

  lemma HereThenDown(tail: seq<string>)
    ensures ResolveSegs(FnDir, [".", "generated"] + tail) == ResolveSegs(GeneratedDir, tail)
  {
    var segs := [".", "generated"] + tail;
    assert segs[0] == "." && segs[1..] == ["generated"] + tail;
    assert (["generated"] + tail)[0] == "generated" && (["generated"] + tail)[1..] == tail;
  }

  /** How the promise of `generateFiles` is answered: only a resolved one is. */
  function ReplyTo(outcome: Outcome): (r: Reply)
    ensures r.Sent? <==> outcome.Resolved?
    ensures r.Sent? ==> r == Sent(200, IdBody(outcome.id))
    ensures !r.Sent? ==> r == Unsent(None)
  {
    if outcome.Resolved? then Sent(200, IdBody(outcome.id)) else Unsent(None)
  }

  /**
   * The `generate` route, given the service's answer `success` (used only
   * when the token is present): the reply and the files afterwards.
   */
  function GenerateRoute(st: FsState, req: Request, success: JsValue,
                         config: TemplateEffect, packageJson: TemplateEffect, html: TemplateEffect): (r: (Reply, FsState))
    ensures MissingToken(req.gResp) ==> r == (Sent(400, ErrorBody(MissingCaptcha)), st)
    ensures !MissingToken(req.gResp) && Refused(success) ==> r == (Sent(400, ErrorBody(InvalidCaptcha)), st)
    ensures !MissingToken(req.gResp) && !Refused(success) ==>
      r.1 == GenerateSpec(st, req.options, config, packageJson, html).1
  {
    if MissingToken(req.gResp) then (Sent(400, ErrorBody(MissingCaptcha)), st)
    else if Refused(success) then (Sent(400, ErrorBody(InvalidCaptcha)), st)
    else
      var (outcome, fin) := GenerateSpec(st, req.options, config, packageJson, html);
      (ReplyTo(outcome), fin)
  }

  /** A 200 from `generate` carries the requested id; a 400 is exactly a missing or refused token. */
  lemma GenerateReplies(st: FsState, req: Request, success: JsValue,
                        config: TemplateEffect, packageJson: TemplateEffect, html: TemplateEffect)
    ensures var reply := GenerateRoute(st, req, success, config, packageJson, html).0;
      && (reply.Sent? && reply.status == 400 <==> MissingToken(req.gResp) || Refused(success))
      && (reply.Sent? && reply.status == 200 <==>
            !MissingToken(req.gResp) && !Refused(success) && GenerateSpec(st, req.options, config, packageJson, html).0.Resolved?)
      && (reply.Sent? && reply.status == 200 ==> reply.body == IdBody(req.options.id))
  {
    if !MissingToken(req.gResp) && !Refused(success) {
      var outcome := GenerateSpec(st, req.options, config, packageJson, html).0;
      assert GenerateRoute(st, req, success, config, packageJson, html).0 == ReplyTo(outcome);
    }
  }

  /** The `download` route: the archive, or the missing-file error handed to Express. */
  function DownloadRoute(st: FsState, id: string): (r: Reply)
    ensures r.Sent? <==> RouteZipPath(id) in st.files
    ensures r.Sent? ==> r == Sent(200, FileBody(st.files[RouteZipPath(id)]))
    ensures !r.Sent? ==> r == Forwarded
  {
    var p := RouteZipPath(id);
    if p in st.files then Sent(200, FileBody(st.files[p])) else Forwarded
  }

  /** The `remove` route: the files afterwards; its reply is always `Unsent(Some(200))`. */
  function RemoveRoute(st: FsState, id: string): (r: FsState)
    ensures RouteZipPath(id) !in r.files
    ensures forall q :: q in st.files && !IsPrefix(RouteZipPath(id), q) ==> q in r.files && r.files[q] == st.files[q]
  {
    Rimraf(st, RouteZipPath(id))
  }

  /**
   * A 200 from `generate` (with options that keep every path inside
   * `generated/`) is followed by a `download` of that id that sends the
   * archive with the entry file, the static folder and any styles file.
   */
  lemma GenerateThenDownload(st: FsState, req: Request, success: JsValue,
                             config: TemplateEffect, packageJson: TemplateEffect, html: TemplateEffect)
    requires SafeOptions(req.options)
    requires GenerateRoute(st, req, success, config, packageJson, html).0.Sent?
    requires GenerateRoute(st, req, success, config, packageJson, html).0.status == 200
    ensures var fin := GenerateRoute(st, req, success, config, packageJson, html).1;
      var reply := DownloadRoute(fin, req.options.id);
      reply.Sent? && reply.status == 200 && reply.body.FileBody? && ZipHasLayout(reply.body.file, req.options)
  {
    GenerateReplies(st, req, success, config, packageJson, html);
    ResolvedLeavesZip(st, req.options, config, packageJson, html);
    SameZipPath(req.options.id);
  }

  /** After `remove`, `download` of the same id finds nothing; a second `remove` changes nothing. */
  lemma RemoveThenDownload(st: FsState, id: string)
    ensures DownloadRoute(RemoveRoute(st, id), id) == Forwarded
    ensures RemoveRoute(RemoveRoute(st, id), id) == RemoveRoute(st, id)
  {
    RimrafIdempotent(st, RouteZipPath(id));
  }

  /** The reCAPTCHA verification service, seen from the route. */
  class Recaptcha {
    /** The tokens sent for verification, oldest first. */
    var calls: seq<JsValue>
    /** The `success` field of every answer. */
    const answer: JsValue

    constructor (answer: JsValue)
      ensures this.answer == answer && calls == []
    {
      this.answer := answer;
      calls := [];
    }

    method Verify(token: JsValue) returns (success: JsValue)
      modifies this`calls
      ensures success == answer && calls == old(calls) + [token]
    {
      calls := calls + [token];
      success := answer;
    }
  }

  /** The `generate` route on the file system, asking the service only when a token is present. */
  method Generate(fs: FileSystem, captcha: Recaptcha, req: Request,
                  config: TemplateEffect, packageJson: TemplateEffect, html: TemplateEffect)
    returns (reply: Reply)
    requires fs.Valid()
    modifies fs, captcha`calls
    ensures fs.Valid()
    ensures (reply, fs.State()) == GenerateRoute(old(fs.State()), req, captcha.answer, config, packageJson, html)
    ensures captcha.calls == old(captcha.calls) + (if MissingToken(req.gResp) then [] else [req.gResp])
  {
    if req.gResp == JStr("") || req.gResp == JUndefined || req.gResp == JNull {
      return Sent(400, ErrorBody(MissingCaptcha));
    }
    var success := captcha.Verify(req.gResp);
    if !Truthy(success) || success == JStr("false") {
      return Sent(400, ErrorBody(InvalidCaptcha));
    }
    var outcome := GenerateFiles(fs, req.options, config, packageJson, html);
    if outcome.Resolved? {
      reply := Sent(200, IdBody(outcome.id));
    } else {
      reply := Unsent(None);
    }
  }

  method Download(fs: FileSystem, id: string) returns (reply: Reply)
    ensures reply == DownloadRoute(fs.State(), id)
  {
    var p := RouteZipPath(id);
    if p in fs.files {
      reply := Sent(200, FileBody(fs.files[p]));
    } else {
      reply := Forwarded;
    }
  }

  method Remove(fs: FileSystem, id: string) returns (reply: Reply)
    requires fs.Valid()
    modifies fs
    ensures fs.Valid()
    ensures fs.State() == RemoveRoute(old(fs.State()), id)
    ensures reply == Unsent(Some(200))
  {
    fs.RimrafSync(RouteZipPath(id));
    reply := Unsent(Some(200));
  }
}
