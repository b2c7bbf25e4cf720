/**
 The request handlers of the editor server. The only state the server keeps
 is the process-wide GitHub token; every handler reads it, checks it, and
 then issues a short, fixed sequence of remote calls whose replies decide
 both the next call and the response. A handler is modelled as a pure
 function of the stored token, the request body and the remote oracle, and
 returns the response together with the trace of calls it issued, in order.
 */
module Server {
  import opened Js
  import opened GitHub
  import opened Listing
  import Decimal

  /** The stored token: `undefined` until the first successful `/auth`. */
  type Token = Option<string>

  /** The guard every handler starts with: `!githubToken` fails for an unset
      token and for the empty string alike. */
  predicate Authenticated(t: Token) {
    Truthy(t)
  }

  /** What a handler sends back: `{success}` / `{error}` JSON, the file
      record of `/file/{path}`, or an HTML fragment. */
  datatype Response =
    | Success(text: string)
    | Error(text: string)
    | FileData(content: string, path: string, sha: string)
    | Page(html: Html)

  /** A handler that cannot change the token: its response and the calls it
      issued, in order. */
  datatype Outcome = Outcome(response: Response, trace: seq<Call>)

  /** A handler step that may change the token. */
  datatype Transition = Transition(response: Response, trace: seq<Call>, token: Token)

  datatype CommitBody = CommitBody(content: Option<string>, filePath: Option<string>, sha: Option<string>)
  datatype PrBody = PrBody(title: Option<string>, body: Option<string>,
                           content: Option<string>, filePath: Option<string>)
  datatype MergeBody = MergeBody(prNumber: Option<string>, commitTitle: Option<string>,
                                 commitMessage: Option<string>)

  const NotAuthenticated := "GitHub not authenticated"
  const NoTokenSet := "No token set. Connect first."
  const NoTokenProvided := "No token provided"
  const PrNumberRequired := "PR number required"
  const DefaultPath := "index.html"
  const DefaultPrTitle := "Update from web editor"
  const DefaultPrBody := "Changes made via web editor"
  const BranchCommitMessage := "Update from web editor"
  const BranchPrefix := "web-editor-"
  const BaseBranch := "main"
  const MergeMethod := "merge"
  /** What `Buffer.from(undefined)` throws when a request carries no
      `content`; the handler's `catch` turns it into the error text. */
  const BufferTypeError := "The first argument must be of type string or an instance of Buffer, ArrayBuffer, or Array or an Array-like Object. Received undefined"

  /** Every call in the trace was sent with the stored token, and there are
      calls only when a token is stored. */
  predicate SentWith(token: Token, trace: seq<Call>) {
    forall i :: 0 <= i < |trace| ==> Authenticated(token) && trace[i].credential == token.value
  }

  /** No two calls of the trace are file updates. */
  predicate AtMostOnePut(trace: seq<Call>) {
    forall i, j :: 0 <= i < j < |trace| ==> !(trace[i].op.PutContents? && trace[j].op.PutContents?)
  }

  /** The error text of a failed step: the `throw new Error(...)` texts of
      the handlers, or the rejection's own message. */
  function Failure(step: string, r: Reply): string
    requires !r.Ok?
  {
    match r
    case NotOk(status, statusText, text) =>
      step + ": " + Decimal.OfInt(status) + " " + statusText + " - " + text
    case Rejected(message) => message
  }

  /** `web-editor-${Date.now()}`. */
  function BranchName(now: nat): string {
    BranchPrefix + Decimal.OfNat(now)
  }

  /** Branch names are unique per millisecond: two proposals collide exactly
      when they read the same clock value. */
  lemma BranchNameInjective(a: nat, b: nat)
    ensures BranchName(a) == BranchName(b) <==> a == b
  {
    if BranchName(a) == BranchName(b) {
      assert Decimal.OfNat(a) == BranchName(a)[|BranchPrefix|..];
      assert Decimal.OfNat(b) == BranchName(b)[|BranchPrefix|..];
      Decimal.Injective(a, b);
    }
  }

  // ---------------------------------------------------------------- /auth

  /** A supplied token that leaves the server authenticated: truthy and not
      whitespace only. */
  predicate LogsIn(supplied: Option<string>) {
    Truthy(supplied) && !AllWhitespace(supplied.value)
  }

  /** POST /auth: a truthy token is trimmed and stored, replacing the old one;
      a missing or empty one leaves the stored token as it was. No remote
      call is made either way. */
  function Auth(token: Token, supplied: Option<string>): (t: Transition)
    ensures t.trace == []
    ensures Truthy(supplied) ==>
              t.response == Success("GitHub connected!") && t.token == Some(Trim(supplied.value))
    ensures !Truthy(supplied) ==> t.response == Error(NoTokenProvided) && t.token == token
    ensures Truthy(supplied) && AllWhitespace(supplied.value) ==> t.token == Some("")
    ensures Authenticated(t.token) <==>
              LogsIn(supplied) || (!Truthy(supplied) && Authenticated(token))
  {
    if Truthy(supplied) then
      Transition(Success("GitHub connected!"), [], Some(Trim(supplied.value)))
    else
      Transition(Error(NoTokenProvided), [], token)
  }

  // ---------------------------------------------------------- /test-token

  /** POST /test-token: one `GET /user` with the stored token. */
  function TestToken(token: Token, oracle: Oracle): (o: Outcome)
    ensures !Authenticated(token) ==> o == Outcome(Error(NoTokenSet), [])
    ensures SentWith(token, o.trace)
    ensures Authenticated(token) ==> |o.trace| == 1 && o.trace[0].op == GetUser
    ensures o.response.Success? || o.response.Error?
    ensures o.response.Success? <==> |o.trace| == 1 && oracle(o.trace[0]).Ok?
    ensures o.response.Success? ==>
              o.response.text == "Token works! Logged in as: " + oracle(o.trace[0]).payload.login
  {
    if !Authenticated(token) then Outcome(Error(NoTokenSet), [])
    else
      var get := Call(token.value, GetUser);
      var reply := oracle(get);
      match reply
      case Ok(user) => Outcome(Success("Token works! Logged in as: " + user.login), [get])
      case NotOk(status, _, text) =>
        Outcome(Error("Token test failed: " + Decimal.OfInt(status) + " - " + text), [get])
      case Rejected(message) => Outcome(Error(message), [get])
  }

  // -------------------------------------------------------------- /commit

  /** The `PUT contents/{path}` of `/commit`, after the calls in `before`.
      The request body is built first, so a missing `content` throws before
      anything is sent. */
  function CommitPut(cred: string, path: string, content: Option<string>, sha: string,
                     before: seq<Call>, oracle: Oracle): Outcome
  {
    if content.None? then Outcome(Error(BufferTypeError), before)
    else
      var put := Call(cred, PutContents(path, "Update " + path + " from web editor",
                                        content.value, sha, None));
      var reply := oracle(put);
      if reply.Ok? then Outcome(Success("Committed successfully!"), before + [put])
      else Outcome(Error(Failure("Failed to update file", reply)), before + [put])
  }

  /** POST /commit: update one file on the default branch, with the version
      SHA the client supplied or, failing that, the one a fresh GET returns. */
  function Commit(token: Token, req: CommitBody, oracle: Oracle): (o: Outcome)
    ensures !Authenticated(token) ==> o == Outcome(Error(NotAuthenticated), [])
    ensures SentWith(token, o.trace)
    ensures |o.trace| <= 2 && AtMostOnePut(o.trace)
    ensures o.response.Success? || o.response.Error?
    // every call targets the requested path, `index.html` when none is given
    ensures forall i :: 0 <= i < |o.trace| ==>
              (o.trace[i].op.GetContents? || o.trace[i].op.PutContents?) &&
              o.trace[i].op.path == Or(req.filePath, DefaultPath)
    // a supplied SHA skips the GET
    ensures Truthy(req.sha) ==> forall i :: 0 <= i < |o.trace| ==> o.trace[i].op.PutContents?
    ensures Authenticated(token) && !Truthy(req.sha) ==>
              |o.trace| >= 1 && o.trace[0].op.GetContents?
    // a failed GET stops the handler before any PUT
    ensures |o.trace| >= 1 && o.trace[0].op.GetContents? && !oracle(o.trace[0]).Ok? ==>
              |o.trace| == 1 && o.response.Error?
    // the PUT is last and carries the content, the message and the right SHA
    ensures forall i :: 0 <= i < |o.trace| && o.trace[i].op.PutContents? ==>
              && i == |o.trace| - 1
              && req.content == Some(o.trace[i].op.content)
              && o.trace[i].op.message == "Update " + Or(req.filePath, DefaultPath) + " from web editor"
              && o.trace[i].op.branch == None
              && ((Truthy(req.sha) && o.trace[i].op.sha == req.sha.value) ||
                  (i == 1 && oracle(o.trace[0]).Ok? && o.trace[i].op.sha == oracle(o.trace[0]).payload.sha))
    // with content and a known SHA the PUT is sent: right away when the SHA
    // is supplied, right after a successful GET otherwise
    ensures Authenticated(token) && req.content.Some? && Truthy(req.sha) ==>
              |o.trace| == 1 && o.trace[0].op.PutContents?
    ensures Authenticated(token) && req.content.Some? && !Truthy(req.sha) &&
            oracle(Call(token.value, GetContents(Or(req.filePath, DefaultPath)))).Ok? ==>
              |o.trace| == 2 && o.trace[1].op.PutContents?
    // without content nothing is written: with no SHA either, the GET is the
    // only call, since building the PUT throws
    ensures Authenticated(token) && req.content.None? && !Truthy(req.sha) ==> |o.trace| == 1
    ensures req.content.None? ==>
              o.response.Error? && forall i :: 0 <= i < |o.trace| ==> !o.trace[i].op.PutContents?
    ensures o.response.Success? <==>
              |o.trace| >= 1 && o.trace[|o.trace| - 1].op.PutContents? && oracle(o.trace[|o.trace| - 1]).Ok?
    ensures o.response.Success? ==> o.response.text == "Committed successfully!"
  {
    if !Authenticated(token) then Outcome(Error(NotAuthenticated), [])
    else
      var path := Or(req.filePath, DefaultPath);
      if Truthy(req.sha) then CommitPut(token.value, path, req.content, req.sha.value, [], oracle)
      else
        var get := Call(token.value, GetContents(path));
        var current := oracle(get);
        match current
        case Ok(file) => CommitPut(token.value, path, req.content, file.sha, [get], oracle)
        case NotOk(_, statusText, _) => Outcome(Error("Failed to get file: " + statusText), [get])
        case Rejected(message) => Outcome(Error(message), [get])
  }

  // ----------------------------------------------------------- /create-pr

  /** POST /create-pr: get main's tip, create `web-editor-<now>` there, read
      the file's SHA, update the file on the new branch, open a pull request
      into `main`. Each step runs only if every earlier one succeeded; nothing
      already done is undone. */
  function CreatePr(token: Token, req: PrBody, oracle: Oracle, now: nat): (o: Outcome)
    ensures !Authenticated(token) ==> o == Outcome(Error(NotAuthenticated), [])
    ensures SentWith(token, o.trace)
    ensures Authenticated(token) ==> 1 <= |o.trace| <= 5 && o.trace[0].op == GetMainRef
    ensures o.response.Success? || o.response.Error?
    ensures AtMostOnePut(o.trace)
    // a step is issued only after every earlier step succeeded
    ensures forall i :: 0 <= i < |o.trace| - 1 ==> oracle(o.trace[i]).Ok?
    // the handler stops early only on a failed step, or for want of content
    ensures 1 <= |o.trace| < 5 ==>
              o.response.Error? &&
              (!oracle(o.trace[|o.trace| - 1]).Ok? || (|o.trace| == 3 && req.content.None?))
    ensures o.response.Success? <==> |o.trace| == 5 && oracle(o.trace[4]).Ok?
    // how each reply feeds the next request
    ensures |o.trace| >= 2 ==>
              o.trace[1].op == CreateRef("refs/heads/" + BranchName(now),
                                         oracle(o.trace[0]).payload.objectSha)
    ensures |o.trace| >= 3 ==> o.trace[2].op == GetContents(Or(req.filePath, DefaultPath))
    ensures |o.trace| >= 4 ==>
              req.content.Some? &&
              o.trace[3].op == PutContents(Or(req.filePath, DefaultPath), BranchCommitMessage,
                                           req.content.value, oracle(o.trace[2]).payload.sha,
                                           Some(BranchName(now)))
    ensures |o.trace| == 5 ==>
              o.trace[4].op == CreatePull(Or(req.title, DefaultPrTitle), Or(req.body, DefaultPrBody),
                                          BranchName(now), BaseBranch)
    ensures o.response.Success? ==>
              o.response.text == "PR created: " + oracle(o.trace[4]).payload.htmlUrl
  {
    if !Authenticated(token) then Outcome(Error(NotAuthenticated), [])
    else
      var cred := token.value;
      var branch := BranchName(now);
      var path := Or(req.filePath, DefaultPath);
      var getMain := Call(cred, GetMainRef);
      var main := oracle(getMain);
      if !main.Ok? then Outcome(Error(Failure("Failed to get main branch", main)), [getMain])
      else
      var create := Call(cred, CreateRef("refs/heads/" + branch, main.payload.objectSha));
      var created := oracle(create);
      if !created.Ok? then
        Outcome(Error(Failure("Failed to create branch", created)), [getMain, create])
      else
      var get := Call(cred, GetContents(path));
      var current := oracle(get);
      if !current.Ok? then
        Outcome(Error(Failure("Failed to get file", current)), [getMain, create, get])
      else if req.content.None? then
        Outcome(Error(BufferTypeError), [getMain, create, get])
      else
      var put := Call(cred, PutContents(path, BranchCommitMessage, req.content.value,
                                        current.payload.sha, Some(branch)));
      var updated := oracle(put);
      if !updated.Ok? then
        Outcome(Error(Failure("Failed to update file on branch", updated)),
                [getMain, create, get, put])
      else
      var openPr := Call(cred, CreatePull(Or(req.title, DefaultPrTitle), Or(req.body, DefaultPrBody),
                                        branch, BaseBranch));
      var pr := oracle(openPr);
      if !pr.Ok? then
        Outcome(Error(Failure("Failed to create PR", pr)), [getMain, create, get, put, openPr])
      else
        Outcome(Success("PR created: " + pr.payload.htmlUrl), [getMain, create, get, put, openPr])
  }

  // ------------------------------------------------------------ /merge-pr

  /** POST /merge-pr: after the token check, a falsy PR number is refused
      locally; otherwise exactly one merge call is made. */
  function MergePr(token: Token, req: MergeBody, oracle: Oracle): (o: Outcome)
    ensures !Authenticated(token) ==> o == Outcome(Error(NotAuthenticated), [])
    ensures Authenticated(token) && !Truthy(req.prNumber) ==> o == Outcome(Error(PrNumberRequired), [])
    ensures SentWith(token, o.trace)
    ensures |o.trace| <= 1
    ensures o.response.Success? || o.response.Error?
    ensures Authenticated(token) && Truthy(req.prNumber) ==>
              && |o.trace| == 1
              && o.trace[0].op.MergePull?
              && o.trace[0].op.number == req.prNumber.value
              && o.trace[0].op.mergeMethod == MergeMethod
              && (Truthy(req.commitTitle) ==> o.trace[0].op.commitTitle == req.commitTitle.value)
              && (!Truthy(req.commitTitle) ==>
                    o.trace[0].op.commitTitle == MergeTitlePrefix + req.prNumber.value)
              && (Truthy(req.commitMessage) ==> o.trace[0].op.commitMessage == req.commitMessage.value)
              && (!Truthy(req.commitMessage) ==> o.trace[0].op.commitMessage == "")
    ensures o.response.Success? <==> |o.trace| == 1 && oracle(o.trace[0]).Ok?
    ensures o.response.Success? ==>
              o.response.text == "PR #" + req.prNumber.value + " merged successfully!"
  {
    if !Authenticated(token) then Outcome(Error(NotAuthenticated), [])
    else if !Truthy(req.prNumber) then Outcome(Error(PrNumberRequired), [])
    else
      var n := req.prNumber.value;
      var merge := Call(token.value, MergePull(n, Or(req.commitTitle, MergeTitlePrefix + n),
                                               Or(req.commitMessage, ""), MergeMethod));
      var reply := oracle(merge);
      if reply.Ok? then Outcome(Success("PR #" + n + " merged successfully!"), [merge])
      else Outcome(Error(Failure("Failed to merge PR", reply)), [merge])
  }

  // -------------------------------------------------------------- /file/{path}

  /** GET /file/{path}: one contents read of exactly the requested path (no
      default here), answered with the decoded content and the SHA. */
  function LoadFile(token: Token, path: string, oracle: Oracle): (o: Outcome)
    ensures !Authenticated(token) ==> o == Outcome(Error(NotAuthenticated), [])
    ensures SentWith(token, o.trace)
    ensures Authenticated(token) ==> |o.trace| == 1 && o.trace[0].op == GetContents(path)
    ensures o.response.FileData? || o.response.Error?
    ensures o.response.FileData? <==> |o.trace| == 1 && oracle(o.trace[0]).Ok?
    ensures o.response.FileData? ==>
              && o.response.path == path
              && o.response.content == oracle(o.trace[0]).payload.content
              && o.response.sha == oracle(o.trace[0]).payload.sha
  {
    if !Authenticated(token) then Outcome(Error(NotAuthenticated), [])
    else
      var get := Call(token.value, GetContents(path));
      var reply := oracle(get);
      if reply.Ok? then Outcome(FileData(reply.payload.content, path, reply.payload.sha), [get])
      else Outcome(Error(Failure("Failed to load file", reply)), [get])
  }

  // --------------------------------------------------------- /files, /prs

  /** Every notice of a failed listing starts with `Error`. */
  predicate IsErrorNotice(h: Html) {
    h.Notice? && |h.text| >= 5 && h.text[..5] == "Error"
  }

  /** The `<p>` shown when a listing request fails. */
  function LoadError(what: string, r: Reply): (h: Html)
    requires !r.Ok?
    ensures IsErrorNotice(h)
  {
    match r
    case NotOk(status, statusText, _) =>
      Notice("Error loading " + what + ": " + Decimal.OfInt(status) + " " + statusText)
    case Rejected(message) => Notice("Error: " + message)
  }

  /** GET /files: one listing of the repository root, rendered as a notice
      when empty and as one item per file or folder otherwise. */
  function Files(token: Token, oracle: Oracle): (o: Outcome)
    ensures !Authenticated(token) ==> o == Outcome(Page(Notice(NotAuthenticated)), [])
    ensures SentWith(token, o.trace)
    ensures Authenticated(token) ==> |o.trace| == 1 && o.trace[0].op == ListRoot
    ensures o.response.Page?
    ensures o.response.html.FileList? ==>
              |o.trace| == 1 && oracle(o.trace[0]).Ok? && oracle(o.trace[0]).payload.entries != [] &&
              o.response.html.items == Items(oracle(o.trace[0]).payload.entries)
    ensures |o.trace| == 1 && oracle(o.trace[0]).Ok? && oracle(o.trace[0]).payload.entries != [] ==>
              o.response.html == FileList(Items(oracle(o.trace[0]).payload.entries))
    ensures |o.trace| == 1 && oracle(o.trace[0]).Ok? ==>
              (oracle(o.trace[0]).payload.entries == [] <==>
               o.response.html == Notice("No files in repository"))
    // a failed call is told apart from an empty listing and from a missing token
    ensures |o.trace| == 1 && !oracle(o.trace[0]).Ok? ==>
              && IsErrorNotice(o.response.html)
              && o.response.html != Notice("No files in repository")
              && o.response.html != Notice(NotAuthenticated)
  {
    if !Authenticated(token) then Outcome(Page(Notice(NotAuthenticated)), [])
    else
      var list := Call(token.value, ListRoot);
      var reply := oracle(list);
      if !reply.Ok? then
        var h := LoadError("files", reply);
        assert h.text[0] == 'E' && "No files in repository"[0] == 'N' && NotAuthenticated[0] == 'G';
        Outcome(Page(h), [list])
      else if |reply.payload.entries| == 0 then Outcome(Page(Notice("No files in repository")), [list])
      else Outcome(Page(FileList(Items(reply.payload.entries))), [list])
  }

  /** GET /prs: one listing of the open pull requests, one card each. */
  function Prs(token: Token, oracle: Oracle): (o: Outcome)
    ensures !Authenticated(token) ==> o == Outcome(Page(Notice(NotAuthenticated)), [])
    ensures SentWith(token, o.trace)
    ensures Authenticated(token) ==> |o.trace| == 1 && o.trace[0].op == ListOpenPulls
    ensures o.response.Page?
    ensures o.response.html.PullList? ==>
              |o.trace| == 1 && oracle(o.trace[0]).Ok? &&
              |o.response.html.cards| == |oracle(o.trace[0]).payload.pulls| > 0 &&
              forall i :: 0 <= i < |o.response.html.cards| ==>
                o.response.html.cards[i] == CardOf(oracle(o.trace[0]).payload.pulls[i])
    ensures |o.trace| == 1 && oracle(o.trace[0]).Ok? && oracle(o.trace[0]).payload.pulls != [] ==>
              o.response.html == PullList(Cards(oracle(o.trace[0]).payload.pulls))
    ensures |o.trace| == 1 && oracle(o.trace[0]).Ok? ==>
              (oracle(o.trace[0]).payload.pulls == [] <==> o.response.html == Notice("No open PRs"))
    // a failed call is told apart from an empty listing and from a missing token
    ensures |o.trace| == 1 && !oracle(o.trace[0]).Ok? ==>
              && IsErrorNotice(o.response.html)
              && o.response.html != Notice("No open PRs")
              && o.response.html != Notice(NotAuthenticated)
  {
    if !Authenticated(token) then Outcome(Page(Notice(NotAuthenticated)), [])
    else
      var list := Call(token.value, ListOpenPulls);
      var reply := oracle(list);
      if !reply.Ok? then
        var h := LoadError("PRs", reply);
        assert h.text[0] == 'E' && "No open PRs"[0] == 'N' && NotAuthenticated[0] == 'G';
        Outcome(Page(h), [list])
      else if |reply.payload.pulls| == 0 then Outcome(Page(Notice("No open PRs")), [list])
      else Outcome(Page(PullList(Cards(reply.payload.pulls))), [list])
  }
}
