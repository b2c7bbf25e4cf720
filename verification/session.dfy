/**
 The server as a state machine: the stored token is its only state, each
 request is one atomic step, and a session is a sequence of steps, each
 answered by its own remote oracle and clock reading.
 */
module Session {
  import opened Js
  import opened GitHub
  import opened Listing
  import opened Server

  /** One HTTP request to the server, by route. */
  datatype Input =
    | PostAuth(token: Option<string>)
    | PostTestToken
    | PostCommit(commit: CommitBody)
    | PostCreatePr(pr: PrBody)
    | PostMergePr(merge: MergeBody)
    | GetFiles
    | GetFile(path: string)
    | GetPrs

  /** Route dispatch: `/auth` is the only route that writes the token, and
      with no token stored nothing reaches the remote. */
  function Step(token: Token, input: Input, oracle: Oracle, now: nat): (t: Transition)
    ensures !input.PostAuth? ==> t.token == token
    ensures input.PostAuth? ==> t.trace == []
    ensures !Authenticated(token) && !input.PostAuth? ==> t.trace == []
    ensures SentWith(token, t.trace)
  {
    match input
    case PostAuth(supplied) => Auth(token, supplied)
    case PostTestToken =>
      var o := TestToken(token, oracle); Transition(o.response, o.trace, token)
    case PostCommit(body) =>
      var o := Commit(token, body, oracle); Transition(o.response, o.trace, token)
    case PostCreatePr(body) =>
      var o := CreatePr(token, body, oracle, now); Transition(o.response, o.trace, token)
    case PostMergePr(body) =>
      var o := MergePr(token, body, oracle); Transition(o.response, o.trace, token)
    case GetFiles =>
      var o := Files(token, oracle); Transition(o.response, o.trace, token)
    case GetFile(path) =>
      var o := LoadFile(token, path, oracle); Transition(o.response, o.trace, token)
    case GetPrs =>
      var o := Prs(token, oracle); Transition(o.response, o.trace, token)
  }

  /** One request with the remote's answers and the clock reading it sees. */
  datatype Exchange = Exchange(input: Input, oracle: Oracle, now: nat)

  datatype RunResult = RunResult(responses: seq<Response>, trace: seq<Call>, token: Token)

  /** A step function of the server, as a value. */
  type Stepper = (Token, Exchange) -> Transition

  /** Requests handled one after another by `step`, from the given token. */
  function Replay(step: Stepper, token: Token, script: seq<Exchange>): (r: RunResult)
    ensures |r.responses| == |script|
    decreases |script|
  {
    if script == [] then RunResult([], [], token)
    else
      var t := step(token, script[0]);
      var rest := Replay(step, t.token, script[1..]);
      RunResult([t.response] + rest.responses, t.trace + rest.trace, rest.token)
  }

  function Handle(token: Token, e: Exchange): Transition {
    Step(token, e.input, e.oracle, e.now)
  }

  /** A session of the server. */
  function Run(token: Token, script: seq<Exchange>): RunResult {
    Replay(Handle, token, script)
  }

  lemma {:induction false} ReplayAppend(step: Stepper, token: Token, a: seq<Exchange>, b: seq<Exchange>)
    ensures var ra := Replay(step, token, a);
            var rb := Replay(step, ra.token, b);
            Replay(step, token, a + b) == RunResult(ra.responses + rb.responses, ra.trace + rb.trace, rb.token)
    decreases |a|
  {
    if a == [] {
      assert a + b == b;
    } else {
      assert (a + b)[0] == a[0];
      assert (a + b)[1..] == a[1..] + b;
      var t := step(token, a[0]);
      ReplayAppend(step, t.token, a[1..], b);
      var ra' := Replay(step, t.token, a[1..]);
      var rb := Replay(step, ra'.token, b);
      assert [t.response] + (ra'.responses + rb.responses) == ([t.response] + ra'.responses) + rb.responses;
      assert t.trace + (ra'.trace + rb.trace) == (t.trace + ra'.trace) + rb.trace;
    }
  }

  /** Running two scripts in turn is running their concatenation. */
  lemma RunAppend(token: Token, a: seq<Exchange>, b: seq<Exchange>)
    ensures var ra := Run(token, a);
            var rb := Run(ra.token, b);
            Run(token, a + b) == RunResult(ra.responses + rb.responses, ra.trace + rb.trace, rb.token)
  {
    ReplayAppend(Handle, token, a, b);
  }

  /** Reference definition of the stored token after a script: the trimmed
      value of the last `/auth` that carried a truthy token, or the initial
      token when there was none. */
  function LatestToken(token: Token, script: seq<Exchange>): Token
    decreases |script|
  {
    if script == [] then token
    else
      var last := script[|script| - 1].input;
      if last.PostAuth? && Truthy(last.token) then Some(Trim(last.token.value))
      else LatestToken(token, script[..|script| - 1])
  }

  /** Last write wins: the token a session ends with is the one its latest
      successful `/auth` stored. */
  lemma {:induction false} RunStoresLatestToken(token: Token, script: seq<Exchange>)
    ensures Run(token, script).token == LatestToken(token, script)
    decreases |script|
  {
    if script != [] {
      var init := script[..|script| - 1];
      var last := script[|script| - 1];
      assert script == init + [last];
      RunAppend(token, init, [last]);
      RunStoresLatestToken(token, init);
      var before := Run(token, init).token;
      var t := Handle(before, last);
      assert [last][1..] == [];
      assert Replay(Handle, t.token, []) == RunResult([], [], t.token);
      assert Run(before, [last]) == Replay(Handle, before, [last]);
      assert Run(before, [last]).token == t.token;
      assert script[..|script| - 1] == init;
    }
  }

  /** Without a stored token, and without an `/auth` whose token survives
      trimming, a whole session issues no remote call and stays
      unauthenticated. */
  lemma {:induction false} SilentWithoutLogin(token: Token, script: seq<Exchange>)
    requires !Authenticated(token)
    requires forall i :: 0 <= i < |script| && script[i].input.PostAuth? ==>
               !LogsIn(script[i].input.token)
    ensures Run(token, script).trace == []
    ensures !Authenticated(Run(token, script).token)
    decreases |script|
  {
    if script != [] {
      var t := Handle(token, script[0]);
      assert !Authenticated(t.token);
      SilentWithoutLogin(t.token, script[1..]);
    }
  }

  /** Submitting the merge form of a listed pull request merges it with the
      same commit title the server would have chosen by default. */
  lemma MergeFormUsesDefaultTitle(token: Token, p: PullInfo, oracle: Oracle)
    requires Authenticated(token)
    ensures var card := CardOf(p);
            var o := MergePr(token, MergeBody(Some(card.formPrNumber), Some(card.formCommitTitle), None), oracle);
            && |o.trace| == 1
            && o.trace[0].op.number == card.number
            && o.trace[0].op == MergePr(token, MergeBody(Some(card.formPrNumber), None, None), oracle).trace[0].op
  {
  }

  /** The client's optimistic-concurrency round trip: committing with the SHA
      that `/file/{path}` handed out issues the same update as letting
      `/commit` fetch the SHA itself, and gets the same answer. */
  lemma SuppliedShaMatchesFetched(token: Token, path: string, content: string, oracle: Oracle)
    requires Authenticated(token) && path != ""
    requires LoadFile(token, path, oracle).response.FileData?
    requires LoadFile(token, path, oracle).response.sha != ""
    ensures var sha := LoadFile(token, path, oracle).response.sha;
            var supplied := Commit(token, CommitBody(Some(content), Some(path), Some(sha)), oracle);
            var fetched := Commit(token, CommitBody(Some(content), Some(path), None), oracle);
            && |supplied.trace| == 1 && |fetched.trace| == 2
            && fetched.trace[0] == LoadFile(token, path, oracle).trace[0]
            && supplied.trace[0] == fetched.trace[1]
            && supplied.response == fetched.response
  {
  }
}
