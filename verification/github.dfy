/**
 The remote side of the server: the GitHub REST calls its handlers issue
 against the one fixed repository (`compusophy/world-world`), and the replies
 they can get back. The remote itself is an oracle: a function from the call
 that was sent to the reply that came back, chosen freely by whoever states
 a property.
 */
module GitHub {
  import opened Js

  /** One remote operation. Paths are repository-relative and kept as the
      handler computed them, before URL encoding. */
  datatype Op =
    | GetUser                                   // GET /user
    | GetContents(path: string)                 // GET contents/{path}
    | PutContents(path: string, message: string, content: string,
                  sha: string, branch: Option<string>)
                                                // PUT contents/{path}
    | GetMainRef                                // GET git/ref/heads/main
    | CreateRef(ref: string, sha: string)       // POST git/refs
    | CreatePull(title: string, body: string, head: string, base: string)
                                                // POST pulls
    | MergePull(number: string, commitTitle: string, commitMessage: string,
                mergeMethod: string)            // PUT pulls/{number}/merge
    | ListRoot                                  // GET contents
    | ListOpenPulls                             // GET pulls?state=open

  /** A call as sent: the credential in its `Authorization` header and the
      operation. */
  datatype Call = Call(credential: string, op: Op)

  /** An item of a directory listing; `kind` is GitHub's `type` field
      (`file`, `dir`, `symlink`, `submodule`, ...). */
  datatype Entry = Entry(name: string, path: string, kind: string)

  /** An open pull request as listed by `pulls?state=open`. */
  datatype PullInfo = PullInfo(number: int, title: string, body: Option<string>,
                               headRef: string, baseRef: string)

  /** The fields of a successful JSON reply that the handlers read. `content`
      is the file text after base64 decoding. */
  datatype Payload = Payload(
    login: string,           // GET /user: user.login
    sha: string,             // contents: the file's blob SHA
    objectSha: string,       // git/ref: object.sha
    htmlUrl: string,         // pulls: html_url
    content: string,         // contents: decoded content
    entries: seq<Entry>,     // contents listing
    pulls: seq<PullInfo>)    // pulls listing

  /** What `fetch` yields: a response with `ok` set, a response without it
      (status, status text and body text), or a rejected promise. */
  datatype Reply =
    | Ok(payload: Payload)
    | NotOk(status: int, statusText: string, text: string)
    | Rejected(message: string)

  type Oracle = Call -> Reply
}
