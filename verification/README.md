# world-world editor server, modelled in Dafny

The world-world editor is a small Express server. It lets a browser edit files in
the GitHub repository `compusophy/world-world`. The server keeps one process-wide
GitHub token, set by `POST /auth`. Every other route first checks that token and
then issues a short, fixed sequence of GitHub REST calls:

- `/commit` updates a file on the default branch, using a supplied or freshly
  fetched blob SHA.
- `/create-pr` reads `main`'s tip, creates a `web-editor-<ms>` branch there,
  updates the file on it and opens a pull request into `main`.
- `/merge-pr` merges a pull request by number.
- `/file/*`, `/files` and `/prs` read a file or render the browse views.
- `/test-token` checks the token against `GET /user`.

The model treats the token as the only state. Each handler is a pure function
from the stored token, the request body and a **remote oracle** to the response
and the **trace** of remote calls it issued, in order. The oracle is an arbitrary
function from the call sent (credential plus operation) to the reply received:
`Ok` with the fields the handler reads, a non-`ok` HTTP status, or a rejected
`fetch`. Since properties are proved for every oracle, they hold whatever GitHub
answers.

Files:

- `js.dfy` (module `Js`): optional body fields, JavaScript truthiness, the `||`
  default idiom, and `String.prototype.trim` over the ECMAScript whitespace and
  line-terminator set.
- `decimal.dfy` (module `Decimal`): decimal text of integers, used for statuses,
  PR numbers and the branch timestamp, with its read-back round trip.
- `github.dfy` (module `GitHub`): remote operations, calls, replies and the
  oracle type.
- `listing.dfy` (module `Listing`): the `/files` entry fold and the `/prs` cards.
- `server.dfy` (module `Server`): the token guard and the eight handlers.
- `session.dfy` (module `Session`): route dispatch as a state-machine step,
  sessions as sequences of steps, and properties across steps.

Behaviours worth knowing, as the code has them:

- A whitespace-only token is not refused. `/auth` answers `GitHub connected!` and
  stores `""`, which every later guard treats as unauthenticated (`Server.Auth`).
- The merge method is always `merge`; it cannot be configured.
- The base branch is always `main`.
- Errors are message strings, not a typed taxonomy. Every error comes back as
  `{error: text}`, and the listing routes answer with an HTML `<p>` notice.
- A request without `content` is not rejected up front. `Buffer.from(undefined)`
  throws while the PUT body is being built. So `/commit` with a supplied SHA makes
  no call at all, and `/create-pr` stops after creating the branch and reading the
  file (`Server.Commit`, `Server.CreatePr`).
- Error texts differ by step:
  - The `/commit` error for a failed GET shows only the status text.
  - `/test-token` shows the status and the body, but not the status text.
  - `/files` and `/prs` show the status and the status text, but not the body.
  - Every other failed step shows status, status text and body.

## Model

| member | source | states |
|---|---|---|
| Js.TrimStart | server.js:24 | the result is a suffix of the input, everything dropped is whitespace, and the result does not start with whitespace |
| Js.TrimEnd | server.js:24 | the result is a prefix of the input, everything dropped is whitespace, and the result does not end with whitespace |
| Js.Trim | server.js:24 | `trim()` yields the empty string exactly when the input is all whitespace; otherwise both ends of the result are non-whitespace |
| Js.TrimMargins | server.js:24 | `trim()` removes exactly the whitespace surrounding a string with non-whitespace ends, and nothing else |
| Js.TrimKeepsTrimmed | server.js:24 | a string whose ends are not whitespace is its own trim |
| Js.TrimIdempotent | server.js:24 | trimming a stored token again changes nothing |
| Decimal.OfNat | server.js:125 | the decimal text of a number is non-empty, all digits, and has no leading zero |
| Decimal.RoundTrip | server.js:125 | reading the decimal text back gives the original number |
| Decimal.Injective | server.js:125 | different numbers render to different texts |
| Server.BranchNameInjective | server.js:125 | `web-editor-<ms>` names of two proposals are equal exactly when their clock readings are equal |
| Server.Auth | server.js:21-29 | a truthy token is trimmed and replaces the stored one with `GitHub connected!`; a missing or empty one gives `No token provided` and leaves the token unchanged; a whitespace-only one is stored as `""`; the server is authenticated afterwards exactly when the token has a non-whitespace character, or when none was given and it already was; no remote call |
| Server.TestToken | server.js:33-57 | without a token: `No token set. Connect first.` and no call; otherwise exactly one `GET /user` with the stored token, and success (naming the login) exactly when that call succeeds |
| Server.Commit | server.js:60-113 | without a token: `GitHub not authenticated` and no call; at most two calls, never two PUTs; all on the requested path, defaulting to `index.html`; a supplied SHA means no GET; otherwise a GET comes first and its failure stops the handler before any PUT; the PUT is last and carries the request content, the `Update <path> from web editor` message, no branch, and either the supplied SHA or the SHA the GET returned; with content present, the PUT is sent: as the only call when a SHA is supplied, and right after a successful GET otherwise; without content nothing is written and the answer is an error, and with no SHA either the GET is the only call; success exactly when that PUT succeeds |
| Server.CreatePr | server.js:116-225 | without a token: no call; otherwise calls go strictly get-main-ref, create-ref, get-file, put-file, create-PR; each is issued only after every earlier one succeeded; the handler stops early only on a failed step or missing content, with an error and nothing undone; the new ref is `refs/heads/web-editor-<now>` at main's `object.sha`; the PUT carries the content, the SHA of the file GET and the new branch; the PR goes from that branch into `main` with default title and body; success (with the PR URL) exactly when all five calls succeed |
| Server.MergePr | server.js:228-267 | the token check comes first, then a falsy PR number gives `PR number required`, both with no call; otherwise exactly one merge call for that number with method `merge`, the title defaulting to `Merge pull request #<n>` and the message defaulting to `""`; success exactly when that call succeeds |
| Server.LoadFile | server.js:322-357 | without a token: no call; otherwise exactly one contents GET of the requested path, with no default; the answer is the decoded content, that path and the SHA exactly when the call succeeds |
| Server.Files | server.js:270-319 | without a token: the not-authenticated notice and no call; otherwise one root listing; an empty listing gives `No files in repository`; a non-empty one gives exactly the `Items` fold of the entries; a failed call gives a notice starting with `Error`, so never the empty-listing or not-authenticated notice |
| Server.Prs | server.js:360-406 | without a token: no call; otherwise one open-PR listing; an empty listing gives `No open PRs`; a non-empty one gives one card per pull request, in order; a failed call gives a notice starting with `Error`, so never the empty-listing or not-authenticated notice |
| Listing.CardOf | server.js:386-396 | a card shows the PR's title and refs, and its body or `No description`; its merge form posts back the number exactly as shown, which reads back to the PR's number, and the commit title `Merge pull request #<n>` |
| Listing.Cards | server.js:385-398 | one card per open pull request, the i-th card rendering the i-th pull request |
| Listing.CardsAppend | server.js:385-398 | cards keep the listing's order: the cards of a concatenation are the concatenation of the cards |
| Listing.Items | server.js:290-311 | the fold yields at most one item per entry, and one per entry only when every entry is a file or a folder |
| Listing.Visible | server.js:296-310 | reference definition: the entries of type `file` or `dir`, in order |
| Listing.ItemsAppend | server.js:295-311 | items keep the order of their entries: the listing of a concatenation is the concatenation of the listings |
| Listing.ItemsRenderVisible | server.js:295-311 | there is one item per `file` or `dir` entry, and the i-th item renders the i-th such entry |
| Listing.ItemsMembership | server.js:296-310 | a file link with a given path and name appears exactly when a `file` entry has them; a folder appears exactly when a `dir` entry has that name |
| Listing.ItemsSkipOthers | server.js:296-310 | entries of any other type contribute nothing |
| Session.Step | server.js:18-406 | only `/auth` changes the stored token and it makes no call; with no token stored, every other route makes no remote call; every call carries the stored token |
| Session.ReplayAppend | server.js:18-406 | for any step function, replaying two request sequences in turn is the same as replaying their concatenation |
| Session.RunAppend | server.js:18-406 | handling two request sequences in turn is the same as handling their concatenation |
| Session.RunStoresLatestToken | server.js:18-30 | last write wins: after a session, the stored token is the trimmed value of the last `/auth` with a truthy token, or the initial token if there was none |
| Session.SilentWithoutLogin | server.js:18-37 | starting unauthenticated, a session whose `/auth` requests never carry a non-whitespace token issues no remote call and ends unauthenticated |
| Session.SuppliedShaMatchesFetched | server.js:69-98 | committing with the SHA that `/file/{path}` returned issues the same single PUT as a commit without a SHA issues after its own GET, which is the `/file/{path}` call, and gets the same response |
| Session.MergeFormUsesDefaultTitle | server.js:391-393 | submitting a listed PR's merge form issues the same merge call as omitting the commit title |

## Left out

- Express setup, CORS, body parsing, static files, the favicon route and `listen`: framework plumbing with no decision logic.
- Real HTTP and JSON decoding: a successful reply is a record of the fields the handlers read. A `.json()` or `.text()` that fails while reading a reply is not modelled.
- Base64 transport: the PUT operation carries the plain content, and a file GET yields decoded content. The codec belongs to Node's `Buffer`.
- URL encoding of paths (`encodeURIComponent`): operations carry the unencoded path.
- `Date.now()`: the clock reading is a parameter of `/create-pr`.
- The HTML markup of `/files` and `/prs`: pages are structured lists of items and cards, and notices are their text.
- Non-string JSON body values (numbers, `null`, booleans): body fields are absent or strings. So a numeric `prNumber` of `0`, which is falsy, and `/auth` with a non-string token, which throws outside the handler's reach, are not modelled.
- Console logging.
- Decimal.OfNat: JavaScript writes numbers of 10^21 and above in exponent notation, but the model renders them as plain digits. No timestamp, status or PR number reaches that size.
- Concurrency on the shared token: handlers are sequential, atomic steps.
- `og.js`, `generate-image.js` and `generate-static-image.js`: image generation and local file writes, not part of this model.
