/**
 * The JSON shapes the engine exchanges with the GitHub REST API, before and
 * after projection, and the errors JavaScript would throw while handling them.
 * A field that JavaScript may find `undefined` or `null` is an `Option`.
 */
module Records {
  import opened Wrappers

  /** A thrown JavaScript error: its `message` and, for errors that carry one, a `status`. */
  datatype Error = Error(message: string, status: Option<int>)

  /** The `owner` object of a repository, reduced to its login. */
  datatype Owner = Owner(login: Option<string>)

  /** A repository as the API returns it (only the fields the engine reads). */
  datatype RawRepo = RawRepo(
    full_name: Option<string>,
    name: Option<string>,
    default_branch: Option<string>,
    stargazers_count: Option<nat>,
    forks: Option<nat>,
    open_issues_count: Option<nat>,
    size: Option<nat>,
    pushed_at: Option<string>,
    owner: Option<Owner>)

  /**
   * A fork record as the engine keeps it: the projected repository plus the two
   * divergence markers it writes. `status` and `message` are the properties an
   * error object would carry; `isValidFork` tests them.
   */
  datatype Fork = Fork(
    full_name: Option<string>,
    name: Option<string>,
    default_branch: Option<string>,
    stargazers_count: Option<nat>,
    forks: Option<nat>,
    open_issues_count: Option<nat>,
    size: Option<nat>,
    pushed_at: Option<string>,
    owner: Option<Owner>,
    diff_from_original: Option<string>,
    diff_to_original: Option<string>,
    status: Option<int>,
    message: Option<string>)

  /** A commit of a comparison: sha, author date (ISO-8601 text), message and author login. */
  datatype Commit = Commit(sha: string, date: string, message: string, authorLogin: Option<string>)

  /** A parsed response body: one repository (or `null`), a page of repositories, or a comparison. */
  datatype Body =
    | RepoBody(repo: Option<RawRepo>)
    | ListBody(items: seq<Option<RawRepo>>)
    | CompareBody(commits: seq<Commit>)

  /** What a response limiter returns and the cache stores. */
  datatype Payload =
    | RepoData(repo: Option<Fork>)
    | ForkPage(forks: seq<Option<Fork>>)
    | Compare(commits: seq<Commit>)

  /** Reading `.data` of the `null` cache entry (js/main.js:566). */
  const NullDataError := Error("Cannot read properties of null (reading 'data')", None)
  /** `JSON.parse(undefined)` when storage could not be read (js/main.js:628). */
  const UndefinedJsonError := Error("\"undefined\" is not valid JSON", None)
  /** `JSON.parse` of a malformed stored entry (js/main.js:628). */
  const MalformedJsonError := Error("Unexpected token in JSON", None)
  /** A limiter applied to a body of another shape. */
  const ShapeError := Error("Cannot read properties of undefined", None)
  /** `fork.owner.login` of a fork without owner (js/main.js:410). */
  const NoOwnerError := Error("Cannot read properties of null (reading 'login')", None)
  /** Spreading a page that is not an array (js/main.js:309). */
  const NotIterableError := Error("someData is not iterable", None)
}
