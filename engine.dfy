/**
 * The engine of one run: the repository-string normalisation and the query
 * parameter lookup of the page, the per-direction comparison (`fetchMoreDir`,
 * `fetchMore`), the dedup-or-fetch loop `updateData`, the pagination of
 * `fetchAndShow` and the run itself, up to the rows handed to the table.
 */
module Engine {
  import opened Wrappers
  import opened Text
  import opened Records
  import opened Marker
  import opened Forks
  import opened Dedup
  import opened Client

  // ----- Repository string (js/main.js:250-256) -----

  predicate IsSlash(c: char) {
    c == '/'
  }

  /** `replace(/\.git$/, '')`. */
  function StripGitSuffix(s: string): (r: string)
    ensures IsPrefix(r, s)
  {
    if IsSuffix(".git", s) then s[..|s| - 4] else s
  }

  /**
   * The `replace` chain of `fetchAndShow`: the first `https://github.com/` and
   * then the first `http://github.com/` anywhere are removed, then a trailing
   * `.git`, then surrounding white space, then surrounding slashes.
   */
  function NormaliseRepo(input: string): (r: string)
    ensures r == [] || (!IsSlash(r[0]) && !IsSlash(r[|r| - 1]))
  {
    var a := ReplaceFirst(input, "https://github.com/", "");
    var b := ReplaceFirst(a, "http://github.com/", "");
    var c := StripGitSuffix(b);
    var d := DropLastWhile(DropWhile(c, IsWhitespace), IsWhitespace);
    var e := DropWhile(d, IsSlash);
    var r := DropLastWhile(e, IsSlash);
    assert r != [] ==> r[0] == e[0];
    r
  }

  /** A string already in `owner/name` form, with nothing the chain would remove. */
  predicate IsClean(r: string) {
    && !Contains(r, "https://github.com/")
    && !Contains(r, "http://github.com/")
    && !IsSuffix(".git", r)
    && (r == [] || (!IsWhitespace(r[0]) && !IsWhitespace(r[|r| - 1]) && !IsSlash(r[0]) && !IsSlash(r[|r| - 1])))
  }

  lemma CleanIsFixed(r: string)
    requires IsClean(r)
    ensures StripGitSuffix(r) == r
    ensures DropLastWhile(DropWhile(r, IsWhitespace), IsWhitespace) == r
    ensures DropLastWhile(DropWhile(r, IsSlash), IsSlash) == r
  {
  }

  /**
   * A clean `owner/name` is kept as it is, and the same string pasted as a
   * GitHub address normalises to it.
   */
  lemma NormaliseCleanRepo(r: string)
    requires IsClean(r)
    ensures NormaliseRepo(r) == r
    ensures NormaliseRepo("https://github.com/" + r) == r
  {
    ReplaceFirstAbsent(r, "https://github.com/", "");
    ReplaceFirstAbsent(r, "http://github.com/", "");
    CleanIsFixed(r);
    var u := "https://github.com/" + r;
    assert IsPrefix("https://github.com/", u);
    assert ReplaceFirst(u, "https://github.com/", "") == r;
  }

  // ----- Query parameters (js/main.js:362-371) -----

  /** `kvp[1]` of `s.split("=")`: the text after the first `=`, up to the next one, if any. */
  function SecondField(s: string, c: char): (r: Option<string>)
    ensures r.Some? ==> c !in r.value
  {
    var parts := Split(s, c);
    if |parts| > 1 then Some(parts[1]) else None
  }

  /**
   * The first pair whose name is `variable`: `None` when there is none (`null`),
   * otherwise its value, itself `None` (`undefined`) when the pair has no `=`.
   */
  function QueryLookup(pairs: seq<string>, variable: string): (r: Option<Option<string>>)
    ensures r.None? <==> forall i :: 0 <= i < |pairs| ==> FirstField(pairs[i], '=') != variable
    ensures r.Some? ==> exists i :: 0 <= i < |pairs| && FirstField(pairs[i], '=') == variable
                                   && r.value == SecondField(pairs[i], '=')
                                   && forall j :: 0 <= j < i ==> FirstField(pairs[j], '=') != variable
  {
    if pairs == [] then None
    else if FirstField(pairs[0], '=') == variable then Some(SecondField(pairs[0], '='))
    else
      var r := QueryLookup(pairs[1..], variable);
      assert forall i :: 1 <= i < |pairs| ==> pairs[i] == pairs[1..][i - 1];
      r
  }

  /** `getQueryVariableFromUrl(variable)` on the page's `location.search`. */
  method GetQueryVariableFromUrl(search: string, variable: string) returns (r: Option<Option<string>>)
    ensures r == QueryLookup(Split(DropFirst(search), '&'), variable)
  {
    var pairs := Split(DropFirst(search), '&');
    var i := 0;
    while i < |pairs|
      invariant 0 <= i <= |pairs|
      invariant QueryLookup(pairs, variable) == QueryLookup(pairs[i..], variable)
    {
      assert pairs[i..][1..] == pairs[i + 1..];
      var kvp := Split(pairs[i], '=');
      if kvp[0] == variable {
        return Some(if |kvp| > 1 then Some(kvp[1]) else None);
      }
      i := i + 1;
    }
    return None;
  }

  lemma QueryText(name: string, value: string, rest: string)
    ensures DropFirst("?" + name + "=" + value + "&" + rest) == (name + "=" + value) + "&" + rest
  {
    var q := "?" + name + "=" + value + "&" + rest;
    assert q == "?" + ((name + "=" + value) + "&" + rest);
    assert q[1..] == (name + "=" + value) + "&" + rest;
  }

  lemma PairFields(name: string, value: string)
    requires '=' !in name && '=' !in value
    ensures FirstField(name + "=" + value, '=') == name && SecondField(name + "=" + value, '=') == Some(value)
  {
    SplitAtSeparator(name, value, '=');
    SplitNoSeparator(value, '=');
  }

  /** A query whose first pair is `name=value` yields `value` for `name`. */
  lemma QueryFindsFirstPair(name: string, value: string, rest: string)
    requires '&' !in name && '=' !in name && '&' !in value && '=' !in value
    ensures QueryLookup(Split(DropFirst("?" + name + "=" + value + "&" + rest), '&'), name) == Some(Some(value))
  {
    var pair := name + "=" + value;
    assert '&' !in pair;
    QueryText(name, value, rest);
    SplitAtSeparator(pair, rest, '&');
    PairFields(name, value);
    var pairs := [pair] + Split(rest, '&');
    assert pairs[0] == pair;
  }

  // ----- One direction of a comparison (js/main.js:415-457) -----

  const ApiBase := "https://api.github.com"
  const NoHistory := "No common history"

  /** The marker `catch` writes for a thrown error. */
  function ErrorMarker(e: Error): (r: string)
    ensures SortKey(r) == "0000" && IsPrefix("<!--", r)
  {
    ZeroMarker(if Contains(e.message, "No common ancestor") || e.status == Some(404) then NoHistory else "0")
  }

  /**
   * The new value of the direction's marker: unchanged for `null` data, the
   * `printInfo` marker for a comparison, the error marker for a thrown error,
   * and `<!--0000-->0` when `printInfo` itself throws on data of another shape.
   */
  function NewMarker(sep: char, got: Result<Option<Payload>, Error>, fork: Fork, current: Option<string>): (r: Option<string>)
    ensures got == Success(None) || got == Success(Some(RepoData(None))) ==> r == current
    ensures got.Failure? ==> r == Some(ErrorMarker(got.error))
    ensures got.Success? && got.value.Some? && got.value.value.Compare? && got.value.value.commits == [] ==> r == Some("0")
    ensures got.Success? && got.value.Some? && got.value.value.Compare? && fork.owner.Some? ==>
              r == Some(PrintInfo(sep, got.value.value.commits, Str(fork.owner.value.login), Str(fork.name)))
    ensures r != current ==> r.Some? && (r.value == "0" || IsPrefix("<!--", r.value))
  {
    match got
    case Failure(e) => Some(ErrorMarker(e))
    case Success(None) => current
    case Success(Some(RepoData(None))) => current
    case Success(Some(Compare(cs))) =>
      if cs == [] then Some("0")
      else if fork.owner.None? then Some(ZeroMarker("0"))
      else
        var m := PrintInfo(sep, cs, Str(fork.owner.value.login), Str(fork.name));
        CommentOpens(Pad4(|cs|), m);
        Some(m)
    case Success(Some(_)) => Some(ZeroMarker("0"))
  }

  /** Writes the marker of one direction: `diff_from_original` when `fromOriginal`, else `diff_to_original`. */
  function SetDirection(fork: Fork, fromOriginal: bool, m: Option<string>): (g: Fork)
    ensures fromOriginal ==> g.diff_from_original == m && g.diff_to_original == fork.diff_to_original
    ensures !fromOriginal ==> g.diff_to_original == m && g.diff_from_original == fork.diff_from_original
    ensures WithMarkers(g, MarkersOf(fork)) == fork
  {
    if fromOriginal then fork.(diff_from_original := m) else fork.(diff_to_original := m)
  }

  function Glyph(fromOriginal: bool): char {
    if fromOriginal then '-' else '+'
  }

  /** `fetchMoreDir(endpoint, fork, fromOriginal, api)` on a client state. */
  function FetchDirStep(st: ClientState, token: string, endpoint: string, fork: Fork, fromOriginal: bool, net: Net)
    : (r: (Fork, ClientState))
    ensures WithMarkers(r.0, MarkersOf(fork)) == fork
    ensures fromOriginal ==> r.0.diff_to_original == fork.diff_to_original
    ensures !fromOriginal ==> r.0.diff_from_original == fork.diff_from_original
  {
    var (got, st') := GetStep(st, token, ApiBase + "/" + endpoint, CompareLimiter, net);
    var current := if fromOriginal then fork.diff_from_original else fork.diff_to_original;
    (SetDirection(fork, fromOriginal, NewMarker(Glyph(fromOriginal), got, fork, current)), st')
  }

  /**
   * For a request that reaches the network: a 404 leaves the marker as it was,
   * any other failure writes a marker whose sort value is `0000`, and a
   * comparison of 1..9999 commits writes a marker whose sort value is the count.
   */
  lemma FetchDirOutcomes(st: ClientState, token: string, endpoint: string, fork: Fork, fromOriginal: bool, net: Net, resp: Response)
    requires Lookup(st.cache, ApiBase + "/" + endpoint, Config(token)).0 == Success((None, Config(token)))
    requires net(ApiBase + "/" + endpoint) == Answered(resp)
    requires fork.owner.Some?
    ensures var g := FetchDirStep(st, token, endpoint, fork, fromOriginal, net).0;
            var m := if fromOriginal then g.diff_from_original else g.diff_to_original;
            var current := if fromOriginal then fork.diff_from_original else fork.diff_to_original;
            && (resp.status == 404 ==> m == current)
            && (resp.status != 404 && !(IsOk(resp.status) && resp.body.CompareBody?) ==> m.Some? && SortKey(m.value) == "0000")
            && (IsOk(resp.status) && resp.body.CompareBody? && 1 <= |resp.body.commits| <= 9999 ==>
                  m.Some? && SortKey(m.value) == Pad4(|resp.body.commits|))
  {
    var url := ApiBase + "/" + endpoint;
    CompareOutcome(st, token, url, net, resp);
    var got := GetStep(st, token, url, CompareLimiter, net).0;
    if IsOk(resp.status) && resp.body.CompareBody? && 1 <= |resp.body.commits| <= 9999 {
      SortKeyOfMarker(Glyph(fromOriginal), got.value.value.commits, Str(fork.owner.value.login), Str(fork.name));
    }
  }

  /** What a comparison request that reaches the network yields, by the response's status and body. */
  lemma CompareOutcome(st: ClientState, token: string, url: string, net: Net, resp: Response)
    requires Lookup(st.cache, url, Config(token)).0 == Success((None, Config(token)))
    requires net(url) == Answered(resp)
    ensures var got := GetStep(st, token, url, CompareLimiter, net).0;
            && (resp.status == 404 ==> got == Success(None))
            && (resp.status != 404 && !(IsOk(resp.status) && resp.body.CompareBody?) ==> got.Failure?)
            && (IsOk(resp.status) && resp.body.CompareBody? ==>
                  got.Success? && got.value.Some? && got.value.value.Compare?
                  && |got.value.value.commits| == |resp.body.commits|)
  {
  }

  /** The two comparison endpoints of `fetchMore` (js/main.js:407-413). */
  function FromEndpoint(repo: string, branch: Option<string>, owner: Owner, fork: Fork): string {
    "repos/" + repo + "/compare/" + Str(owner.login) + ":" + Str(fork.default_branch) + "..." + Str(branch)
  }

  function ToEndpoint(repo: string, branch: Option<string>, owner: Owner, fork: Fork): string {
    "repos/" + repo + "/compare/" + Str(branch) + "..." + Str(owner.login) + ":" + Str(fork.default_branch)
  }

  /**
   * `fetchMore`: `fork.owner.login` throws for a fork without owner before any
   * request; otherwise both directions run, each writing only its own marker.
   */
  function FetchMoreStep(st: ClientState, token: string, repo: string, branch: Option<string>, fork: Fork, net: Net)
    : (r: (Result<Fork, Error>, ClientState))
    ensures fork.owner.None? <==> r.0.Failure?
    ensures fork.owner.None? ==> r == (Failure(NoOwnerError), st)
    ensures r.0.Success? ==> WithMarkers(r.0.value, MarkersOf(fork)) == fork
  {
    match fork.owner
    case None => (Failure(NoOwnerError), st)
    case Some(owner) =>
      var (f1, st1) := FetchDirStep(st, token, FromEndpoint(repo, branch, owner, fork), fork, true, net);
      var (f2, st2) := FetchDirStep(st1, token, ToEndpoint(repo, branch, owner, fork), f1, false, net);
      assert f2 == fork.(diff_from_original := f1.diff_from_original, diff_to_original := f2.diff_to_original);
      (Success(f2), st2)
  }

  /** `fetchMoreDir`; the fork record is returned updated. */
  method FetchMoreDir(endpoint: string, fork: Fork, fromOriginal: bool, api: Api, net: Net) returns (fork': Fork)
    modifies api, api.cache
    ensures (fork', api.State()) == FetchDirStep(old(api.State()), api.token, endpoint, fork, fromOriginal, net)
  {
    var data := api.Get(ApiBase + "/" + endpoint, CompareLimiter, net);
    var current := if fromOriginal then fork.diff_from_original else fork.diff_to_original;
    var m := NewMarker(Glyph(fromOriginal), data, fork, current);
    if fromOriginal {
      fork' := fork.(diff_from_original := m);
    } else {
      fork' := fork.(diff_to_original := m);
    }
  }

  /** `fetchMore`, with the two directions one after the other. */
  method FetchMore(repo: string, branch: Option<string>, fork: Fork, api: Api, net: Net) returns (r: Result<Fork, Error>)
    modifies api, api.cache
    ensures (r, api.State()) == FetchMoreStep(old(api.State()), api.token, repo, branch, fork, net)
  {
    if fork.owner.None? {
      return Failure(NoOwnerError);
    }
    var owner := fork.owner.value;
    var f1 := FetchMoreDir(FromEndpoint(repo, branch, owner, fork), fork, true, api, net);
    var f2 := FetchMoreDir(ToEndpoint(repo, branch, owner, fork), f1, false, api, net);
    return Success(f2);
  }

  // ----- The dedup-or-fetch loop (js/main.js:373-405) -----

  /** What stays fixed during one run of `updateData`: the token, the repository, its branch, the dedup options and the network. */
  datatype Job = Job(token: string, repo: string, branch: Option<string>, options: Options, net: Net)

  /** A fork with both markers reset to `''`. */
  function Reset(f: Fork): (g: Fork)
    ensures MarkersOf(g) == Markers(Some(""), Some(""))
  {
    WithMarkers(f, Markers(Some(""), Some("")))
  }

  function Resets(fs: seq<Fork>): (r: seq<Fork>)
    ensures |r| == |fs| && forall i :: 0 <= i < |fs| ==> r[i] == Reset(fs[i])
  {
    seq(|fs|, i requires 0 <= i < |fs| => Reset(fs[i]))
  }

  function KeysOf(o: Options, fs: seq<Fork>): (ks: seq<string>)
    ensures |ks| == |fs| && forall i :: 0 <= i < |fs| ==> ks[i] == GetKey(o, fs[i])
  {
    seq(|fs|, i requires 0 <= i < |fs| => GetKey(o, fs[i]))
  }

  /** Resetting the markers leaves every dedup key as it was. */
  lemma ResetsKeepKeys(o: Options, fs: seq<Fork>)
    ensures KeysOf(o, Resets(fs)) == KeysOf(o, fs)
  {
    forall i | 0 <= i < |fs|
      ensures GetKey(o, Resets(fs)[i]) == GetKey(o, fs[i])
    {
      KeyIgnoresMarkers(o, fs[i], Markers(Some(""), Some("")));
    }
  }

  /** Fork `i` is fetched rather than copied: its key is empty or no earlier fork has it. */
  predicate FirstOfKey(keys: seq<string>, i: nat)
    requires i < |keys|
  {
    keys[i] == "" || forall j :: 0 <= j < i ==> keys[j] != keys[i]
  }

  /** `forks.forEach(fork => fork.diff_from_original = fork.diff_to_original = '')`. */
  method ResetMarkers(forks: array<Fork>)
    modifies forks
    ensures forks[..] == Resets(old(forks[..]))
  {
    forall i | 0 <= i < forks.Length {
      forks[i] := Reset(forks[i]);
    }
  }

  /**
   * One pass of the loop (js/main.js:389-396): `apply` copies the markers of an
   * earlier fork with the same non-empty key; otherwise `fetchMore` compares the
   * fork and `cache` records its markers under its key. The result is the fork
   * as it leaves the pass, or the error `fetchMore` threw.
   */
  function VisitStep(job: Job, st: ClientState, table: map<string, Markers>, fork: Fork)
    : (r: (Result<Fork, Error>, map<string, Markers>, ClientState))
    ensures r.0.Success? ==> WithMarkers(r.0.value, MarkersOf(fork)) == fork
    ensures r.0.Failure? ==> r.0 == Failure(NoOwnerError) && fork.owner.None? && r.1 == table && r.2 == st
  {
    var key := GetKey(job.options, fork);
    if key != "" && key in table then (Success(WithMarkers(fork, table[key])), table, st)
    else
      var (more, st') := FetchMoreStep(st, job.token, job.repo, job.branch, fork, job.net);
      match more
      case Failure(e) => (Failure(e), table, st')
      case Success(f) => (Success(f), if key == "" then table else table[key := MarkersOf(f)], st')
  }

  /** What one pass does to a fork, given the client state and the dedup table before it. */
  type Visitor = (ClientState, map<string, Markers>, Fork) -> (Result<Fork, Error>, map<string, Markers>, ClientState)

  /** The pass of `updateData`. */
  function PassOf(job: Job): Visitor {
    (st, table, fork) => VisitStep(job, st, table, fork)
  }

  /**
   * What the loop relies on in a pass: only markers change; a fork whose
   * non-empty key is in the table gets that key's markers and nothing else
   * happens; otherwise, when the pass succeeds, the fork's markers are recorded
   * under its non-empty key; a pass fails only on a fork without owner, leaving
   * the table as it was.
   */
  ghost predicate CopiesOrRecords(visit: Visitor, options: Options)
  {
    forall st, table, fork {:trigger visit(st, table, fork)} ::
      var r := visit(st, table, fork);
      var key := GetKey(options, fork);
      && (r.0.Success? ==> WithMarkers(r.0.value, MarkersOf(fork)) == fork)
      && (r.0.Failure? ==> r.0.error == NoOwnerError && fork.owner.None? && r.1 == table)
      && (key != "" && key in table ==> r == (Success(WithMarkers(fork, table[key])), table, st))
      && (!(key != "" && key in table) && r.0.Success? ==>
            r.1 == if key == "" then table else table[key := MarkersOf(r.0.value)])
  }

  /** The pass of `updateData` is one the loop can rely on. */
  lemma PassOfCopiesOrRecords(job: Job)
    ensures CopiesOrRecords(PassOf(job), job.options)
  {
    forall st, table, fork
      ensures var r := PassOf(job)(st, table, fork);
              var key := GetKey(job.options, fork);
              && (r.0.Success? ==> WithMarkers(r.0.value, MarkersOf(fork)) == fork)
              && (r.0.Failure? ==> r.0.error == NoOwnerError && fork.owner.None? && r.1 == table)
              && (key != "" && key in table ==> r == (Success(WithMarkers(fork, table[key])), table, st))
              && (!(key != "" && key in table) && r.0.Success? ==>
                    r.1 == if key == "" then table else table[key := MarkersOf(r.0.value)])
    {
      assert PassOf(job)(st, table, fork) == VisitStep(job, st, table, fork);
    }
  }

  /** The forks, the dedup table and the client state between two passes. */
  datatype Progress = Progress(forks: seq<Fork>, table: map<string, Markers>, client: ClientState)

  /**
   * The first `n` passes over `fs`, from client state `st` and an empty table:
   * each pass rewrites its own position, and the first error ends the run.
   */
  function RunTo(visit: Visitor, st: ClientState, fs: seq<Fork>, n: nat): (r: Result<Progress, Error>)
    requires n <= |fs|
    ensures r.Success? ==> |r.value.forks| == |fs|
  {
    if n == 0 then Success(Progress(fs, map[], st))
    else
      match RunTo(visit, st, fs, n - 1)
      case Failure(e) => Failure(e)
      case Success(p) =>
        var (got, table, client) := visit(p.client, p.table, p.forks[n - 1]);
        match got
        case Failure(e) => Failure(e)
        case Success(f) => Success(Progress(p.forks[n - 1 := f], table, client))
  }

  /** Where the loop stops at the latest: at `haltAt` when `running` is found false inside the list, else at its end. */
  function LoopEnd(haltAt: Option<nat>, n: nat): (end: nat)
    ensures end <= n && (haltAt.Some? ==> end <= haltAt.value)
    ensures end < n ==> haltAt == Some(end)
  {
    if haltAt.Some? && haltAt.value < n then haltAt.value else n
  }

  /** The number of passes completed before `end`: the last prefix that ran without error. */
  function Halt(visit: Visitor, st: ClientState, fs: seq<Fork>, end: nat): (n: nat)
    requires end <= |fs|
    ensures n <= end && RunTo(visit, st, fs, n).Success?
    ensures n < end ==> RunTo(visit, st, fs, n + 1).Failure?
  {
    if RunTo(visit, st, fs, end).Success? then end else Halt(visit, st, fs, end - 1)
  }

  /** An error is final: every longer prefix ends with the same error. */
  lemma {:induction false} FailurePersists(visit: Visitor, st: ClientState, fs: seq<Fork>, m: nat, n: nat)
    requires m <= n <= |fs| && RunTo(visit, st, fs, m).Failure?
    ensures RunTo(visit, st, fs, n) == RunTo(visit, st, fs, m)
  {
    if n > m {
      FailurePersists(visit, st, fs, m, n - 1);
    }
  }

  /** `Halt` is the one position whose prefix succeeds while the next pass, if before `end`, fails. */
  lemma {:induction false} HaltIs(visit: Visitor, st: ClientState, fs: seq<Fork>, end: nat, n: nat)
    requires n <= end <= |fs| && RunTo(visit, st, fs, n).Success?
    requires n < end ==> RunTo(visit, st, fs, n + 1).Failure?
    ensures Halt(visit, st, fs, end) == n
  {
    if n < end {
      FailurePersists(visit, st, fs, n + 1, end);
      HaltIs(visit, st, fs, end - 1, n);
    }
  }

  /** A fork's value is final once its own pass is done; every shorter prefix succeeded. */
  lemma {:induction false} RunStable(visit: Visitor, st: ClientState, fs: seq<Fork>, n: nat, k: nat)
    requires k < n <= |fs| && RunTo(visit, st, fs, n).Success?
    ensures RunTo(visit, st, fs, k).Success? && RunTo(visit, st, fs, k + 1).Success?
    ensures RunTo(visit, st, fs, n).value.forks[k] == RunTo(visit, st, fs, k + 1).value.forks[k]
  {
    if n > k + 1 {
      RunStable(visit, st, fs, n - 1, k);
    }
  }

  /** After `n` passes the first `n` forks differ from the input only in their markers; the rest are untouched. */
  lemma {:induction false} RunForks(visit: Visitor, o: Options, st: ClientState, fs: seq<Fork>, n: nat)
    requires CopiesOrRecords(visit, o)
    requires n <= |fs| && RunTo(visit, st, fs, n).Success?
    ensures forall k :: n <= k < |fs| ==> RunTo(visit, st, fs, n).value.forks[k] == fs[k]
    ensures forall k :: 0 <= k < n ==> WithMarkers(RunTo(visit, st, fs, n).value.forks[k], MarkersOf(fs[k])) == fs[k]
  {
    if n > 0 {
      RunForks(visit, o, st, fs, n - 1);
      var p := RunTo(visit, st, fs, n - 1).value;
      var r := visit(p.client, p.table, p.forks[n - 1]);
      assert r.0.Success? && RunTo(visit, st, fs, n).value.forks == p.forks[n - 1 := r.0.value];
    }
  }

  /** The non-empty keys of the first `i` forks: the keys the dedup table holds after them. */
  ghost function Seen(keys: seq<string>, i: nat): set<string>
    requires i <= |keys|
  {
    if i == 0 then {}
    else Seen(keys, i - 1) + if keys[i - 1] == "" then {} else {keys[i - 1]}
  }

  lemma {:induction false} SeenMembers(keys: seq<string>, i: nat, s: string)
    requires i <= |keys|
    ensures s in Seen(keys, i) <==> s != "" && exists k :: 0 <= k < i && keys[k] == s
  {
    if i > 0 {
      SeenMembers(keys, i - 1, s);
    }
  }

  lemma SeenHasKey(keys: seq<string>, i: nat)
    requires i < |keys|
    ensures keys[i] in Seen(keys, i) <==> !FirstOfKey(keys, i)
    ensures Seen(keys, i + 1) == if keys[i] == "" then Seen(keys, i) else Seen(keys, i) + {keys[i]}
  {
    SeenMembers(keys, i, keys[i]);
  }

  /** The dedup table holds, for every one of the first `n` forks with a non-empty key, that fork's markers. */
  ghost predicate TableAgrees(table: map<string, Markers>, keys: seq<string>, fs: seq<Fork>, n: nat)
    requires n <= |keys| && n <= |fs|
  {
    forall k :: 0 <= k < n && keys[k] != "" ==> keys[k] in table && table[keys[k]] == MarkersOf(fs[k])
  }

  /** One pass keeps the table in step with the forks: a hit copies, a miss records (js/main.js:390-395). */
  lemma TableStep(table: map<string, Markers>, table': map<string, Markers>, keys: seq<string>,
                  fs: seq<Fork>, fs': seq<Fork>, i: nat)
    requires i < |keys| && i < |fs| && i < |fs'|
    requires table.Keys == Seen(keys, i) && TableAgrees(table, keys, fs, i)
    requires forall k :: 0 <= k < i ==> fs'[k] == fs[k]
    requires keys[i] in table ==> table' == table && MarkersOf(fs'[i]) == table[keys[i]]
    requires keys[i] !in table ==> table' == if keys[i] == "" then table else table[keys[i] := MarkersOf(fs'[i])]
    ensures table'.Keys == Seen(keys, i + 1) && TableAgrees(table', keys, fs', i + 1)
  {
    SeenHasKey(keys, i);
    forall k | 0 <= k < i + 1 && keys[k] != ""
      ensures keys[k] in table' && table'[keys[k]] == MarkersOf(fs'[k])
    {
      if k < i && keys[k] == keys[i] {
        assert keys[i] in Seen(keys, i);
      }
    }
  }

  /** After `n` passes the table holds exactly the keys seen, each with the markers its forks carry. */
  lemma {:induction false} RunTable(visit: Visitor, o: Options, st: ClientState, fs: seq<Fork>, n: nat)
    requires CopiesOrRecords(visit, o)
    requires n <= |fs| && RunTo(visit, st, fs, n).Success?
    ensures RunTo(visit, st, fs, n).value.table.Keys == Seen(KeysOf(o, fs), n)
    ensures TableAgrees(RunTo(visit, st, fs, n).value.table, KeysOf(o, fs), RunTo(visit, st, fs, n).value.forks, n)
  {
    if n > 0 {
      RunTable(visit, o, st, fs, n - 1);
      RunForks(visit, o, st, fs, n - 1);
      var p := RunTo(visit, st, fs, n - 1).value;
      var q := RunTo(visit, st, fs, n).value;
      var r := visit(p.client, p.table, p.forks[n - 1]);
      assert p.forks[n - 1] == fs[n - 1];
      assert r.0.Success? && q == Progress(p.forks[n - 1 := r.0.value], r.1, r.2);
      SeenMembers(KeysOf(o, fs), n - 1, "");
      TableStep(p.table, q.table, KeysOf(o, fs), p.forks, q.forks, n - 1);
    }
  }

  /**
   * Pass `k` as the run saw it: the fork as it came in, the table before the
   * pass, which holds the fork's key exactly when an earlier fork had it, and
   * what the pass gave.
   */
  lemma PassAt(visit: Visitor, o: Options, st: ClientState, fs: seq<Fork>, n: nat, k: nat)
    requires CopiesOrRecords(visit, o)
    requires k < n <= |fs| && RunTo(visit, st, fs, n).Success?
    ensures RunTo(visit, st, fs, k).Success? && RunTo(visit, st, fs, k + 1).Success?
    ensures var p := RunTo(visit, st, fs, k).value;
            var q := RunTo(visit, st, fs, k + 1).value;
            && visit(p.client, p.table, fs[k]) == (Success(RunTo(visit, st, fs, n).value.forks[k]), q.table, q.client)
            && (GetKey(o, fs[k]) != "" && GetKey(o, fs[k]) in p.table <==> !FirstOfKey(KeysOf(o, fs), k))
  {
    RunStable(visit, st, fs, n, k);
    RunTable(visit, o, st, fs, k);
    RunForks(visit, o, st, fs, k);
    SeenHasKey(KeysOf(o, fs), k);
  }

  /**
   * A fork whose key is empty or new is compared against the original: its
   * final value and the client state after its pass are what `fetchMore`
   * gives from the client state before it.
   */
  lemma ComparedForkIsFetched(job: Job, st: ClientState, fs: seq<Fork>, n: nat, k: nat)
    requires k < n <= |fs| && RunTo(PassOf(job), st, fs, n).Success?
    requires FirstOfKey(KeysOf(job.options, fs), k)
    ensures RunTo(PassOf(job), st, fs, k).Success? && RunTo(PassOf(job), st, fs, k + 1).Success?
    ensures FetchMoreStep(RunTo(PassOf(job), st, fs, k).value.client, job.token, job.repo, job.branch, fs[k], job.net)
            == (Success(RunTo(PassOf(job), st, fs, n).value.forks[k]), RunTo(PassOf(job), st, fs, k + 1).value.client)
  {
    PassOfCopiesOrRecords(job);
    PassAt(PassOf(job), job.options, st, fs, n, k);
    var p := RunTo(PassOf(job), st, fs, k).value;
    assert PassOf(job)(p.client, p.table, fs[k]) == VisitStep(job, p.client, p.table, fs[k]);
  }

  /**
   * A fork whose non-empty key an earlier fork had is not compared: no request
   * is made and nothing in the client changes, and it ends with the markers of
   * every earlier fork with that key.
   */
  lemma CopiedForkIsNotFetched(visit: Visitor, o: Options, st: ClientState, fs: seq<Fork>, n: nat, k: nat)
    requires CopiesOrRecords(visit, o)
    requires k < n <= |fs| && RunTo(visit, st, fs, n).Success?
    requires !FirstOfKey(KeysOf(o, fs), k)
    ensures RunTo(visit, st, fs, k).Success? && RunTo(visit, st, fs, k + 1).Success?
    ensures RunTo(visit, st, fs, k + 1).value.client == RunTo(visit, st, fs, k).value.client
    ensures forall j :: 0 <= j < k && GetKey(o, fs[j]) == GetKey(o, fs[k]) ==>
              MarkersOf(RunTo(visit, st, fs, n).value.forks[k]) == MarkersOf(RunTo(visit, st, fs, n).value.forks[j])
  {
    PassAt(visit, o, st, fs, n, k);
    RunTable(visit, o, st, fs, k);
    forall j | 0 <= j < k && GetKey(o, fs[j]) == GetKey(o, fs[k])
      ensures MarkersOf(RunTo(visit, st, fs, n).value.forks[k]) == MarkersOf(RunTo(visit, st, fs, n).value.forks[j])
    {
      RunStable(visit, st, fs, n, j);
      RunStable(visit, st, fs, k, j);
    }
  }

  /** Forks with the same non-empty key end with the same markers. */
  lemma SameKeySameMarkers(visit: Visitor, o: Options, st: ClientState, fs: seq<Fork>, n: nat)
    requires CopiesOrRecords(visit, o)
    requires n <= |fs| && RunTo(visit, st, fs, n).Success?
    ensures forall i, j :: 0 <= i < j < n && GetKey(o, fs[i]) == GetKey(o, fs[j]) != "" ==>
              MarkersOf(RunTo(visit, st, fs, n).value.forks[i]) == MarkersOf(RunTo(visit, st, fs, n).value.forks[j])
  {
    forall i, j | 0 <= i < j < n && GetKey(o, fs[i]) == GetKey(o, fs[j]) != ""
      ensures MarkersOf(RunTo(visit, st, fs, n).value.forks[i]) == MarkersOf(RunTo(visit, st, fs, n).value.forks[j])
    {
      CopiedForkIsNotFetched(visit, o, st, fs, n, j);
    }
  }

  /** A pass fails only on a fork without owner whose key is empty or new: copying never fails. */
  lemma FailedPass(visit: Visitor, o: Options, st: ClientState, fs: seq<Fork>, n: nat)
    requires CopiesOrRecords(visit, o)
    requires n < |fs| && RunTo(visit, st, fs, n).Success? && RunTo(visit, st, fs, n + 1).Failure?
    ensures RunTo(visit, st, fs, n + 1).error == NoOwnerError && fs[n].owner.None?
    ensures FirstOfKey(KeysOf(o, fs), n)
  {
    RunForks(visit, o, st, fs, n);
    RunTable(visit, o, st, fs, n);
    SeenHasKey(KeysOf(o, fs), n);
    var p := RunTo(visit, st, fs, n).value;
    assert visit(p.client, p.table, p.forks[n]).0.Failure?;
  }

  /** With both dedup options off every key is empty, so every fork visited is compared against the original. */
  lemma DedupOffComparesEveryFork(job: Job, st: ClientState, fs: seq<Fork>, n: nat, k: nat)
    requires !job.options.sameSize && !job.options.samePushDate
    requires k < n <= |fs| && RunTo(PassOf(job), st, fs, n).Success?
    ensures RunTo(PassOf(job), st, fs, k).Success? && RunTo(PassOf(job), st, fs, k + 1).Success?
    ensures FetchMoreStep(RunTo(PassOf(job), st, fs, k).value.client, job.token, job.repo, job.branch, fs[k], job.net)
            == (Success(RunTo(PassOf(job), st, fs, n).value.forks[k]), RunTo(PassOf(job), st, fs, k + 1).value.client)
  {
    ComparedForkIsFetched(job, st, fs, n, k);
  }

  /** One pass of the loop of `updateData` on a fork value: `apply`, and on a miss `fetchMore` and `cache`. */
  method Visit(repo: string, branch: Option<string>, fork: Fork, checker: SimilarChecker, api: Api, net: Net)
    returns (r: Result<Fork, Error>)
    modifies checker, api, api.cache
    ensures (r, checker.similarForks, api.State())
            == VisitStep(Job(api.token, repo, branch, checker.options, net), old(api.State()), old(checker.similarForks), fork)
  {
    var updated, fork' := checker.Apply(fork);
    if updated {
      return Success(fork');
    }
    r := FetchMore(repo, branch, fork, api, net);
    if r.Success? {
      KeyIgnoresMarkers(checker.options, r.value, MarkersOf(fork));
      checker.Cache(r.value);
    }
  }

  /** Pass `i` of the loop on the array: `Visit` on `forks[i]`, whose result is written back in place. */
  method VisitNext(repo: string, branch: Option<string>, forks: array<Fork>, i: nat, checker: SimilarChecker,
                   api: Api, net: Net, ghost visit: Visitor, ghost st0: ClientState, ghost orig: seq<Fork>)
    returns (failure: Option<Error>)
    requires i < forks.Length == |orig|
    requires visit == PassOf(Job(api.token, repo, branch, checker.options, net))
    requires RunTo(visit, st0, orig, i) == Success(Progress(forks[..], checker.similarForks, api.State()))
    modifies forks, checker, api, api.cache
    ensures failure.None? ==> RunTo(visit, st0, orig, i + 1) == Success(Progress(forks[..], checker.similarForks, api.State()))
    ensures failure.Some? ==> RunTo(visit, st0, orig, i + 1) == Failure(failure.value)
    ensures failure.Some? ==> RunTo(visit, st0, orig, i) == Success(Progress(forks[..], checker.similarForks, api.State()))
  {
    ghost var p := Progress(forks[..], checker.similarForks, api.State());
    var r := Visit(repo, branch, forks[i], checker, api, net);
    assert visit(p.client, p.table, p.forks[i]) == (r, checker.similarForks, api.State());
    if r.Failure? {
      return Some(r.error);
    }
    forks[i] := r.value;
    failure := None;
  }

  /**
   * The `for` loop of `updateData` (js/main.js:387-398). `haltAt` is the first
   * position at which the loop finds the global `running` flag false, if it
   * ever does: the loop breaks there, so later readings of the flag do not
   * matter and the check of the flag before fork `i` is the test `i < end`.
   * `stop` is the number of passes completed.
   */
  method VisitAll(repo: string, branch: Option<string>, forks: array<Fork>, api: Api, options: Options,
                  haltAt: Option<nat>, net: Net)
    returns (failure: Option<Error>, ghost stop: nat)
    modifies forks, api, api.cache
    ensures stop <= forks.Length
    ensures var visit := PassOf(Job(api.token, repo, branch, options, net));
            var end := LoopEnd(haltAt, forks.Length);
            && stop == Halt(visit, old(api.State()), old(forks[..]), end)
            && forks[..] == RunTo(visit, old(api.State()), old(forks[..]), stop).value.forks
            && api.State() == RunTo(visit, old(api.State()), old(forks[..]), stop).value.client
            && failure == if stop < end then Some(RunTo(visit, old(api.State()), old(forks[..]), stop + 1).error) else None
  {
    ghost var st0 := api.State();
    ghost var orig := forks[..];
    ghost var job := Job(api.token, repo, branch, options, net);
    var checker := new SimilarChecker(options);
    var end := LoopEnd(haltAt, forks.Length);
    var i := 0;
    failure := None;
    while i < end
      invariant i <= end && checker.options == options && failure.None?
      invariant RunTo(PassOf(job), st0, orig, i) == Success(Progress(forks[..], checker.similarForks, api.State()))
    {
      failure := VisitNext(repo, branch, forks, i, checker, api, net, PassOf(job), st0, orig);
      if failure.Some? {
        break;
      }
      i := i + 1;
    }
    stop := i;
    HaltIs(PassOf(job), st0, orig, end, i);
  }

  /**
   * `updateData` on fork values: the markers are reset, the loop runs to
   * `Halt`, and `refreshLimits` runs whether the loop finished, broke or
   * threw; its own rejection replaces the loop's outcome.
   */
  function UpdateStep(job: Job, st: ClientState, fs: seq<Fork>, haltAt: Option<nat>)
    : (r: (Outcome<Error>, seq<Fork>, ClientState))
  {
    var fs0 := Resets(fs);
    var end := LoopEnd(haltAt, |fs|);
    var n := Halt(PassOf(job), st, fs0, end);
    var p := RunTo(PassOf(job), st, fs0, n).value;
    var (refreshed, st') := RefreshStep(p.client, job.token, job.net);
    (if refreshed.Fail? then refreshed else if n < end then Fail(RunTo(PassOf(job), st, fs0, n + 1).error) else Pass,
     p.forks, st')
  }

  /**
   * What `updateData` leaves: only markers change, the forks from the stopping
   * position on are merely reset, the loop stops early only at `haltAt` or on
   * a fork without owner, and the last request is the rate-limit query.
   */
  lemma UpdateResult(job: Job, st: ClientState, fs: seq<Fork>, haltAt: Option<nat>)
    ensures var (outcome, fs', st') := UpdateStep(job, st, fs, haltAt);
            var n := Halt(PassOf(job), st, Resets(fs), LoopEnd(haltAt, |fs|));
            && |fs'| == |fs|
            && (forall i :: 0 <= i < |fs| ==> Reset(fs'[i]) == Reset(fs[i]))
            && (forall i :: n <= i < |fs| ==> fs'[i] == Reset(fs[i]))
            && (haltAt.Some? ==> n <= haltAt.value)
            && (n < |fs| ==> haltAt == Some(n) || (fs[n].owner.None? && outcome.Fail?))
            && (outcome.Fail? <==> job.net(RateLimitUrl).Rejected? || n < LoopEnd(haltAt, |fs|))
            && |st'.sent| > 0 && st'.sent[|st'.sent| - 1] == Request(RateLimitUrl, Config(job.token))
  {
    var fs0 := Resets(fs);
    var visit := PassOf(job);
    var n := Halt(visit, st, fs0, LoopEnd(haltAt, |fs|));
    PassOfCopiesOrRecords(job);
    RunForks(visit, job.options, st, fs0, n);
    if n < LoopEnd(haltAt, |fs|) {
      FailedPass(visit, job.options, st, fs0, n);
    }
    forall i | 0 <= i < |fs|
      ensures Reset(RunTo(visit, st, fs0, n).value.forks[i]) == Reset(fs[i])
    {
      var f := RunTo(visit, st, fs0, n).value.forks[i];
      if i < n {
        assert WithMarkers(f, MarkersOf(fs0[i])) == fs0[i];
      }
    }
  }

  /** After `updateData`, forks visited with the same non-empty key carry the same markers. */
  lemma UpdateDedup(job: Job, st: ClientState, fs: seq<Fork>, haltAt: Option<nat>)
    ensures var fs' := UpdateStep(job, st, fs, haltAt).1;
            var n := Halt(PassOf(job), st, Resets(fs), LoopEnd(haltAt, |fs|));
            forall i, j :: 0 <= i < j < n && GetKey(job.options, fs[i]) == GetKey(job.options, fs[j]) != "" ==>
              MarkersOf(fs'[i]) == MarkersOf(fs'[j])
  {
    var fs0 := Resets(fs);
    ResetsKeepKeys(job.options, fs);
    PassOfCopiesOrRecords(job);
    SameKeySameMarkers(PassOf(job), job.options, st, fs0, Halt(PassOf(job), st, fs0, LoopEnd(haltAt, |fs|)));
  }

  /**
   * Fork `k` of a completed pass in `updateData`: when its key is empty or new
   * it was compared, and it ends as `fetchMore` leaves its reset value from the
   * client state before its pass; otherwise no request was made for it and the
   * client state is unchanged by its pass.
   */
  lemma UpdateCompares(job: Job, st: ClientState, fs: seq<Fork>, haltAt: Option<nat>, k: nat)
    requires k < Halt(PassOf(job), st, Resets(fs), LoopEnd(haltAt, |fs|))
    ensures var fs0 := Resets(fs);
            var fs' := UpdateStep(job, st, fs, haltAt).1;
            && RunTo(PassOf(job), st, fs0, k).Success? && RunTo(PassOf(job), st, fs0, k + 1).Success?
            && (FirstOfKey(KeysOf(job.options, fs), k) ==>
                  FetchMoreStep(RunTo(PassOf(job), st, fs0, k).value.client, job.token, job.repo, job.branch, Reset(fs[k]), job.net)
                  == (Success(fs'[k]), RunTo(PassOf(job), st, fs0, k + 1).value.client))
            && (!FirstOfKey(KeysOf(job.options, fs), k) ==>
                  RunTo(PassOf(job), st, fs0, k + 1).value.client == RunTo(PassOf(job), st, fs0, k).value.client)
  {
    var fs0 := Resets(fs);
    var n := Halt(PassOf(job), st, fs0, LoopEnd(haltAt, |fs|));
    ResetsKeepKeys(job.options, fs);
    if FirstOfKey(KeysOf(job.options, fs0), k) {
      ComparedForkIsFetched(job, st, fs0, n, k);
    } else {
      PassOfCopiesOrRecords(job);
      CopiedForkIsNotFetched(PassOf(job), job.options, st, fs0, n, k);
    }
  }

  /** `updateData(repo, originalBranch, forks, api)`, with the forks updated in place. */
  method UpdateData(repo: string, branch: Option<string>, forks: array<Fork>, api: Api, options: Options,
                    haltAt: Option<nat>, net: Net)
    returns (r: Outcome<Error>)
    modifies forks, api, api.cache
    ensures (r, forks[..], api.State()) == UpdateStep(Job(api.token, repo, branch, options, net), old(api.State()), old(forks[..]), haltAt)
  {
    ResetMarkers(forks);
    var failure;
    ghost var stop;
    failure, stop := VisitAll(repo, branch, forks, api, options, haltAt, net);
    var refreshed := api.RefreshLimits(net);
    if refreshed.Fail? {
      r := refreshed;
    } else if failure.Some? {
      r := Fail(failure.value);
    } else {
      r := Pass;
    }
  }

  // ----- Pagination (js/main.js:298-311) -----

  /** `n` as a template literal prints it. */
  function IntToString(n: int): (r: string)
    ensures r != []
  {
    if n < 0 then "-" + NatToString(-n) else NatToString(n)
  }

  function PageUrl(repo: string, maxRecords: int, page: nat): string {
    ApiBase + "/repos/" + repo + "/forks?sort=newest&per_page=" + IntToString(maxRecords) + "&page=" + NatToString(page)
  }

  /** Distinct pages have distinct URLs, so no page of a run is answered from another page's cache entry. */
  lemma PageUrlInjective(repo: string, maxRecords: int, p: nat, q: nat)
    requires PageUrl(repo, maxRecords, p) == PageUrl(repo, maxRecords, q)
    ensures p == q
  {
    var pre := ApiBase + "/repos/" + repo + "/forks?sort=newest&per_page=" + IntToString(maxRecords) + "&page=";
    assert PageUrl(repo, maxRecords, p)[|pre|..] == NatToString(p);
    assert PageUrl(repo, maxRecords, q)[|pre|..] == NatToString(q);
    NatToStringInjective(p, q);
  }

  /** What the loop does with the value `api.fetch` gave for a page. */
  datatype PageStep = Append(items: seq<Option<Fork>>) | Stop | NotIterable

  /**
   * `null` and the empty array stop the loop, a non-empty array is appended,
   * and spreading a value of another shape throws.
   */
  function PageItems(got: Option<Payload>): (s: PageStep)
    ensures s.Append? ==> s.items != []
  {
    match got
    case None => Stop
    case Some(RepoData(None)) => Stop
    case Some(ForkPage(xs)) => if xs == [] then Stop else Append(xs)
    case Some(_) => NotIterable
  }

  /** Asking for one page of forks, from a client state; the page number is the second argument. */
  type PageFetcher = (ClientState, nat) -> (Result<Option<Payload>, Error>, ClientState)

  /** `api.fetch(url)` for one page of the fork list (js/main.js:300-303). */
  function PageFetch(token: string, repo: string, maxRecords: int, net: Net): PageFetcher {
    (st: ClientState, page: nat) => GetStep(st, token, PageUrl(repo, maxRecords, page), PageLimiter, net)
  }

  /**
   * The loop from page `page` on, `acc` holding the forks appended so far: while
   * there are fewer than `maxRecords`, the next page is fetched and appended.
   */
  function Pages(fetch: PageFetcher, st: ClientState, maxRecords: int, page: nat, acc: seq<Option<Fork>>)
    : (r: (Result<seq<Option<Fork>>, Error>, ClientState))
    ensures |acc| >= maxRecords ==> r == (Success(acc), st)
    ensures r.0.Success? ==> |acc| <= |r.0.value| && r.0.value[..|acc|] == acc
    decreases maxRecords - |acc|
  {
    if |acc| >= maxRecords then (Success(acc), st)
    else
      var (got, st1) := fetch(st, page);
      match got
      case Failure(e) => (Failure(e), st1)
      case Success(p) =>
        match PageItems(p)
        case Stop => (Success(acc), st1)
        case NotIterable => (Failure(NotIterableError), st1)
        case Append(xs) =>
          var r := Pages(fetch, st1, maxRecords, page + 1, acc + xs);
          assert r.0.Success? ==> r.0.value[..|acc|] == (acc + xs)[..|acc|];
          r
  }

  /** The items of several pages, one page after the other. */
  function Concat(pages: seq<seq<Option<Fork>>>): (r: seq<Option<Fork>>)
    ensures pages != [] ==> r == pages[0] + Concat(pages[1..])
  {
    if pages == [] then [] else pages[0] + Concat(pages[1..])
  }

  /**
   * `k` consecutive pages from `page` on, each asked for from the client state
   * the previous request left, with no rule for stopping.
   */
  function FetchPages(fetch: PageFetcher, st: ClientState, page: nat, k: nat)
    : (r: (seq<Result<Option<Payload>, Error>>, ClientState))
    ensures |r.0| == k
    decreases k
  {
    if k == 0 then ([], st)
    else
      var (got, st1) := fetch(st, page);
      var (rest, st2) := FetchPages(fetch, st1, page + 1, k - 1);
      ([got] + rest, st2)
  }

  /**
   * `items` are the pages `gots` appended after `acc` in turn: each fetched
   * without error, a non-empty array, and asked for while fewer than
   * `maxRecords` forks were gathered.
   */
  ghost predicate Appended(gots: seq<Result<Option<Payload>, Error>>, items: seq<seq<Option<Fork>>>,
                           acc: seq<Option<Fork>>, maxRecords: int)
    requires |gots| == |items|
  {
    items == [] ||
    (&& gots[0].Success? && PageItems(gots[0].value) == Append(items[0]) && |acc| < maxRecords
     && Appended(gots[1..], items[1..], acc + items[0], maxRecords))
  }

  /** `Appended` page by page: page `j` was a non-empty array, asked for below the ceiling. */
  lemma {:induction false} AppendedPages(gots: seq<Result<Option<Payload>, Error>>, items: seq<seq<Option<Fork>>>,
                                         acc: seq<Option<Fork>>, maxRecords: int)
    requires |gots| == |items| && Appended(gots, items, acc, maxRecords)
    ensures forall j :: 0 <= j < |items| ==>
              && gots[j].Success? && PageItems(gots[j].value) == Append(items[j]) && items[j] != []
              && |acc| + |Concat(items[..j])| < maxRecords
  {
    if items != [] {
      AppendedPages(gots[1..], items[1..], acc + items[0], maxRecords);
      forall j | 0 <= j < |items|
        ensures gots[j].Success? && PageItems(gots[j].value) == Append(items[j]) && items[j] != []
        ensures |acc| + |Concat(items[..j])| < maxRecords
      {
        if j > 0 {
          assert gots[1..][j - 1] == gots[j] && items[1..][j - 1] == items[j];
          assert items[..j][1..] == items[1..][..j - 1];
        }
      }
    }
  }

  lemma ConcatCons(acc: seq<Option<Fork>>, xs: seq<Option<Fork>>, items: seq<seq<Option<Fork>>>)
    ensures acc + Concat([xs] + items) == (acc + xs) + Concat(items)
  {
    assert ([xs] + items)[1..] == items;
  }

  /**
   * The pagination loop from `page` on, run from client state `st` with `acc`
   * gathered, appends `k` pages whose items are `items` (`Appended`); it then
   * goes on from page `page + k` with all of them gathered, and either the
   * ceiling is reached there or that page does not append. So a successful
   * result is exactly `acc` followed by the items of those `k` pages.
   */
  ghost predicate Shaped(fetch: PageFetcher, st: ClientState, maxRecords: int, page: nat, acc: seq<Option<Fork>>,
                         k: nat, items: seq<seq<Option<Fork>>>)
  {
    && |items| == k
    && Appended(FetchPages(fetch, st, page, k).0, items, acc, maxRecords)
    && var stk := FetchPages(fetch, st, page, k).1;
    && Pages(fetch, st, maxRecords, page, acc) == Pages(fetch, stk, maxRecords, page + k, acc + Concat(items))
    && (|acc + Concat(items)| < maxRecords ==>
          var got := fetch(stk, page + k).0;
          !(got.Success? && PageItems(got.value).Append?))
    && var r := Pages(fetch, st, maxRecords, page, acc).0;
    r.Success? ==> r.value == acc + Concat(items)
  }

  /** Every run of the pagination loop has the shape `Shaped` describes, for some `k` and `items`. */
  lemma {:induction false} PagesShape(fetch: PageFetcher, st: ClientState, maxRecords: int, page: nat,
                                      acc: seq<Option<Fork>>)
    returns (k: nat, items: seq<seq<Option<Fork>>>)
    ensures Shaped(fetch, st, maxRecords, page, acc, k, items)
    decreases maxRecords - |acc|
  {
    var got, st1 := fetch(st, page).0, fetch(st, page).1;
    if |acc| < maxRecords && got.Success? && PageItems(got.value).Append? {
      var xs := PageItems(got.value).items;
      var k', items' := PagesShape(fetch, st1, maxRecords, page + 1, acc + xs);
      PagesShapeStep(fetch, st, maxRecords, page, acc, got, st1, xs, k', items');
      k, items := k' + 1, [xs] + items';
    } else {
      k, items := 0, [];
      PagesShapeStop(fetch, st, maxRecords, page, acc);
    }
  }

  /** `PagesShape` when the first page is not appended: nothing is gathered and the loop is where it was. */
  lemma PagesShapeStop(fetch: PageFetcher, st: ClientState, maxRecords: int, page: nat, acc: seq<Option<Fork>>)
    requires !(|acc| < maxRecords && fetch(st, page).0.Success? && PageItems(fetch(st, page).0.value).Append?)
    ensures Shaped(fetch, st, maxRecords, page, acc, 0, [])
  {
    assert acc + Concat([]) == acc;
  }

  /** `PagesShape` for a first page `got` that appends `xs`, from what it states for the pages after it. */
  lemma PagesShapeStep(fetch: PageFetcher, st: ClientState, maxRecords: int, page: nat, acc: seq<Option<Fork>>,
                       got: Result<Option<Payload>, Error>, st1: ClientState, xs: seq<Option<Fork>>,
                       k: nat, items: seq<seq<Option<Fork>>>)
    requires |acc| < maxRecords && (got, st1) == fetch(st, page)
    requires got.Success? && PageItems(got.value) == Append(xs)
    requires Shaped(fetch, st1, maxRecords, page + 1, acc + xs, k, items)
    ensures Shaped(fetch, st, maxRecords, page, acc, k + 1, [xs] + items)
  {
    var (gots', stk) := FetchPages(fetch, st1, page + 1, k);
    assert FetchPages(fetch, st, page, k + 1) == ([got] + gots', stk);
    assert ([got] + gots')[1..] == gots' && ([xs] + items)[1..] == items;
    assert page + (k + 1) == page + 1 + k;
    ConcatCons(acc, xs, items);
  }

  /**
   * The pagination loop, whole: pages `page`, `page + 1`, ..., `page + k - 1`
   * each came back as a non-empty array of forks, asked for while fewer than
   * `maxRecords` forks were gathered; a successful result is `acc` followed by
   * their items in page order; and a successful result still under the
   * ceiling means page `page + k` came back as the empty (stopping) page.
   */
  lemma PagesWhole(fetch: PageFetcher, st: ClientState, maxRecords: int, page: nat, acc: seq<Option<Fork>>)
    returns (k: nat, items: seq<seq<Option<Fork>>>)
    ensures |items| == k
    ensures var gots := FetchPages(fetch, st, page, k).0;
            forall j :: 0 <= j < k ==>
              && gots[j].Success? && PageItems(gots[j].value) == Append(items[j]) && items[j] != []
              && |acc| + |Concat(items[..j])| < maxRecords
    ensures var r := Pages(fetch, st, maxRecords, page, acc).0;
            r.Success? ==> r.value == acc + Concat(items)
    ensures var r := Pages(fetch, st, maxRecords, page, acc).0;
            var next := fetch(FetchPages(fetch, st, page, k).1, page + k).0;
            r.Success? && |r.value| < maxRecords ==> next.Success? && PageItems(next.value).Stop?
  {
    k, items := PagesShape(fetch, st, maxRecords, page, acc);
    AppendedPages(FetchPages(fetch, st, page, k).0, items, acc, maxRecords);
  }

  /** The requests for pages `asked`, in that order, with the plain headers. */
  function PageRequests(token: string, repo: string, maxRecords: int, asked: seq<nat>): (r: seq<Request>)
    ensures |r| == |asked| && forall i :: 0 <= i < |asked| ==> r[i] == Request(PageUrl(repo, maxRecords, asked[i]), Config(token))
  {
    seq(|asked|, i requires 0 <= i < |asked| => Request(PageUrl(repo, maxRecords, asked[i]), Config(token)))
  }

  /**
   * What the pagination loop sends: one plain request per page it asks for,
   * in increasing page order from `page` on; a page served from the cache
   * sends none.
   */
  lemma {:induction false} PagesRequests(token: string, repo: string, maxRecords: int, net: Net, st: ClientState,
                                         page: nat, acc: seq<Option<Fork>>)
    returns (asked: seq<nat>)
    ensures forall i :: 0 <= i < |asked| ==> page <= asked[i]
    ensures forall i, j :: 0 <= i < j < |asked| ==> asked[i] < asked[j]
    ensures Pages(PageFetch(token, repo, maxRecords, net), st, maxRecords, page, acc).1.sent
            == st.sent + PageRequests(token, repo, maxRecords, asked)
    decreases maxRecords - |acc|
  {
    if |acc| >= maxRecords {
      return [];
    }
    var (got, st1) := PageFetch(token, repo, maxRecords, net)(st, page);
    assert (got, st1) == GetStep(st, token, PageUrl(repo, maxRecords, page), PageLimiter, net);
    var here: seq<nat> := if st1.sent == st.sent then [] else [page];
    assert st1.sent == st.sent + PageRequests(token, repo, maxRecords, here);
    if got.Success? && PageItems(got.value).Append? {
      var rest := PagesRequests(token, repo, maxRecords, net, st1, page + 1, acc + PageItems(got.value).items);
      asked := here + rest;
      PageRequestsAppend(token, repo, maxRecords, st.sent, here, rest);
    } else {
      asked := here;
    }
  }

  lemma PageRequestsAppend(token: string, repo: string, maxRecords: int, sent: seq<Request>, a: seq<nat>, b: seq<nat>)
    ensures (sent + PageRequests(token, repo, maxRecords, a)) + PageRequests(token, repo, maxRecords, b)
            == sent + PageRequests(token, repo, maxRecords, a + b)
  {
    assert PageRequests(token, repo, maxRecords, a + b)
           == PageRequests(token, repo, maxRecords, a) + PageRequests(token, repo, maxRecords, b);
  }

  /** The `while` loop of `fetchAndShow`, from page 1 with no fork gathered. */
  method Paginate(repo: string, maxRecords: int, api: Api, net: Net) returns (r: Result<seq<Option<Fork>>, Error>)
    modifies api, api.cache
    ensures (r, api.State()) == Pages(PageFetch(api.token, repo, maxRecords, net), old(api.State()), maxRecords, 1, [])
  {
    ghost var fetch := PageFetch(api.token, repo, maxRecords, net);
    var forks: seq<Option<Fork>> := [];
    var page: nat := 1;
    while |forks| < maxRecords
      invariant Pages(fetch, old(api.State()), maxRecords, 1, []) == Pages(fetch, api.State(), maxRecords, page, forks)
      decreases maxRecords - |forks|
    {
      ghost var st := api.State();
      var someData := api.Get(PageUrl(repo, maxRecords, page), PageLimiter, net);
      assert fetch(st, page) == (someData, api.State());
      if someData.Failure? {
        return Failure(someData.error);
      }
      match PageItems(someData.value)
      case Stop => return Success(forks);
      case NotIterable => return Failure(NotIterableError);
      case Append(xs) =>
        forks := forks + xs;
        page := page + 1;
    }
    return Success(forks);
  }

  // ----- One run (js/main.js:248-335) -----

  /** What the run leaves on the page: an alert, or the rows `updateDT` hands to the table (js/main.js:71-89). */
  datatype Shown = Message(text: string) | Table(rows: seq<TableRow>)

  /** `Error: ${error.message || 'An error occurred while fetching data'}`. */
  function ErrorText(e: Error): (r: string)
    ensures IsPrefix("Error: ", r) && |r| > 7
    ensures e.message != "" ==> r[7..] == e.message
    ensures e.message == "" ==> r[7..] == "An error occurred while fetching data"
  {
    "Error: " + (if e.message != "" then e.message else "An error occurred while fetching data")
  }

  const NotFoundError := Error("Repository not found or access denied", None)

  /** The token field with every space removed (`replaceAll(' ', '')`). */
  function RemoveSpaces(s: string): (r: string)
    ensures ' ' !in r
    ensures ' ' !in s ==> r == s
  {
    if s == [] then []
    else
      var r := (if s[0] == ' ' then [] else [s[0]]) + RemoveSpaces(s[1..]);
      assert s == [s[0]] + s[1..];
      r
  }

  /** Only spaces are removed: every other character stays, as often as it occurred. */
  lemma {:induction false} RemoveSpacesKeepsOthers(s: string)
    ensures multiset(RemoveSpaces(s)) == multiset(s)[' ' := 0]
  {
    if s != [] {
      RemoveSpacesKeepsOthers(s[1..]);
      assert s == [s[0]] + s[1..];
    }
  }

  /** Removing spaces works piece by piece, so the other characters keep their order. */
  lemma {:induction false} RemoveSpacesAppend(a: string, b: string)
    ensures RemoveSpaces(a + b) == RemoveSpaces(a) + RemoveSpaces(b)
  {
    if a == [] {
      assert a + b == b;
    } else {
      var head := if a[0] == ' ' then [] else [a[0]];
      calc {
        RemoveSpaces(a + b);
        { assert (a + b)[0] == a[0] && (a + b)[1..] == a[1..] + b; }
        head + RemoveSpaces(a[1..] + b);
        { RemoveSpacesAppend(a[1..], b); }
        head + (RemoveSpaces(a[1..]) + RemoveSpaces(b));
        (head + RemoveSpaces(a[1..])) + RemoveSpaces(b);
        RemoveSpaces(a) + RemoveSpaces(b);
      }
    }
  }

  function RepoUrl(repo: string): string {
    ApiBase + "/repos/" + repo
  }

  /**
   * The original repository as `fetchAndShow` reads it: `null` stays absent; a
   * value of another shape (an array or a comparison) is an object without the
   * repository's fields.
   */
  function OriginalOf(p: Payload): (r: Option<Fork>)
    ensures r.None? <==> p == RepoData(None)
    ensures p.RepoData? ==> r == p.repo
    ensures !p.RepoData? ==> r.Some? && !IsValidFork(r)
  {
    match p
    case RepoData(f) => f
    case _ => Some(Fork(None, None, None, None, None, None, None, None, None, None, None, None, None))
  }

  const NoValidData := "No valid repository data found"

  /**
   * The part of `fetchAndShow` after the original was found (js/main.js:298-335):
   * the fork pages, `updateData`, and the rows made from the original followed
   * by the forks. `data` is the record list the rows are made from.
   */
  function CompareStep(st: ClientState, token: string, repo: string, original: Fork, options: Options,
                       haltAt: Option<nat>, net: Net): (r: (Shown, seq<Option<Fork>>, ClientState))
  {
    var (pages, st1) := Pages(PageFetch(token, repo, options.maxRecords, net), st, options.maxRecords, 1, []);
    if pages.Failure? then (Message(ErrorText(pages.error)), [], st1)
    else
      var job := Job(token, repo, original.default_branch, options, net);
      var (outcome, forks, st2) := UpdateStep(job, st1, Present(pages.value), haltAt);
      if outcome.Fail? then (Message(ErrorText(outcome.error)), [], st2)
      else
        var (shown, data) := Tabulate(original, forks);
        (shown, data, st2)
  }

  /**
   * The end of `fetchAndShow` (js/main.js:320-335): the records are the original
   * followed by the forks; the table gets a row per valid record, and the alert
   * is shown when there is none.
   */
  function Tabulate(original: Fork, forks: seq<Fork>): (r: (Shown, seq<Option<Fork>>))
  {
    var data := [Some(original)] + Wrap(forks);
    var validData := FilterSome(data);
    if validData == [] then (Message(NoValidData), data)
    else
      var rows := ProcessForkData(validData);
      (if rows == [] then Message(NoValidData) else Table(rows), data)
  }

  /**
   * The records are the original then the forks, every one present; the table
   * is shown exactly when some record is valid, with one row per valid record,
   * the original's first when it is valid; otherwise the alert says so.
   */
  lemma TabulateShows(original: Fork, forks: seq<Fork>)
    ensures var (shown, data) := Tabulate(original, forks);
            && data == [Some(original)] + Wrap(forks)
            && (shown.Table? <==> ValidForks(data) != [])
            && (shown.Table? ==> shown.rows == Rows(ValidForks(data)))
            && (!shown.Table? ==> shown == Message(NoValidData))
            && (IsValidFork(Some(original)) ==> shown.Table? && shown.rows[0] == CreateForkObject(original))
  {
    var data := [Some(original)] + Wrap(forks);
    FilterSomeKeepsPresent(data);
    ProcessForkDataFilters(data);
    assert ValidForks(data) == (if IsValidFork(data[0]) then [original] else []) + ValidForks(data[1..]);
  }

  /**
   * When the table is shown and what it holds: a failing page or a failing
   * `updateData` shows its error; otherwise `data` is the original followed by
   * every fork gathered, the `null`s dropped, in page order with only their
   * markers changed, and the table is shown exactly when some record in it is
   * valid, with one row per valid record, the original's first when it is valid.
   */
  lemma CompareShows(st: ClientState, token: string, repo: string, original: Fork, options: Options,
                     haltAt: Option<nat>, net: Net)
    ensures var (shown, data, _) := CompareStep(st, token, repo, original, options, haltAt, net);
            var (pages, st1) := Pages(PageFetch(token, repo, options.maxRecords, net), st, options.maxRecords, 1, []);
            && (pages.Failure? ==> shown == Message(ErrorText(pages.error)))
            && (pages.Success? ==>
                  var gathered := Present(pages.value);
                  var (outcome, forks, _) := UpdateStep(Job(token, repo, original.default_branch, options, net), st1, gathered, haltAt);
                  && (outcome.Fail? ==> shown == Message(ErrorText(outcome.error)))
                  && (outcome.Pass? ==>
                        && |data| == 1 + |gathered| && data[0] == Some(original)
                        && (forall i :: 0 <= i < |gathered| ==> data[i + 1].Some? && Reset(data[i + 1].value) == Reset(gathered[i]))
                        && (shown.Table? <==> ValidForks(data) != [])
                        && (shown.Table? ==> shown.rows == Rows(ValidForks(data)))
                        && (IsValidFork(Some(original)) ==> shown.Table? && shown.rows[0] == CreateForkObject(original))))
  {
    var (pages, st1) := Pages(PageFetch(token, repo, options.maxRecords, net), st, options.maxRecords, 1, []);
    if pages.Success? {
      var job := Job(token, repo, original.default_branch, options, net);
      UpdateResult(job, st1, Present(pages.value), haltAt);
      var (outcome, forks, _) := UpdateStep(job, st1, Present(pages.value), haltAt);
      TabulateShows(original, forks);
    }
  }

  /**
   * `fetchAndShow(repo)` on values (js/main.js:248-335): the token and the
   * session store are inputs, `haltAt` and `net` as in `UpdateStep`.
   */
  function ShowStep(input: string, tokenField: string, options: Options, session: map<string, Slot>,
                    readable: bool, writable: bool, haltAt: Option<nat>, net: Net): (r: (Shown, seq<Option<Fork>>))
  {
    var repo := NormaliseRepo(input);
    var token := RemoveSpaces(tokenField);
    var st0 := ClientState(Unknown, CacheState(map[], session, readable, writable), []);
    var (got, st1) := GetStep(st0, token, RepoUrl(repo), RepoLimiter, net);
    if got.Failure? then (Message(ErrorText(got.error)), [])
    else if got.value.None? || OriginalOf(got.value.value).None? then (Message(ErrorText(NotFoundError)), [])
    else
      var original := WithMarkers(OriginalOf(got.value.value).value, Markers(Some("0"), Some("0")));
      var (shown, data, _) := CompareStep(st1, token, repo, original, options, haltAt, net);
      (shown, data)
  }

  /**
   * The first request decides whether anything else happens: its error, or a
   * missing original, is shown as an alert; a table needs the original found,
   * and it comes first in the records, with both markers `'0'`.
   */
  lemma ShowFacts(input: string, tokenField: string, options: Options, session: map<string, Slot>,
                  readable: bool, writable: bool, haltAt: Option<nat>, net: Net)
    ensures var (shown, data) := ShowStep(input, tokenField, options, session, readable, writable, haltAt, net);
            var st0 := ClientState(Unknown, CacheState(map[], session, readable, writable), []);
            var got := GetStep(st0, RemoveSpaces(tokenField), RepoUrl(NormaliseRepo(input)), RepoLimiter, net).0;
            && (got.Failure? ==> shown == Message(ErrorText(got.error)) && data == [])
            && (got.Success? && (got.value.None? || OriginalOf(got.value.value).None?) ==>
                  shown == Message(ErrorText(NotFoundError)) && data == [])
            && (shown.Table? ==>
                  && got.Success? && got.value.Some? && OriginalOf(got.value.value).Some?
                  && data != []
                  && data[0] == Some(WithMarkers(OriginalOf(got.value.value).value, Markers(Some("0"), Some("0"))))
                  && shown.rows == Rows(ValidForks(data)) && shown.rows != [])
  {
    var st0 := ClientState(Unknown, CacheState(map[], session, readable, writable), []);
    var repo := NormaliseRepo(input);
    var token := RemoveSpaces(tokenField);
    var (got, st1) := GetStep(st0, token, RepoUrl(repo), RepoLimiter, net);
    if got.Success? && got.value.Some? && OriginalOf(got.value.value).Some? {
      var original := WithMarkers(OriginalOf(got.value.value).value, Markers(Some("0"), Some("0")));
      CompareShows(st1, token, repo, original, options, haltAt, net);
    }
  }

  /** `fetchAndShow(repo)`. */
  method FetchAndShow(input: string, tokenField: string, options: Options, session: map<string, Slot>,
                      readable: bool, writable: bool, haltAt: Option<nat>, net: Net)
    returns (shown: Shown, data: seq<Option<Fork>>)
    ensures (shown, data) == ShowStep(input, tokenField, options, session, readable, writable, haltAt, net)
  {
    var repo := NormaliseRepo(input);
    var token := RemoveSpaces(tokenField);
    var api := new Api(token, session, readable, writable);
    data := [];
    var got := api.Get(RepoUrl(repo), RepoLimiter, net);
    if got.Failure? {
      return Message(ErrorText(got.error)), data;
    }
    if got.value.None? || OriginalOf(got.value.value).None? {
      return Message(ErrorText(NotFoundError)), data;
    }
    var original := WithMarkers(OriginalOf(got.value.value).value, Markers(Some("0"), Some("0")));
    shown, data := CompareForks(repo, original, options, api, haltAt, net);
  }

  /** The part of `fetchAndShow` after the original was found, with the forks in an array. */
  method CompareForks(repo: string, original: Fork, options: Options, api: Api, haltAt: Option<nat>, net: Net)
    returns (shown: Shown, data: seq<Option<Fork>>)
    modifies api, api.cache
    ensures (shown, data, api.State()) == CompareStep(old(api.State()), api.token, repo, original, options, haltAt, net)
  {
    data := [];
    var pages := Paginate(repo, options.maxRecords, api, net);
    if pages.Failure? {
      return Message(ErrorText(pages.error)), data;
    }
    var forks := new Fork[|Present(pages.value)|](i requires 0 <= i < |Present(pages.value)| => Present(pages.value)[i]);
    assert forks[..] == Present(pages.value);
    var outcome := UpdateData(repo, original.default_branch, forks, api, options, haltAt, net);
    if outcome.Fail? {
      return Message(ErrorText(outcome.error)), data;
    }
    data := [Some(original)] + Wrap(forks[..]);
    var validData := FilterSome(data);
    if |validData| == 0 {
      return Message(NoValidData), data;
    }
    var rows := ProcessForkData(validData);
    if |rows| == 0 {
      return Message(NoValidData), data;
    }
    shown := Table(rows);
  }
}
