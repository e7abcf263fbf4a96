/**
 * Projection of API responses to the fields the engine keeps (the response
 * limiters) and the final filtering of fork records into table rows.
 */
module Forks {
  import opened Wrappers
  import opened Text
  import opened Records

  /** The items of a list that are present (the truthy ones), still wrapped. */
  function FilterSome<T>(xs: seq<Option<T>>): (r: seq<Option<T>>)
    ensures forall i :: 0 <= i < |r| ==> r[i].Some?
    ensures |r| <= |xs|
  {
    if xs == [] then [] else (if xs[0].Some? then [xs[0]] else []) + FilterSome(xs[1..])
  }

  /** The values of the present items, in order. */
  function Present<T>(xs: seq<Option<T>>): seq<T> {
    if xs == [] then [] else (if xs[0].Some? then [xs[0].value] else []) + Present(xs[1..])
  }

  function Wrap<T>(xs: seq<T>): (r: seq<Option<T>>)
    ensures |r| == |xs| && forall i :: 0 <= i < |xs| ==> r[i] == Some(xs[i])
  {
    seq(|xs|, i requires 0 <= i < |xs| => Some(xs[i]))
  }

  /** A list without absent items keeps all of them when filtered. */
  lemma {:induction false} FilterSomeKeepsPresent<T>(xs: seq<Option<T>>)
    requires forall i :: 0 <= i < |xs| ==> xs[i].Some?
    ensures FilterSome(xs) == xs && Wrap(Present(xs)) == xs
  {
    if xs != [] {
      FilterSomeKeepsPresent(xs[1..]);
      assert Wrap(Present(xs)) == [xs[0]] + Wrap(Present(xs[1..]));
      assert xs == [xs[0]] + xs[1..];
    }
  }

  /** Wrapping loses nothing. */
  lemma {:induction false} PresentWrap<T>(xs: seq<T>)
    ensures Present(Wrap(xs)) == xs
  {
    if xs != [] {
      assert Wrap(xs)[1..] == Wrap(xs[1..]);
      PresentWrap(xs[1..]);
      assert xs == [xs[0]] + xs[1..];
    }
  }

  /** The object `singleLimiter` builds for a present repository (js/main.js:273-285). */
  function Project(r: RawRepo): (f: Fork)
    ensures f.diff_from_original.None? && f.diff_to_original.None?
    ensures f.status.None? && f.message.None?
    ensures f.full_name == r.full_name && f.name == r.name && f.default_branch == r.default_branch
    ensures f.stargazers_count == r.stargazers_count && f.forks == r.forks
    ensures f.open_issues_count == r.open_issues_count && f.size == r.size && f.pushed_at == r.pushed_at
    ensures f.owner == r.owner
  {
    Fork(r.full_name, r.name, r.default_branch, r.stargazers_count, r.forks, r.open_issues_count,
         r.size, r.pushed_at, if r.owner.Some? then Some(Owner(r.owner.value.login)) else None,
         None, None, None, None)
  }

  /** `singleLimiter` (js/main.js:271-286): `null` stays `null`, a repository is projected. */
  function SingleLimiter(repo: Option<RawRepo>): (r: Option<Fork>)
    ensures r.None? <==> repo.None?
    ensures repo.Some? ==> r == Some(Project(repo.value))
  {
    match repo
    case None => None
    case Some(x) => Some(Project(x))
  }

  function MapSingle(xs: seq<Option<RawRepo>>): (r: seq<Option<Fork>>)
    ensures |r| == |xs| && forall i :: 0 <= i < |xs| ==> r[i] == SingleLimiter(xs[i])
  {
    seq(|xs|, i requires 0 <= i < |xs| => SingleLimiter(xs[i]))
  }

  function ProjectAll(rs: seq<RawRepo>): (r: seq<Fork>)
    ensures |r| == |rs| && forall i :: 0 <= i < |rs| ==> r[i] == Project(rs[i])
  {
    seq(|rs|, i requires 0 <= i < |rs| => Project(rs[i]))
  }

  /** `multiLimiter` (js/main.js:288): drop falsy items, project, drop nulls. */
  function MultiLimiter(xs: seq<Option<RawRepo>>): (r: seq<Option<Fork>>)
    ensures forall i :: 0 <= i < |r| ==> r[i].Some?
  {
    FilterSome(MapSingle(FilterSome(xs)))
  }

  lemma {:induction false} MapSingleFilterSome(xs: seq<Option<RawRepo>>)
    ensures MapSingle(FilterSome(xs)) == Wrap(ProjectAll(Present(xs)))
  {
    if xs != [] {
      MapSingleFilterSome(xs[1..]);
      var head := if xs[0].Some? then [xs[0]] else [];
      assert FilterSome(xs) == head + FilterSome(xs[1..]);
      assert MapSingle(head + FilterSome(xs[1..])) == MapSingle(head) + MapSingle(FilterSome(xs[1..]));
      var phead := if xs[0].Some? then [xs[0].value] else [];
      assert Present(xs) == phead + Present(xs[1..]);
      assert Wrap(ProjectAll(phead + Present(xs[1..]))) == Wrap(ProjectAll(phead)) + Wrap(ProjectAll(Present(xs[1..])));
    }
  }

  /**
   * A page of forks keeps every present repository, projected, in the order the
   * API listed them, and nothing else: no `null` reaches the page.
   */
  lemma MultiLimiterProjectsPresent(xs: seq<Option<RawRepo>>)
    ensures MultiLimiter(xs) == Wrap(ProjectAll(Present(xs)))
    ensures |MultiLimiter(xs)| == |Present(xs)|
  {
    MapSingleFilterSome(xs);
    FilterSomeKeepsPresent(Wrap(ProjectAll(Present(xs))));
  }

  /** `c.sha.substring(0, 7)` and the other commit fields kept by the comparison limiter (js/main.js:422-435). */
  function ProjectCommit(c: Commit): (p: Commit)
    ensures |p.sha| <= 7 && IsPrefix(p.sha, c.sha)
    ensures |p.sha| == if |c.sha| <= 7 then |c.sha| else 7
    ensures p.date == c.date && p.message == c.message && p.authorLogin == c.authorLogin
  {
    c.(sha := Take(c.sha, 7))
  }

  function ProjectCommits(cs: seq<Commit>): (r: seq<Commit>)
    ensures |r| == |cs| && forall i :: 0 <= i < |cs| ==> r[i] == ProjectCommit(cs[i])
  {
    seq(|cs|, i requires 0 <= i < |cs| => ProjectCommit(cs[i]))
  }

  /** `singleLimiter` as a response limiter: a non-repository body is an object without those fields. */
  function RepoLimiter(b: Body): (r: Result<Payload, Error>)
    ensures r.Success? && r.value.RepoData?
    ensures b.RepoBody? ==> r.value.repo == SingleLimiter(b.repo)
  {
    match b
    case RepoBody(repo) => Success(RepoData(SingleLimiter(repo)))
    case _ => Success(RepoData(Some(Fork(None, None, None, None, None, None, None, None, None, None, None, None, None))))
  }

  /** `multiLimiter` as a response limiter: `data.filter` throws unless the body is an array. */
  function PageLimiter(b: Body): (r: Result<Payload, Error>)
    ensures r.Success? <==> b.ListBody?
    ensures b.ListBody? ==> r == Success(ForkPage(MultiLimiter(b.items)))
  {
    match b
    case ListBody(items) => Success(ForkPage(MultiLimiter(items)))
    case _ => Failure(ShapeError)
  }

  /** The comparison limiter: `data.commits.map` throws unless the body is a comparison. */
  function CompareLimiter(b: Body): (r: Result<Payload, Error>)
    ensures r.Success? <==> b.CompareBody?
    ensures r.Success? ==> r.value.Compare? && |r.value.commits| == |b.commits|
    ensures r.Success? ==> forall i :: 0 <= i < |b.commits| ==>
              |r.value.commits[i].sha| == if |b.commits[i].sha| <= 7 then |b.commits[i].sha| else 7
    ensures r.Success? ==> forall i :: 0 <= i < |b.commits| ==>
              IsPrefix(r.value.commits[i].sha, b.commits[i].sha) && r.value.commits[i].date == b.commits[i].date
              && r.value.commits[i].message == b.commits[i].message
              && r.value.commits[i].authorLogin == b.commits[i].authorLogin
  {
    match b
    case CompareBody(cs) => Success(Compare(ProjectCommits(cs)))
    case _ => Failure(ShapeError)
  }

  /** JavaScript truthiness of a string-valued property. */
  predicate Truthy(s: Option<string>) {
    s.Some? && s.value != ""
  }

  /** `isValidFork` (js/main.js:110-117). */
  predicate IsValidFork(fork: Option<Fork>) {
    && fork.Some?
    && fork.value.status != Some(404)
    && fork.value.owner.Some?
    && Truthy(fork.value.full_name)
    && !(fork.value.message.Some? && Contains(fork.value.message.value, "Not Found"))
    && !(fork.value.message.Some? && Contains(fork.value.message.value, "No common ancestor"))
  }

  /** A record produced by the limiters is valid exactly when it has an owner and a full name. */
  lemma ProjectedValidity(r: RawRepo)
    ensures IsValidFork(Some(Project(r))) <==> r.owner.Some? && Truthy(r.full_name)
  {
  }

  /** One row of the table. */
  datatype TableRow = TableRow(
    repoLink: string,
    ownerName: string,
    name: string,
    default_branch: string,
    stargazers_count: nat,
    forks: nat,
    open_issues_count: nat,
    size: nat,
    pushed_at: Option<string>,
    diff_from_original: string,
    diff_to_original: string)

  /** `x || ''` for a string property. */
  function OrEmpty(s: Option<string>): (r: string)
    ensures Truthy(s) ==> r == s.value
    ensures !Truthy(s) ==> r == ""
  {
    if Truthy(s) then s.value else ""
  }

  /** `x || 0` for a count. */
  function OrZero(n: Option<nat>): (r: nat)
    ensures n.None? ==> r == 0
    ensures n.Some? ==> r == n.value
  {
    if n.Some? then n.value else 0
  }

  /** `createForkObject` (js/main.js:119-133). */
  function CreateForkObject(fork: Fork): (row: TableRow)
    ensures Truthy(fork.full_name) <==> row.repoLink != ""
    ensures fork.stargazers_count.None? ==> row.stargazers_count == 0
    ensures fork.forks.None? ==> row.forks == 0
    ensures fork.open_issues_count.None? ==> row.open_issues_count == 0
    ensures fork.size.None? ==> row.size == 0
    ensures !Truthy(fork.diff_from_original) ==> row.diff_from_original == ""
    ensures !Truthy(fork.diff_to_original) ==> row.diff_to_original == ""
    ensures Truthy(fork.diff_from_original) ==> row.diff_from_original == fork.diff_from_original.value
    ensures Truthy(fork.diff_to_original) ==> row.diff_to_original == fork.diff_to_original.value
    ensures row.pushed_at.Some? <==> Truthy(fork.pushed_at)
    ensures Truthy(fork.pushed_at) ==> row.pushed_at == fork.pushed_at
    ensures fork.stargazers_count.Some? ==> row.stargazers_count == fork.stargazers_count.value
    ensures fork.forks.Some? ==> row.forks == fork.forks.value
    ensures fork.open_issues_count.Some? ==> row.open_issues_count == fork.open_issues_count.value
    ensures fork.size.Some? ==> row.size == fork.size.value
    ensures row.name == OrEmpty(fork.name) && row.default_branch == OrEmpty(fork.default_branch)
    ensures row.ownerName == if fork.owner.Some? then OrEmpty(fork.owner.value.login) else ""
    ensures Truthy(fork.full_name) ==> row.repoLink == "<a href=\"https://github.com/" + fork.full_name.value + "\">Link</a>"
  {
    TableRow(
      if Truthy(fork.full_name) then "<a href=\"https://github.com/" + fork.full_name.value + "\">Link</a>" else "",
      if fork.owner.Some? then OrEmpty(fork.owner.value.login) else "",
      OrEmpty(fork.name),
      OrEmpty(fork.default_branch),
      OrZero(fork.stargazers_count),
      OrZero(fork.forks),
      OrZero(fork.open_issues_count),
      OrZero(fork.size),
      if Truthy(fork.pushed_at) then fork.pushed_at else None,
      OrEmpty(fork.diff_from_original),
      OrEmpty(fork.diff_to_original))
  }

  /** The accumulator step of the `reduce` in `processForkData` (js/main.js:92-107). */
  function Reduce(acc: seq<TableRow>, data: seq<Option<Fork>>): seq<TableRow>
    decreases |data|
  {
    if data == [] then acc
    else Reduce(if IsValidFork(data[0]) then acc + [CreateForkObject(data[0].value)] else acc, data[1..])
  }

  /** `processForkData` (js/main.js:91-108). */
  function ProcessForkData(data: seq<Option<Fork>>): seq<TableRow> {
    Reduce([], data)
  }

  /** Reference definition: the valid forks of a list, in order. */
  function ValidForks(data: seq<Option<Fork>>): (r: seq<Fork>)
    ensures forall i :: 0 <= i < |r| ==> IsValidFork(Some(r[i]))
    ensures |r| <= |data|
  {
    if data == [] then []
    else (if IsValidFork(data[0]) then [data[0].value] else []) + ValidForks(data[1..])
  }

  function Rows(fs: seq<Fork>): (r: seq<TableRow>)
    ensures |r| == |fs| && forall i :: 0 <= i < |fs| ==> r[i] == CreateForkObject(fs[i])
  {
    seq(|fs|, i requires 0 <= i < |fs| => CreateForkObject(fs[i]))
  }

  lemma RowsAppend(a: seq<Fork>, b: seq<Fork>)
    ensures Rows(a + b) == Rows(a) + Rows(b)
  {
    assert forall i :: 0 <= i < |a + b| ==> Rows(a + b)[i] == (Rows(a) + Rows(b))[i];
  }

  lemma Reassociate(acc: seq<TableRow>, head: seq<TableRow>, tail: seq<TableRow>)
    ensures acc + (head + tail) == (acc + head) + tail
  {
  }

  lemma {:induction false} ReduceIsFilterMap(acc: seq<TableRow>, data: seq<Option<Fork>>)
    ensures Reduce(acc, data) == acc + Rows(ValidForks(data))
    decreases |data|
  {
    if data != [] {
      var head := if IsValidFork(data[0]) then [data[0].value] else [];
      var acc' := if IsValidFork(data[0]) then acc + [CreateForkObject(data[0].value)] else acc;
      assert acc' == acc + Rows(head);
      ReduceIsFilterMap(acc', data[1..]);
      assert ValidForks(data) == head + ValidForks(data[1..]);
      RowsAppend(head, ValidForks(data[1..]));
      Reassociate(acc, Rows(head), Rows(ValidForks(data[1..])));
    }
  }

  /**
   * `processForkData` keeps exactly the valid forks, in their order, each turned
   * into a table row.
   */
  lemma ProcessForkDataFilters(data: seq<Option<Fork>>)
    ensures ProcessForkData(data) == Rows(ValidForks(data))
    ensures |ProcessForkData(data)| <= |data|
  {
    ReduceIsFilterMap([], data);
  }

  lemma {:induction false} ValidForksAppend(a: seq<Option<Fork>>, b: seq<Option<Fork>>)
    ensures ValidForks(a + b) == ValidForks(a) + ValidForks(b)
  {
    if a != [] {
      ValidForksAppend(a[1..], b);
      assert (a + b)[0] == a[0] && (a + b)[1..] == a[1..] + b;
    } else {
      assert a + b == b;
    }
  }

  /** A record `isValidFork` rejects leaves no trace in the table: the rows are those of the list without it. */
  lemma InvalidForkIsDropped(data: seq<Option<Fork>>, i: nat)
    requires i < |data| && !IsValidFork(data[i])
    ensures ProcessForkData(data) == ProcessForkData(data[..i] + data[i + 1..])
  {
    assert data == data[..i] + ([data[i]] + data[i + 1..]);
    ValidForksAppend(data[..i], [data[i]] + data[i + 1..]);
    assert ValidForks([data[i]] + data[i + 1..]) == ValidForks(data[i + 1..]) by {
      assert ([data[i]] + data[i + 1..])[1..] == data[i + 1..];
    }
    ValidForksAppend(data[..i], data[i + 1..]);
    ProcessForkDataFilters(data);
    ProcessForkDataFilters(data[..i] + data[i + 1..]);
  }

  /** A record `isValidFork` accepts has its row in the table. */
  lemma ValidForkIsShown(data: seq<Option<Fork>>, i: nat)
    requires i < |data| && IsValidFork(data[i])
    ensures CreateForkObject(data[i].value) in ProcessForkData(data)
  {
    assert data == data[..i] + ([data[i]] + data[i + 1..]);
    ValidForksAppend(data[..i], [data[i]] + data[i + 1..]);
    ValidForksAppend([data[i]], data[i + 1..]);
    assert ValidForks([data[i]]) == [data[i].value];
    var vs := ValidForks(data);
    var j := |ValidForks(data[..i])|;
    assert vs[j] == data[i].value;
    ProcessForkDataFilters(data);
    assert ProcessForkData(data)[j] == CreateForkObject(data[i].value);
  }

  /**
   * The comparison markers never decide validity: `isValidFork` reads the
   * `message` and `status` of the record, which the comparisons never write.
   */
  lemma ValidityIgnoresMarkers(f: Fork, from: Option<string>, to: Option<string>)
    ensures IsValidFork(Some(f.(diff_from_original := from, diff_to_original := to))) == IsValidFork(Some(f))
  {
  }
}
