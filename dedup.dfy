/**
 * The dedup table `SimilarChecker` (js/main.js:699-734): forks with the same
 * size and/or push date are assumed to diverge identically, so the markers of
 * the first such fork are copied to the later ones.
 */
module Dedup {
  import opened Wrappers
  import opened Text
  import opened Records

  /** The user options the engine reads; `maxRecords` after JavaScript's number coercion. */
  datatype Options = Options(sameSize: bool, samePushDate: bool, maxRecords: int)

  /** The pair of markers the table stores per key. */
  datatype Markers = Markers(diff_from_original: Option<string>, diff_to_original: Option<string>)

  function MarkersOf(f: Fork): Markers {
    Markers(f.diff_from_original, f.diff_to_original)
  }

  function WithMarkers(f: Fork, m: Markers): (g: Fork)
    ensures MarkersOf(g) == m
  {
    f.(diff_from_original := m.diff_from_original, diff_to_original := m.diff_to_original)
  }

  /** `fork.size` inside a string concatenation. */
  function SizeText(f: Fork): (r: string)
    ensures '_' !in r
  {
    match f.size
    case Some(n) => NatToString(n)
    case None => "undefined"
  }

  /** `fork.pushed_at` inside a string concatenation (the API sends `null` for a never-pushed fork). */
  function PushText(f: Fork): string {
    match f.pushed_at
    case Some(s) => s
    case None => "null"
  }

  /** `getKey` (js/main.js:702-707). */
  function GetKey(o: Options, f: Fork): (k: string)
    ensures k == "" <==> !o.sameSize && !o.samePushDate
  {
    (if o.sameSize then SizeText(f) + "_" else "") + (if o.samePushDate then PushText(f) + "_" else "")
  }

  lemma NumberIsNotUndefined(n: nat)
    ensures NatToString(n) != "undefined"
  {
    assert IsDigit(NatToString(n)[0]);
  }

  lemma SizeTextInjective(f: Fork, g: Fork)
    requires SizeText(f) == SizeText(g)
    ensures f.size == g.size
  {
    if f.size.Some? && g.size.Some? {
      NatToStringInjective(f.size.value, g.size.value);
    } else if f.size.Some? {
      NumberIsNotUndefined(f.size.value);
    } else if g.size.Some? {
      NumberIsNotUndefined(g.size.value);
    }
  }

  lemma FirstUnderscore(a: string, b: string)
    requires '_' !in a
    ensures (a + "_" + b)[|a|] == '_'
    ensures forall i :: 0 <= i < |a| ==> (a + "_" + b)[i] != '_'
  {
    assert forall i :: 0 <= i < |a| ==> (a + "_" + b)[i] == a[i];
  }

  /** Splitting a key at its first underscore recovers the first component. */
  lemma KeyFieldsSplit(a: string, b: string, c: string, d: string)
    requires '_' !in a && '_' !in c
    requires a + "_" + b == c + "_" + d
    ensures a == c && b == d
  {
    var s := a + "_" + b;
    FirstUnderscore(a, b);
    FirstUnderscore(c, d);
    assert |a| == |c|;
    assert a == s[..|a|] == c;
    assert b == s[|a| + 1..] == d;
  }

  /**
   * Two forks share a key exactly when they agree on every attribute the options
   * switch on (the size as a number, the push date as text).
   */
  lemma SameKeyIffSameAttributes(o: Options, f: Fork, g: Fork)
    ensures GetKey(o, f) == GetKey(o, g)
            <==> (o.sameSize ==> f.size == g.size) && (o.samePushDate ==> PushText(f) == PushText(g))
  {
    if GetKey(o, f) == GetKey(o, g) {
      if o.sameSize && o.samePushDate {
        assert SizeText(f) + "_" + (PushText(f) + "_") == SizeText(g) + "_" + (PushText(g) + "_");
        KeyFieldsSplit(SizeText(f), PushText(f) + "_", SizeText(g), PushText(g) + "_");
        SizeTextInjective(f, g);
        assert PushText(f) == (PushText(f) + "_")[..|PushText(f)|];
      } else if o.sameSize {
        assert GetKey(o, f) == SizeText(f) + "_" && GetKey(o, g) == SizeText(g) + "_";
        assert SizeText(f) == (SizeText(f) + "_")[..|SizeText(f)|];
        assert SizeText(g) == (SizeText(g) + "_")[..|SizeText(g)|];
        SizeTextInjective(f, g);
      } else if o.samePushDate {
        assert GetKey(o, f) == PushText(f) + "_" && GetKey(o, g) == PushText(g) + "_";
        assert PushText(f) == (PushText(f) + "_")[..|PushText(f)|];
        assert PushText(g) == (PushText(g) + "_")[..|PushText(g)|];
      }
    } else {
      if o.sameSize && f.size == g.size {
        assert SizeText(f) == SizeText(g);
      }
    }
  }

  /** The key depends on nothing but the size and the push date. */
  lemma KeyIgnoresMarkers(o: Options, f: Fork, m: Markers)
    ensures GetKey(o, WithMarkers(f, m)) == GetKey(o, f)
  {
  }

  /** The dedup table of one `updateData` run. */
  class SimilarChecker {
    const options: Options
    var similarForks: map<string, Markers>

    constructor (options: Options)
      ensures this.options == options && similarForks == map[]
    {
      this.options := options;
      similarForks := map[];
    }

    /**
     * `apply` (js/main.js:709-721): on a hit, the stored markers are copied onto
     * the fork and the result is true; otherwise the fork is returned unchanged.
     */
    method Apply(fork: Fork) returns (updated: bool, fork': Fork)
      ensures updated <==> GetKey(options, fork) != "" && GetKey(options, fork) in similarForks
      ensures updated ==> fork' == WithMarkers(fork, similarForks[GetKey(options, fork)])
      ensures !updated ==> fork' == fork
    {
      var key := GetKey(options, fork);
      if |key| > 0 && key in similarForks {
        return true, WithMarkers(fork, similarForks[key]);
      }
      return false, fork;
    }

    /** `cache` (js/main.js:723-731): records the fork's markers under a non-empty key. */
    method Cache(fork: Fork)
      modifies this
      ensures GetKey(options, fork) == "" ==> similarForks == old(similarForks)
      ensures GetKey(options, fork) != "" ==> similarForks == old(similarForks)[GetKey(options, fork) := MarkersOf(fork)]
    {
      var key := GetKey(options, fork);
      if |key| > 0 {
        similarForks := similarForks[key := MarkersOf(fork)];
      }
    }
  }
}
