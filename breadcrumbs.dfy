/** `useBreadcrumbs`: the trail of the current route's matches that declare
    a breadcrumb. A route's `handle` is an arbitrary JavaScript value. */
module Breadcrumbs {
  import opened Js

  datatype RouteMatch = RouteMatch(pathname: string, handle: JsValue)

  /** One trail entry: the match's path and its breadcrumb text. */
  datatype Crumb = Crumb(path: string, caption: string)

  /** The filter: a truthy handle whose `breadcrumb` is a string (the empty
      string included). */
  predicate HasBreadcrumb(m: RouteMatch)
    ensures HasBreadcrumb(m) ==> m.handle.Object?
  {
    Truthy(m.handle) && Get(m.handle, "breadcrumb").Str?
  }

  /** The map, on a match that passed the filter. */
  function ToCrumb(m: RouteMatch): (r: Crumb)
    requires HasBreadcrumb(m)
    ensures r.path == m.pathname && Get(m.handle, "breadcrumb") == Str(r.caption)
  {
    Crumb(m.pathname, Get(m.handle, "breadcrumb").s)
  }

  /** The filter/map over the matches, in match order. */
  function Trail(matches: seq<RouteMatch>): (r: seq<Crumb>)
    ensures |r| <= |matches|
  {
    if matches == [] then []
    else if HasBreadcrumb(matches[0]) then [ToCrumb(matches[0])] + Trail(matches[1..])
    else Trail(matches[1..])
  }

  /** The trail of consecutive match lists is the concatenation of their
      trails: order follows match order. */
  lemma {:induction false} TrailAppend(a: seq<RouteMatch>, b: seq<RouteMatch>)
    ensures Trail(a + b) == Trail(a) + Trail(b)
    decreases |a|
  {
    if a == [] {
      assert a + b == b;
    } else {
      assert (a + b)[0] == a[0] && (a + b)[1..] == a[1..] + b;
      TrailAppend(a[1..], b);
    }
  }

  /** Every qualifying match contributes its crumb. */
  lemma {:induction false} QualifyingMatchesAppear(matches: seq<RouteMatch>, i: int)
    requires 0 <= i < |matches| && HasBreadcrumb(matches[i])
    ensures ToCrumb(matches[i]) in Trail(matches)
    decreases |matches|
  {
    if i > 0 {
      QualifyingMatchesAppear(matches[1..], i - 1);
      assert matches[1..][i - 1] == matches[i];
    }
  }

  /** Every crumb comes from a qualifying match, with that match's path and
      breadcrumb text. */
  lemma {:induction false} CrumbsComeFromQualifyingMatches(matches: seq<RouteMatch>, c: Crumb)
    requires c in Trail(matches)
    ensures exists i :: 0 <= i < |matches| && HasBreadcrumb(matches[i]) && ToCrumb(matches[i]) == c
    decreases |matches|
  {
    if HasBreadcrumb(matches[0]) && c == ToCrumb(matches[0]) {
      assert HasBreadcrumb(matches[0]) && ToCrumb(matches[0]) == c;
    } else {
      CrumbsComeFromQualifyingMatches(matches[1..], c);
      var i :| 0 <= i < |matches[1..]| && HasBreadcrumb(matches[1..][i]) && ToCrumb(matches[1..][i]) == c;
      assert matches[i + 1] == matches[1..][i];
    }
  }

  /** A match without a string breadcrumb (no handle, a falsy handle, a
      missing or non-string `breadcrumb`) adds nothing wherever it sits. */
  lemma SkippedMatchAddsNothing(before: seq<RouteMatch>, m: RouteMatch, after: seq<RouteMatch>)
    requires !HasBreadcrumb(m)
    ensures Trail(before + [m] + after) == Trail(before) + Trail(after)
  {
    TrailAppend(before + [m], after);
    TrailAppend(before, [m]);
    assert [m][1..] == [];
  }
}
