/**
 * The query matcher of mod_bmx.c: bmx_check_constraints and the table
 * iterator it runs over the query's constraints.
 */
module Matcher {
  import opened Wrappers
  import opened AprTable
  import opened Bmx

  /**
   * What the C matcher dereferences: strcmp needs both domains, and the
   * iterator looks keys up in the candidate's table once the query has
   * a non-empty table for the same domain.
   */
  predicate CanMatch(q: Query, c: Objectname) {
    q.Named? ==>
      && q.name.domain.Some? && c.domain.Some?
      && (q.name.domain == c.domain && q.name.props.Some? && q.name.props.value != [] ==> c.props.Some?)
  }

  /** The candidate's table holds key e.0 with exactly the value e.1. */
  predicate Found(e: Entry, cand: Option<Table>) {
    cand.Some? && Get(cand.value, e.0) == Some(e.1)
  }

  /**
   * The matching rule: the wildcard matches everything; otherwise the
   * domains must be equal (the query domain "*" has no special meaning
   * here), and a present constraint table must be non-empty with every
   * entry found in the candidate.
   */
  predicate Matches(q: Query, c: Objectname) {
    match q
    case QueryAll => true
    case Named(n) =>
      && n.domain == c.domain
      && (n.props.None? ||
          (n.props.value != [] && forall i :: 0 <= i < |n.props.value| ==> Found(n.props.value[i], c.props)))
  }

  /**
   * bmx_check_constraints. `visits` counts the calls of the iterator, which
   * clears all_match and stops the walk at the first entry the candidate
   * does not carry.
   */
  method CheckConstraints(q: Query, c: Objectname) returns (r: bool, visits: nat)
    requires CanMatch(q, c)
    ensures r == Matches(q, c)
    ensures q.QueryAll? ==> r
    ensures q.Named? && q.name.domain != c.domain ==> !r
    ensures q.Named? && q.name.domain == c.domain && q.name.props.None? ==> r
    ensures q.Named? && q.name.props == Some([]) ==> !r
    ensures q.Named? && q.name.domain == c.domain && q.name.props.Some? && q.name.props.value != [] ==>
              var t := q.name.props.value;
              && 1 <= visits <= |t|
              && (forall j :: 0 <= j < visits - 1 ==> Found(t[j], c.props))
              && (visits < |t| ==> !Found(t[visits - 1], c.props))
              && (r <==> visits == |t| && Found(t[|t| - 1], c.props))
    ensures !(q.Named? && q.name.domain == c.domain && q.name.props.Some?) ==> visits == 0
  {
    visits := 0;
    if q.QueryAll? {
      return true, 0;
    }
    if q.name.domain != c.domain {
      return false, 0;
    }
    if q.name.props.None? {
      return true, 0;
    }
    var t := q.name.props.value;
    var allMatch := false;
    var walking := true;
    var i := 0;
    while i < |t| && walking
      invariant 0 <= i <= |t| && visits == i
      invariant walking ==> allMatch == (i > 0) && forall j :: 0 <= j < i ==> Found(t[j], c.props)
      invariant !walking ==> i > 0 && !allMatch && !Found(t[i - 1], c.props)
      invariant !walking ==> forall j :: 0 <= j < i - 1 ==> Found(t[j], c.props)
    {
      var beanpropValue := Get(c.props.value, t[i].0);
      if beanpropValue.Some? && beanpropValue.value == t[i].1 {
        allMatch := true;
      } else {
        allMatch := false;
        walking := false;
      }
      i := i + 1;
      visits := visits + 1;
    }
    r := allMatch;
  }

  /** An objectname a provider matches against: a domain and a present table. */
  predicate Matchable(on: Objectname) {
    on.domain.Some? && on.props.Some?
  }

  /** A query as the parser builds it: a named query always has a domain. */
  predicate Parsed(q: Query) {
    q.Named? ==> q.name.domain.Some?
  }

  /** bmx_check_constraints as the providers call it, on a provider's own objectname. */
  method Select(q: Query, on: Objectname) returns (r: bool)
    requires Parsed(q) && Matchable(on)
    ensures r == Matches(q, on)
  {
    var visits;
    r, visits := CheckConstraints(q, on);
  }

  /** Every entry of the map view of a constraint table is found in the candidate. */
  predicate MapFound(m: map<string, string>, cand: Option<Table>) {
    forall k :: k in m ==> Found((k, m[k]), cand)
  }

  /**
   * With a present table, a query matches exactly when its table is
   * non-empty and, read as a map, is contained in the candidate's table.
   */
  lemma MatchesIffSubset(n: Objectname, c: Objectname)
    requires n.props.Some? && DistinctKeys(n.props.value)
    requires n.domain == c.domain
    ensures Matches(Named(n), c) <==> n.props.value != [] && MapFound(ToMap(n.props.value), c.props)
  {
    var t := n.props.value;
    if forall i :: 0 <= i < |t| ==> Found(t[i], c.props) {
      AllFoundMapFound(t, c.props);
    }
    if MapFound(ToMap(t), c.props) {
      MapFoundAllFound(t, c.props);
    }
  }

  lemma AllFoundMapFound(t: Table, cand: Option<Table>)
    requires forall i :: 0 <= i < |t| ==> Found(t[i], cand)
    ensures MapFound(ToMap(t), cand)
  {
    var m := ToMap(t);
    forall k | k in m ensures Found((k, m[k]), cand) {
      var i := Find(t, k);
      assert t[i] == (k, m[k]);
    }
  }

  lemma MapFoundAllFound(t: Table, cand: Option<Table>)
    requires DistinctKeys(t)
    requires MapFound(ToMap(t), cand)
    ensures forall i :: 0 <= i < |t| ==> Found(t[i], cand)
  {
    var m := ToMap(t);
    forall i | 0 <= i < |t| ensures Found(t[i], cand) {
      GetAt(t, i);
      assert t[i] == (t[i].0, m[t[i].0]);
    }
  }

  /**
   * Setting a constraint that the candidate does not carry makes a
   * present query table fail to match.
   */
  lemma ConflictingConstraintFails(n: Objectname, c: Objectname, k: string, v: string)
    requires n.props.Some?
    requires !Found((k, v), c.props)
    ensures !Matches(Named(Objectname(n.domain, Some(Set(n.props.value, k, v)))), c)
  {
    var t := Set(n.props.value, k, v);
    var i := Find(t, k);
    assert t[i] == (k, v);
  }

  /** Two tables with the same map view select the same candidates. */
  lemma MatchIgnoresTableOrder(d: Option<string>, t1: Table, t2: Table, c: Objectname)
    requires DistinctKeys(t1) && DistinctKeys(t2) && ToMap(t1) == ToMap(t2)
    ensures Matches(Named(Objectname(d, Some(t1))), c) == Matches(Named(Objectname(d, Some(t2))), c)
  {
    if d == c.domain {
      MatchesIffSubset(Objectname(d, Some(t1)), c);
      MatchesIffSubset(Objectname(d, Some(t2)), c);
      assert t1 == [] <==> ToMap(t1) == map[] by {
        if t1 != [] { assert t1[0].0 in ToMap(t1); }
      }
      assert t2 == [] <==> ToMap(t2) == map[] by {
        if t2 != [] { assert t2[0].0 in ToMap(t2); }
      }
    }
  }
}
