/**
 * The incident list of src/pages/Index.tsx: the page state (the stored list,
 * the selected severity, the sort order), the derived view (filter, then a
 * stable sort by reported time) and the creation of a record from a draft.
 */
module Index {
  import opened Wrappers
  import opened IncidentTypes
  import MockData
  import NewIncidentForm

  /** The severity selector: "all" or one severity (the options the page offers). */
  datatype SeverityFilter = All | Only(severity: Severity)

  /** The filter callback of lines 16-18. */
  predicate Passes(f: SeverityFilter, x: Incident) {
    match f
    case All => true
    case Only(v) => x.severity == v
  }

  /** `Array.prototype.filter`: the passing records, in their original order. */
  function Filter(s: seq<Incident>, f: SeverityFilter): (r: seq<Incident>)
    ensures |r| <= |s|
    ensures forall x :: x in r ==> Passes(f, x)
    ensures f.All? ==> r == s
  {
    if s == [] then []
    else
      var tail := Filter(s[1..], f);
      if Passes(f, s[0]) then [s[0]] + tail else tail
  }

  /** Completeness: each passing record occurs in the result as often as in `s`, the others not at all. */
  lemma {:induction false} FilterCount(s: seq<Incident>, f: SeverityFilter, x: Incident)
    ensures multiset(Filter(s, f))[x] == if Passes(f, x) then multiset(s)[x] else 0
  {
    if s != [] {
      FilterCount(s[1..], f, x);
      assert s == [s[0]] + s[1..];
    }
  }

  lemma {:induction false} FilterAppend(a: seq<Incident>, b: seq<Incident>, f: SeverityFilter)
    ensures Filter(a + b, f) == Filter(a, f) + Filter(b, f)
  {
    if a == [] {
      assert a + b == b;
    } else {
      assert (a + b)[0] == a[0] && (a + b)[1..] == a[1..] + b;
      FilterAppend(a[1..], b, f);
    }
  }

  /** The comparator of lines 19-23 applied to the two instants. */
  function Compare(o: SortOrder, a: Incident, b: Incident): int {
    match o
    case Newest => b.reportedAt - a.reportedAt
    case Oldest => a.reportedAt - b.reportedAt
  }

  /** Every pair of elements is in an order the comparator accepts. */
  predicate Sorted(o: SortOrder, r: seq<Incident>) {
    forall i, j :: 0 <= i < j < |r| ==> Compare(o, r[i], r[j]) <= 0
  }

  /**
   * Inserts `x`, which came before every element of `r` in the original
   * list, in front of the first element it does not strictly follow.
   */
  function Insert(o: SortOrder, x: Incident, r: seq<Incident>): seq<Incident> {
    if r == [] then [x]
    else if Compare(o, x, r[0]) <= 0 then [x] + r
    else [r[0]] + Insert(o, x, r[1..])
  }

  lemma {:induction false} InsertMultiset(o: SortOrder, x: Incident, r: seq<Incident>)
    ensures multiset(Insert(o, x, r)) == multiset(r) + multiset{x}
  {
    if r != [] && Compare(o, x, r[0]) > 0 {
      InsertMultiset(o, x, r[1..]);
      assert r == [r[0]] + r[1..];
    }
  }

  /** Inserting into a sorted list keeps it sorted. */
  lemma {:induction false} InsertSorted(o: SortOrder, x: Incident, r: seq<Incident>)
    requires Sorted(o, r)
    ensures Sorted(o, Insert(o, x, r))
  {
    if r != [] && Compare(o, x, r[0]) > 0 {
      InsertSorted(o, x, r[1..]);
      InsertMultiset(o, x, r[1..]);
      HeadBeforeInsert(o, x, r, Insert(o, x, r[1..]));
    }
  }

  lemma HeadBeforeInsert(o: SortOrder, x: Incident, r: seq<Incident>, q': seq<Incident>)
    requires r != [] && Sorted(o, r) && Compare(o, x, r[0]) > 0
    requires Sorted(o, q') && multiset(q') == multiset(r[1..]) + multiset{x}
    ensures Sorted(o, [r[0]] + q')
  {
    var q := [r[0]] + q';
    forall i, j | 0 <= i < j < |q| ensures Compare(o, q[i], q[j]) <= 0 {
      if i == 0 {
        assert q[j] in multiset(q');
        if q[j] != x {
          assert q[j] in r[1..];
        }
      } else {
        assert q[i] == q'[i - 1] && q[j] == q'[j - 1];
      }
    }
  }

  /**
   * `Array.prototype.sort` with the comparator of lines 19-23. ECMA-262 (since
   * the 10th edition, section 22.1.3.27) requires the sort to be stable, and
   * a stable sort by a consistent comparator has exactly one result
   * (SortUnique), so this insertion sort yields the same list as any
   * conforming engine.
   */
  function SortByTime(o: SortOrder, s: seq<Incident>): seq<Incident> {
    if s == [] then [] else Insert(o, s[0], SortByTime(o, s[1..]))
  }

  /** The sort's result is a permutation of its input, ordered by the comparator. */
  lemma {:induction false} SortByTimeSorts(o: SortOrder, s: seq<Incident>)
    ensures Sorted(o, SortByTime(o, s))
    ensures multiset(SortByTime(o, s)) == multiset(s)
  {
    if s != [] {
      var r := SortByTime(o, s[1..]);
      SortByTimeSorts(o, s[1..]);
      InsertSorted(o, s[0], r);
      InsertMultiset(o, s[0], r);
      assert s == [s[0]] + s[1..];
    }
  }

  /** The records reported at instant `t`, in their order in `s`. */
  function AtTime(s: seq<Incident>, t: int): seq<Incident> {
    if s == [] then [] else (if s[0].reportedAt == t then [s[0]] else []) + AtTime(s[1..], t)
  }

  lemma {:induction false} AtTimeMembers(s: seq<Incident>, t: int, y: Incident)
    requires y in AtTime(s, t)
    ensures y in s && y.reportedAt == t
  {
    if s[0].reportedAt == t && y == s[0] {
    } else {
      AtTimeMembers(s[1..], t, y);
    }
  }

  lemma AtTimeCons(y: Incident, q: seq<Incident>, t: int)
    ensures AtTime([y] + q, t) == (if y.reportedAt == t then [y] else []) + AtTime(q, t)
  {
    assert ([y] + q)[0] == y && ([y] + q)[1..] == q;
  }

  lemma {:induction false} InsertAtTime(o: SortOrder, x: Incident, r: seq<Incident>, t: int)
    ensures AtTime(Insert(o, x, r), t) == (if x.reportedAt == t then [x] else []) + AtTime(r, t)
  {
    if r == [] {
      AtTimeCons(x, [], t);
      assert [x] + [] == [x];
    } else if Compare(o, x, r[0]) <= 0 {
      AtTimeCons(x, r, t);
    } else {
      InsertAtTime(o, x, r[1..], t);
      AtTimeCons(r[0], Insert(o, x, r[1..]), t);
      AtTimeCons(r[0], r[1..], t);
      assert [r[0]] + r[1..] == r;
    }
  }

  /** Stability: the records that tie on time keep their original order. */
  lemma {:induction false} SortStable(o: SortOrder, s: seq<Incident>, t: int)
    ensures AtTime(SortByTime(o, s), t) == AtTime(s, t)
  {
    if s != [] {
      SortStable(o, s[1..], t);
      InsertAtTime(o, s[0], SortByTime(o, s[1..]), t);
    }
  }

  /** The records at the head's instant begin with the head. */
  lemma AtTimeHead(s: seq<Incident>)
    requires s != []
    ensures AtTime(s, s[0].reportedAt) == [s[0]] + AtTime(s[1..], s[0].reportedAt)
  {
  }

  /** The first instant of a sorted list bounds every instant in it. */
  lemma FirstInstantBound(o: SortOrder, a: seq<Incident>, b: seq<Incident>)
    requires a != [] && b != [] && Sorted(o, b)
    requires AtTime(a, a[0].reportedAt) == AtTime(b, a[0].reportedAt)
    ensures Compare(o, b[0], a[0]) <= 0
  {
    var t := a[0].reportedAt;
    AtTimeHead(a);
    var y := AtTime(b, t)[0];
    AtTimeMembers(b, t, y);
    var k :| 0 <= k < |b| && b[k] == y;
    assert Compare(o, b[0], b[k]) <= 0 || k == 0;
  }

  /**
   * A sorted list is determined by its per-instant subsequences: two sorted
   * lists that agree on the records of every instant are equal.
   */
  lemma {:induction false} SortUnique(o: SortOrder, a: seq<Incident>, b: seq<Incident>)
    requires Sorted(o, a) && Sorted(o, b)
    requires forall t :: AtTime(a, t) == AtTime(b, t)
    ensures a == b
  {
    if a == [] || b == [] {
      if a != [] {
        AtTimeHead(a);
        assert false;
      } else if b != [] {
        AtTimeHead(b);
        assert false;
      }
    } else {
      FirstInstantBound(o, a, b);
      FirstInstantBound(o, b, a);
      var t0 := a[0].reportedAt;
      assert b[0].reportedAt == t0;
      AtTimeHead(a);
      AtTimeHead(b);
      assert a[0] == b[0] by {
        assert AtTime(a, t0)[0] == a[0];
        assert AtTime(b, t0)[0] == b[0];
      }
      forall t ensures AtTime(a[1..], t) == AtTime(b[1..], t) {
        assert AtTime(a, t) == AtTime(b, t);
        if t == t0 {
          assert AtTime(a[1..], t) == AtTime(a, t)[1..];
          assert AtTime(b[1..], t) == AtTime(b, t)[1..];
        } else {
          assert AtTime(a, t) == AtTime(a[1..], t);
          assert AtTime(b, t) == AtTime(b[1..], t);
        }
      }
      SortUnique(o, a[1..], b[1..]);
      assert a == [a[0]] + a[1..] && b == [b[0]] + b[1..];
    }
  }

  /** Sorting a sorted list changes nothing. */
  lemma SortIdempotent(o: SortOrder, s: seq<Incident>)
    ensures SortByTime(o, SortByTime(o, s)) == SortByTime(o, s)
  {
    var r := SortByTime(o, s);
    SortByTimeSorts(o, s);
    SortByTimeSorts(o, r);
    forall t ensures AtTime(SortByTime(o, r), t) == AtTime(r, t) {
      SortStable(o, r, t);
    }
    SortUnique(o, SortByTime(o, r), r);
  }

  lemma {:induction false} AtTimeFilter(s: seq<Incident>, f: SeverityFilter, t: int)
    ensures AtTime(Filter(s, f), t) == Filter(AtTime(s, t), f)
  {
    if s != [] {
      AtTimeFilter(s[1..], f, t);
      var head := if s[0].reportedAt == t then [s[0]] else [];
      FilterAppend(head, AtTime(s[1..], t), f);
      if Passes(f, s[0]) {
        assert ([s[0]] + Filter(s[1..], f))[1..] == Filter(s[1..], f);
      }
    }
  }

  /** `filteredAndSortedIncidents` (lines 15-23). */
  function View(s: seq<Incident>, f: SeverityFilter, o: SortOrder): seq<Incident> {
    SortByTime(o, Filter(s, f))
  }

  /**
   * The view shows exactly the records that pass the filter, each as often
   * as it is stored, and with "all" it shows every stored record.
   */
  lemma ViewContents(s: seq<Incident>, f: SeverityFilter, o: SortOrder)
    ensures forall x :: x in View(s, f, o) ==> x in s && Passes(f, x)
    ensures forall x :: multiset(View(s, f, o))[x] == if Passes(f, x) then multiset(s)[x] else 0
    ensures f.All? ==> |View(s, f, o)| == |s|
  {
    var r := View(s, f, o);
    SortByTimeSorts(o, Filter(s, f));
    forall x ensures multiset(r)[x] == if Passes(f, x) then multiset(s)[x] else 0 {
      FilterCount(s, f, x);
    }
    forall x | x in r ensures x in s && Passes(f, x) {
      assert x in multiset(Filter(s, f));
      assert x in multiset(s);
    }
    assert |r| == |multiset(r)|;
  }

  /** The view is ordered by the selected order: newest first or oldest first. */
  lemma ViewSorted(s: seq<Incident>, f: SeverityFilter, o: SortOrder)
    ensures Sorted(o, View(s, f, o))
    ensures forall i :: 0 < i < |View(s, f, o)| ==>
              if o == Newest then View(s, f, o)[i - 1].reportedAt >= View(s, f, o)[i].reportedAt
              else View(s, f, o)[i - 1].reportedAt <= View(s, f, o)[i].reportedAt
  {
    var r := View(s, f, o);
    SortByTimeSorts(o, Filter(s, f));
    assert forall i :: 0 < i < |r| ==> Compare(o, r[i - 1], r[i]) <= 0;
  }

  /** The view keeps, within each instant, the order of the stored list. */
  lemma ViewStable(s: seq<Incident>, f: SeverityFilter, o: SortOrder, t: int)
    ensures AtTime(View(s, f, o), t) == Filter(AtTime(s, t), f)
  {
    SortStable(o, Filter(s, f), t);
    AtTimeFilter(s, f, t);
  }

  /**
   * The view is the one list that the page's contract describes: sorted by
   * the comparator, and within each instant exactly the passing records in
   * stored order.
   */
  lemma ViewIsUnique(s: seq<Incident>, f: SeverityFilter, o: SortOrder, r: seq<Incident>)
    requires Sorted(o, r)
    requires forall t :: AtTime(r, t) == Filter(AtTime(s, t), f)
    ensures r == View(s, f, o)
  {
    forall t ensures AtTime(r, t) == AtTime(View(s, f, o), t) {
      ViewStable(s, f, o, t);
    }
    ViewSorted(s, f, o);
    SortUnique(o, r, View(s, f, o));
  }

  /** `Math.max(...ids)` on a non-empty list. */
  function MaxId(s: seq<Incident>): (m: int)
    requires s != []
    ensures forall i :: 0 <= i < |s| ==> s[i].id <= m
    ensures exists i :: 0 <= i < |s| && s[i].id == m
  {
    if |s| == 1 then s[0].id
    else
      var m := MaxId(s[1..]);
      assert exists i :: 1 <= i < |s| && s[i].id == m by {
        var k :| 0 <= k < |s[1..]| && s[1..][k].id == m;
        assert s[k + 1].id == m;
      }
      if s[0].id > m then s[0].id else m
  }

  /** The id of line 28: one more than the largest id in the list. */
  function NextId(s: seq<Incident>): (r: int)
    requires s != []
    ensures forall x :: x in s ==> x.id < r
    ensures exists x :: x in s && x.id == r - 1
  {
    MaxId(s) + 1
  }

  ghost predicate DistinctIds(s: seq<Incident>) {
    forall i, j :: 0 <= i < j < |s| ==> s[i].id != s[j].id
  }

  /** Prepending a record with the next id keeps the ids distinct. */
  lemma AddKeepsIdsDistinct(s: seq<Incident>, d: Draft)
    requires s != [] && DistinctIds(s)
    ensures DistinctIds([WithId(d, NextId(s))] + s)
  {
    var s' := [WithId(d, NextId(s))] + s;
    forall i, j | 0 <= i < j < |s'| ensures s'[i].id != s'[j].id {
      if i == 0 {
        assert s'[j] in s;
      } else {
        assert s'[i] == s[i - 1] && s'[j] == s[j - 1];
      }
    }
  }

  lemma InsertFront(o: SortOrder, x: Incident, r: seq<Incident>)
    requires r == [] || Compare(o, x, r[0]) <= 0
    ensures Insert(o, x, r) == [x] + r
  {
  }

  lemma InsertPast(o: SortOrder, x: Incident, r: seq<Incident>)
    requires r != [] && Compare(o, x, r[0]) > 0
    ensures Insert(o, x, r) == [r[0]] + Insert(o, x, r[1..])
  {
  }

  lemma SortCons(o: SortOrder, x: Incident, s: seq<Incident>)
    ensures SortByTime(o, [x] + s) == Insert(o, x, SortByTime(o, s))
  {
    assert ([x] + s)[1..] == s;
  }

  /** Five records whose instants are in the seed's order, sorted increasingly. */
  lemma OldestOfFive(a: Incident, b: Incident, c: Incident, d: Incident, e: Incident)
    requires a.reportedAt < c.reportedAt < e.reportedAt < b.reportedAt < d.reportedAt
    ensures SortByTime(Oldest, [a, b, c, d, e]) == [a, c, e, b, d]
  {
    var o := Oldest;
    SortCons(o, e, []);
    InsertFront(o, e, []);
    SortCons(o, d, [e]);
    InsertPast(o, d, [e]);
    InsertFront(o, d, []);
    SortCons(o, c, [d, e]);
    InsertFront(o, c, [e, d]);
    SortCons(o, b, [c, d, e]);
    InsertPast(o, b, [c, e, d]);
    assert [c, e, d][1..] == [e, d];
    InsertPast(o, b, [e, d]);
    assert [e, d][1..] == [d];
    InsertFront(o, b, [d]);
    SortCons(o, a, [b, c, d, e]);
    InsertFront(o, a, [c, e, b, d]);
    assert [a, b, c, d, e] == [a] + [b, c, d, e];
  }

  /** The same five records, sorted decreasingly. */
  lemma NewestOfFive(a: Incident, b: Incident, c: Incident, d: Incident, e: Incident)
    requires a.reportedAt < c.reportedAt < e.reportedAt < b.reportedAt < d.reportedAt
    ensures SortByTime(Newest, [a, b, c, d, e]) == [d, b, e, c, a]
  {
    var o := Newest;
    SortCons(o, e, []);
    InsertFront(o, e, []);
    SortCons(o, d, [e]);
    InsertFront(o, d, [e]);
    SortCons(o, c, [d, e]);
    InsertPast(o, c, [d, e]);
    assert [d, e][1..] == [e];
    InsertPast(o, c, [e]);
    assert [e][1..] == [];
    InsertFront(o, c, []);
    assert SortByTime(o, [c, d, e]) == [d, e, c];
    SortCons(o, b, [c, d, e]);
    InsertPast(o, b, [d, e, c]);
    assert [d, e, c][1..] == [e, c];
    InsertFront(o, b, [e, c]);
    assert SortByTime(o, [b, c, d, e]) == [d, b, e, c];
    SortCons(o, a, [b, c, d, e]);
    InsertPast(o, a, [d, b, e, c]);
    assert [d, b, e, c][1..] == [b, e, c];
    InsertPast(o, a, [b, e, c]);
    assert [b, e, c][1..] == [e, c];
    InsertPast(o, a, [e, c]);
    assert [e, c][1..] == [c];
    InsertPast(o, a, [c]);
    assert [c][1..] == [];
    InsertFront(o, a, []);
    assert [a, b, c, d, e] == [a] + [b, c, d, e];
  }

  lemma SeedAsFive()
    ensures var m := MockData.MockIncidents; m == [m[0], m[1], m[2], m[3], m[4]]
  {
    MockData.SeedShape();
  }

  /** The page's three views of five records whose instants and severities are those of the seed. */
  lemma ViewsOfFive(a: Incident, b: Incident, c: Incident, d: Incident, e: Incident)
    requires a.reportedAt < c.reportedAt < e.reportedAt < b.reportedAt < d.reportedAt
    requires a.severity == Medium && b.severity == High && c.severity == Low
    requires d.severity == High && e.severity == Low
    ensures View([a, b, c, d, e], All, Oldest) == [a, c, e, b, d]
    ensures View([a, b, c, d, e], All, Newest) == [d, b, e, c, a]
    ensures View([a, b, c, d, e], Only(High), Newest) == [d, b]
  {
    OldestOfFive(a, b, c, d, e);
    NewestOfFive(a, b, c, d, e);
    assert [a, b, c, d, e][1..] == [b, c, d, e] && [b, c, d, e][1..] == [c, d, e];
    assert [c, d, e][1..] == [d, e] && [d, e][1..] == [e] && [e][1..] == [];
    var h := Only(High);
    assert Filter([e], h) == [];
    assert Filter([d, e], h) == [d];
    assert Filter([c, d, e], h) == [d];
    assert Filter([b, c, d, e], h) == [b, d];
    assert Filter([a, b, c, d, e], h) == [b, d];
    SortCons(Newest, b, [d]);
    SortCons(Newest, d, []);
    InsertFront(Newest, d, []);
    InsertFront(Newest, b, []);
    InsertPast(Newest, b, [d]);
    assert [d][1..] == [];
  }

  lemma SeedViewRecords()
    ensures var m := MockData.MockIncidents;
      && View(m, All, Oldest) == [m[0], m[2], m[4], m[1], m[3]]
      && View(m, All, Newest) == [m[3], m[1], m[4], m[2], m[0]]
      && View(m, Only(High), Newest) == [m[3], m[1]]
  {
    var m := MockData.MockIncidents;
    MockData.SeedShape();
    SeedAsFive();
    ViewsOfFive(m[0], m[1], m[2], m[3], m[4]);
  }

  lemma SeedReorderedIds()
    ensures var m := MockData.MockIncidents;
      && MockData.Ids([m[3], m[1]]) == [4, 2]
      && MockData.Ids([m[0], m[2], m[4], m[1], m[3]]) == [1, 3, 5, 2, 4]
      && MockData.Ids([m[3], m[1], m[4], m[2], m[0]]) == [4, 2, 5, 3, 1]
  {
    MockData.SeedShape();
  }

  /** The seed's High records, newest first, are ids 4 and 2. */
  lemma SeedHighNewest()
    ensures MockData.Ids(View(MockData.MockIncidents, Only(High), Newest)) == [4, 2]
  {
    SeedViewRecords();
    SeedReorderedIds();
  }

  /** The whole seed list, oldest first, is ids 1, 3, 5, 2, 4. */
  lemma SeedOldest()
    ensures MockData.Ids(View(MockData.MockIncidents, All, Oldest)) == [1, 3, 5, 2, 4]
  {
    SeedViewRecords();
    SeedReorderedIds();
  }

  /** The whole seed list, newest first, is ids 4, 2, 5, 3, 1. */
  lemma SeedNewest()
    ensures MockData.Ids(View(MockData.MockIncidents, All, Newest)) == [4, 2, 5, 3, 1]
  {
    SeedViewRecords();
    SeedReorderedIds();
  }

  /** The first record created on top of the seed list gets id 6. */
  lemma SeedNextId()
    ensures NextId(MockData.MockIncidents) == 6
  {
  }

  /** The page component's state. */
  class Dashboard {
    var incidents: seq<Incident>
    var selectedSeverity: SeverityFilter
    var sortOrder: SortOrder

    /** The list is never empty (it starts from the seed and only grows) and its ids are distinct. */
    ghost predicate Valid()
      reads this
    {
      incidents != [] && DistinctIds(incidents)
    }

    /** The initial state of lines 11-13. */
    constructor ()
      ensures Valid()
      ensures incidents == MockData.MockIncidents
      ensures selectedSeverity == All && sortOrder == Newest
    {
      incidents := MockData.MockIncidents;
      selectedSeverity := All;
      sortOrder := Newest;
      new;
      MockData.SeedShape();
    }

    /** What the page renders; a function of the state, so computing it changes nothing. */
    function Displayed(): (r: seq<Incident>)
      reads this
      ensures forall x :: x in r ==> x in incidents && Passes(selectedSeverity, x)
      ensures Sorted(sortOrder, r)
    {
      ViewContents(incidents, selectedSeverity, sortOrder);
      ViewSorted(incidents, selectedSeverity, sortOrder);
      View(incidents, selectedSeverity, sortOrder)
    }

    /** `setSelectedSeverity`. */
    method SetSeverity(f: SeverityFilter)
      requires Valid()
      modifies this
      ensures Valid()
      ensures selectedSeverity == f
      ensures incidents == old(incidents) && sortOrder == old(sortOrder)
    {
      selectedSeverity := f;
    }

    /** `setSortOrder`. */
    method SetSortOrder(o: SortOrder)
      requires Valid()
      modifies this
      ensures Valid()
      ensures sortOrder == o
      ensures incidents == old(incidents) && selectedSeverity == old(selectedSeverity)
    {
      sortOrder := o;
    }

    /** `handleNewIncident` (lines 25-31): assign the next id and prepend. */
    method AddIncident(d: Draft)
      requires Valid()
      modifies this
      ensures Valid()
      ensures incidents == [WithId(d, NextId(old(incidents)))] + old(incidents)
      ensures |incidents| == |old(incidents)| + 1
      ensures forall x :: x in old(incidents) ==> x.id < incidents[0].id
      ensures selectedSeverity == old(selectedSeverity) && sortOrder == old(sortOrder)
    {
      AddKeepsIdsDistinct(incidents, d);
      var incident := WithId(d, MaxId(incidents) + 1);
      incidents := [incident] + incidents;
    }

    /**
     * A submission of the creation form, whose `onSubmit` is
     * `handleNewIncident` (line 59): a rejected submission leaves the list
     * as it was; an accepted one adds the form's draft on top.
     */
    method SubmitForm(form: NewIncidentForm.Form, now: int)
      requires Valid()
      modifies this, form
      ensures Valid()
      ensures NewIncidentForm.Rejects(old(form.title), old(form.description)) ==>
                incidents == old(incidents) &&
                form.title == old(form.title) && form.description == old(form.description) &&
                form.severity == old(form.severity)
      ensures !NewIncidentForm.Rejects(old(form.title), old(form.description)) ==>
                var d := Draft(old(form.title), old(form.description), old(form.severity), now,
                               None, None, None, None, None, None);
                incidents == [WithId(d, NextId(old(incidents)))] + old(incidents) &&
                form.title == "" && form.description == "" && form.severity == Low
      ensures selectedSeverity == old(selectedSeverity) && sortOrder == old(sortOrder)
    {
      var submitted := form.HandleSubmit(now);
      if submitted.Some? {
        AddIncident(submitted.value);
      }
    }
  }
}
