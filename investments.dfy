/** The investment event record both chart pipelines read, and the list of
    distinct project names (`[...new Set(investments.map(inv => inv.project))]`). */
module Investments {
  import opened Calendar

  datatype Option<T> = None | Some(value: T)

  /** One funding event. `date` stands for the event's `YYYY-MM-DD` string. */
  datatype Investment = Investment(date: Date, amount: real, round: string, project: string)

  /** `investments.map(inv => inv.date)` */
  function DatesOf(investments: seq<Investment>): (r: seq<Date>)
    ensures |r| == |investments|
    ensures forall i :: 0 <= i < |r| ==> r[i] == investments[i].date
  {
    seq(|investments|, i requires 0 <= i < |investments| => investments[i].date)
  }

  /** Every event date is a valid calendar date in the form the grid uses. */
  predicate DatesValid(investments: seq<Investment>) {
    forall k :: 0 <= k < |investments| ==> Valid(investments[k].date)
  }

  /** `investments.map(inv => inv.project)` */
  function Projects(investments: seq<Investment>): (r: seq<string>)
    ensures |r| == |investments|
    ensures forall i :: 0 <= i < |r| ==> r[i] == investments[i].project
  {
    seq(|investments|, i requires 0 <= i < |investments| => investments[i].project)
  }

  /** Index of the first occurrence of `x` in `s`. */
  function FirstIndex<T(==)>(s: seq<T>, x: T): (k: nat)
    requires x in s
    ensures k < |s| && s[k] == x
    ensures forall j :: 0 <= j < k ==> s[j] != x
  {
    if s[0] == x then 0 else 1 + FirstIndex(s[1..], x)
  }

  predicate NoDuplicates<T(==)>(s: seq<T>) {
    forall i, j :: 0 <= i < j < |s| ==> s[i] != s[j]
  }

  /** `[...new Set(s)]`: the elements of `s`, each once, in the order in which
      they first occur (the order is DistinctOrder). */
  function Distinct(s: seq<string>): (r: seq<string>)
    ensures forall x :: x in r <==> x in s
    ensures NoDuplicates(r)
  {
    if s == [] then []
    else
      var init := s[..|s| - 1];
      var x := s[|s| - 1];
      assert s == init + [x];
      if x in Distinct(init) then Distinct(init) else Distinct(init) + [x]
  }

  /** Distinct keeps first occurrences in order. */
  lemma {:induction false} DistinctOrder(s: seq<string>)
    ensures forall i, j :: 0 <= i < j < |Distinct(s)| ==> FirstIndex(s, Distinct(s)[i]) < FirstIndex(s, Distinct(s)[j])
  {
    if s != [] {
      var init := s[..|s| - 1];
      var x := s[|s| - 1];
      assert s == init + [x];
      DistinctOrder(init);
      var d := Distinct(init);
      forall y | y in init ensures FirstIndex(s, y) == FirstIndex(init, y) {
        FirstIndexPrefix(init, x, y);
      }
      if x !in init {
        FirstIndexAppendNew(init, x);
        var r := d + [x];
        assert Distinct(s) == r;
        forall i, j | 0 <= i < j < |r| ensures FirstIndex(s, r[i]) < FirstIndex(s, r[j]) {
          assert r[i] == d[i] && d[i] in d;
          if j < |d| {
            assert r[j] == d[j] && d[j] in d;
          } else {
            assert r[j] == x;
            assert FirstIndex(init, r[i]) < |init|;
          }
        }
      } else {
        assert Distinct(s) == d;
        forall i, j | 0 <= i < j < |d| ensures FirstIndex(s, d[i]) < FirstIndex(s, d[j]) {
          assert d[i] in d && d[j] in d;
        }
      }
    }
  }

  lemma {:induction false} FirstIndexPrefix<T>(init: seq<T>, x: T, y: T)
    requires y in init
    ensures FirstIndex(init + [x], y) == FirstIndex(init, y)
  {
    if init[0] != y {
      assert (init + [x])[1..] == init[1..] + [x];
      FirstIndexPrefix(init[1..], x, y);
    }
  }

  lemma {:induction false} FirstIndexAppendNew<T>(init: seq<T>, x: T)
    requires x !in init
    ensures FirstIndex(init + [x], x) == |init|
  {
    if init != [] {
      assert (init + [x])[1..] == init[1..] + [x];
      FirstIndexAppendNew(init[1..], x);
    }
  }

  /** `uniqueProjects`: every project that occurs in the events, exactly once,
      in first-occurrence order. */
  function UniqueProjects(investments: seq<Investment>): (r: seq<string>)
    ensures forall p :: p in r <==> p in Projects(investments)
    ensures forall p :: p in r <==> exists i :: 0 <= i < |investments| && investments[i].project == p
    ensures NoDuplicates(r)
    ensures forall i, j :: 0 <= i < j < |r| ==>
      FirstIndex(Projects(investments), r[i]) < FirstIndex(Projects(investments), r[j])
    ensures investments == [] ==> r == []
  {
    var ps := Projects(investments);
    DistinctOrder(ps);
    var r := Distinct(ps);
    assert forall p :: p in ps <==> exists i :: 0 <= i < |investments| && investments[i].project == p by {
      forall p ensures p in ps <==> exists i :: 0 <= i < |investments| && investments[i].project == p {
        if p in ps {
          var i :| 0 <= i < |ps| && ps[i] == p;
          assert investments[i].project == p;
        }
      }
    }
    r
  }
}
