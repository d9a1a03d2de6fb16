/**
 * Label-keyed metric vectors as values: a counter vector is a map from label set to
 * count, a histogram vector a map from label set to the durations observed, in order.
 * A series that was never touched reads as zero (or as no observations).
 */
module MetricVec {

  /** The operation phase label. */
  datatype Phase = QueryStart | QueryEnd | BatchStart | BatchQuery | BatchEnd {
    function Text(): string {
      match this
      case QueryStart => "query_start"
      case QueryEnd => "query_end"
      case BatchStart => "batch_start"
      case BatchQuery => "batch_query"
      case BatchEnd => "batch_end"
    }
  }

  /** Different phases label different series: their label values are distinct. */
  lemma PhaseTextInjective(p: Phase, q: Phase)
    ensures p.Text() == q.Text() <==> p == q
  {
  }

  /** The value of one counter series. */
  function Count<L(==)>(c: map<L, nat>, l: L): nat {
    if l in c then c[l] else 0
  }

  /** `With(l).Inc()`: creates the series if needed and adds one to it. */
  function Inc<L(==,!new)>(c: map<L, nat>, l: L): (r: map<L, nat>)
    ensures Count(r, l) == Count(c, l) + 1
  {
    c[l := Count(c, l) + 1]
  }

  /** One `Inc` per element of `ls`, in order. */
  function IncEach<L(==,!new)>(c: map<L, nat>, ls: seq<L>): map<L, nat>
    decreases |ls|
  {
    if ls == [] then c else Inc(IncEach(c, ls[..|ls| - 1]), ls[|ls| - 1])
  }

  /** `IncEach` over one more label set is one more `Inc`. */
  lemma IncEachSnoc<L(!new)>(c: map<L, nat>, ls: seq<L>, l: L)
    ensures IncEach(c, ls + [l]) == Inc(IncEach(c, ls), l)
  {
  }

  /** Each series goes up by the number of times its labels occur in `ls`. */
  lemma {:induction false} IncEachCount<L(!new)>(c: map<L, nat>, ls: seq<L>, l: L)
    ensures Count(IncEach(c, ls), l) == Count(c, l) + multiset(ls)[l]
    decreases |ls|
  {
    if ls != [] {
      var init, last := ls[..|ls| - 1], ls[|ls| - 1];
      IncEachCount(c, init, l);
      assert ls == init + [last];
    }
  }

  /** The sum of all series of a counter vector. */
  ghost function Total<L>(c: map<L, nat>): nat
    decreases |c|
  {
    if c == map[] then 0
    else
      var l :| l in c;
      assert |c.Keys - {l}| == |c.Keys| - 1;
      c[l] + Total(c - {l})
  }

  /** The total splits off any one series. */
  lemma {:induction false} TotalSplit<L>(c: map<L, nat>, k: L)
    requires k in c
    ensures Total(c) == c[k] + Total(c - {k})
    decreases |c|
  {
    var l :| l in c && Total(c) == c[l] + Total(c - {l});
    if l != k {
      assert |c.Keys - {l}| == |c.Keys| - 1;
      assert |c.Keys - {k}| == |c.Keys| - 1;
      TotalSplit(c - {l}, k);
      TotalSplit(c - {k}, l);
      assert c - {l} - {k} == c - {k} - {l};
    }
  }

  /** One `Inc` adds exactly one to the total. */
  lemma IncTotal<L(!new)>(c: map<L, nat>, l: L)
    ensures Total(Inc(c, l)) == Total(c) + 1
  {
    var r := Inc(c, l);
    TotalSplit(r, l);
    assert r - {l} == c - {l};
    if l in c {
      TotalSplit(c, l);
    } else {
      assert c - {l} == c;
    }
  }

  /** `IncEach` adds the length of `ls` to the total. */
  lemma {:induction false} IncEachTotal<L(!new)>(c: map<L, nat>, ls: seq<L>)
    ensures Total(IncEach(c, ls)) == Total(c) + |ls|
    decreases |ls|
  {
    if ls != [] {
      IncEachTotal(c, ls[..|ls| - 1]);
      IncTotal(IncEach(c, ls[..|ls| - 1]), ls[|ls| - 1]);
    }
  }

  /** The observations of one histogram series, oldest first. */
  function Observations<L(==)>(h: map<L, seq<int>>, l: L): seq<int> {
    if l in h then h[l] else []
  }

  /** `With(l).Observe(d)`: appends one observation to series `l`. */
  function Observe<L(==,!new)>(h: map<L, seq<int>>, l: L, d: int): (r: map<L, seq<int>>)
    ensures Observations(r, l) == Observations(h, l) + [d]
  {
    h[l := Observations(h, l) + [d]]
  }

  /** One `Observe` of the same value `d` per element of `ls`, in order. */
  function ObserveEach<L(==,!new)>(h: map<L, seq<int>>, ls: seq<L>, d: int): map<L, seq<int>>
    decreases |ls|
  {
    if ls == [] then h else Observe(ObserveEach(h, ls[..|ls| - 1], d), ls[|ls| - 1], d)
  }

  /** `ObserveEach` over one more label set is one more `Observe`. */
  lemma ObserveEachSnoc<L(!new)>(h: map<L, seq<int>>, ls: seq<L>, d: int, l: L)
    ensures ObserveEach(h, ls + [l], d) == Observe(ObserveEach(h, ls, d), l, d)
  {
  }

  /** `n` copies of `d`. */
  function Repeat(d: int, n: nat): (r: seq<int>)
    ensures |r| == n && forall i :: 0 <= i < n ==> r[i] == d
  {
    if n == 0 then [] else Repeat(d, n - 1) + [d]
  }

  /** Each series receives `d` once per occurrence of its labels in `ls`, and nothing else. */
  lemma {:induction false} ObserveEachObservations<L(!new)>(h: map<L, seq<int>>, ls: seq<L>, d: int, l: L)
    ensures Observations(ObserveEach(h, ls, d), l) == Observations(h, l) + Repeat(d, multiset(ls)[l])
    decreases |ls|
  {
    if ls != [] {
      var init, last := ls[..|ls| - 1], ls[|ls| - 1];
      ObserveEachObservations(h, init, d, l);
      assert ls == init + [last];
      var n := multiset(init)[l];
      if l == last {
        assert multiset(ls)[l] == n + 1;
        assert Repeat(d, n + 1) == Repeat(d, n) + [d];
      } else {
        assert multiset(ls)[l] == n;
      }
    }
  }

  /** The three vectors of a request tracer: requests, request errors and request durations. */
  datatype Vectors<L> = Vectors(requestTotal: map<L, nat>, errorsTotal: map<L, nat>, duration: map<L, seq<int>>)

  /**
   * The batch-end update once the batch record is found: for each label set of `ls`, one
   * error iff `err` and one observation of the elapsed time `d`.
   */
  function EndEach<L(==,!new)>(m: Vectors<L>, ls: seq<L>, err: bool, d: int): Vectors<L> {
    m.(errorsTotal := if err then IncEach(m.errorsTotal, ls) else m.errorsTotal,
       duration := ObserveEach(m.duration, ls, d))
  }

  /** `EndEach` over one more label set. */
  lemma EndEachSnoc<L(!new)>(m: Vectors<L>, ls: seq<L>, err: bool, d: int, l: L)
    ensures var e := EndEach(m, ls, err, d);
      EndEach(m, ls + [l], err, d)
      == e.(errorsTotal := if err then Inc(e.errorsTotal, l) else e.errorsTotal, duration := Observe(e.duration, l, d))
  {
  }

  /**
   * A batch end that found a record of N queued queries counts one error per query iff
   * `err` and observes the same elapsed time once per query, each at the query's own
   * labels; requests are untouched.
   */
  lemma EndEachEffect<L(!new)>(m: Vectors<L>, ls: seq<L>, err: bool, d: int, l: L)
    ensures var r := EndEach(m, ls, err, d);
      && r.requestTotal == m.requestTotal
      && Count(r.errorsTotal, l) == Count(m.errorsTotal, l) + (if err then multiset(ls)[l] else 0)
      && Total(r.errorsTotal) == Total(m.errorsTotal) + (if err then |ls| else 0)
      && Observations(r.duration, l) == Observations(m.duration, l) + Repeat(d, multiset(ls)[l])
  {
    IncEachCount(m.errorsTotal, ls, l);
    IncEachTotal(m.errorsTotal, ls);
    ObserveEachObservations(m.duration, ls, d, l);
  }
}
