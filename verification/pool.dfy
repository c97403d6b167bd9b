/** One pool of shared informers and its start-once bookkeeping.

The factory keeps two pools, the general one and the core one, and treats
both the same way: a map from a kind key to the informer registered for
it, a parallel map of "started" flags in which a missing key reads as
false, and here also the log of every `Run` launch made for the pool so
far. Launching `informer.Run` in a goroutine is recorded as one entry of
that log; the informer itself is opaque.
 */
module InformerPool {

  /** A pool. `K` stands for the reflected type that keys the source's
      maps; `I` for the SharedIndexInformer. `runs` counts, per kind, the
      `Run` launches made so far (map iteration order is unspecified, so
      the log is a multiset, not a sequence). */
  datatype Pool<K(!new), I> = Pool(informers: map<K, I>, started: map<K, bool>, runs: multiset<K>)

  /** The empty pool: nothing registered, nothing started, nothing run. */
  function Empty<K(!new), I>(): (p: Pool<K, I>)
    ensures forall k :: k !in p.informers && !IsStarted(p, k) && p.runs[k] == 0
  {
    Pool(map[], map[], multiset{})
  }

  /** The value of `started[k]` in Go: a missing key reads as false. */
  predicate IsStarted<K(!new), I>(p: Pool<K, I>, k: K)
  {
    k in p.started && p.started[k]
  }

  /** The registered kinds whose started flag is false. */
  function Unstarted<K(!new), I>(p: Pool<K, I>): set<K>
  {
    set k | k in p.informers && !IsStarted(p, k)
  }

  /** The informers one start of the pool launches, by kind: exactly the
      registered kinds not yet started, each with its own registered
      informer; and these are exactly the kinds the start adds to the
      pool's launch log, once each. */
  function Launches<K(!new), I>(p: Pool<K, I>): (l: map<K, I>)
    ensures forall k :: k in l <==> k in p.informers && !IsStarted(p, k)
    ensures forall k :: k in l ==> k in p.informers && l[k] == p.informers[k]
    ensures StartPool(p).runs == p.runs + multiset(l.Keys)
  {
    var l := map k | k in Unstarted(p) :: p.informers[k];
    assert l.Keys == Unstarted(p);
    l
  }

  /** One start of the pool, as a single atomic step: every registered kind
      whose flag is false is launched and flagged; nothing else changes. */
  function StartPool<K(!new), I>(p: Pool<K, I>): (r: Pool<K, I>)
    ensures r.informers == p.informers
    ensures forall k :: k in p.informers ==> IsStarted(r, k)
    ensures forall k :: IsStarted(p, k) ==> IsStarted(r, k)
    ensures forall k :: k !in p.informers ==> IsStarted(r, k) == IsStarted(p, k)
    ensures forall k :: k !in Unstarted(p) ==> (k in r.started <==> k in p.started)
    ensures forall k :: k in p.started && k !in Unstarted(p) ==> r.started[k] == p.started[k]
    ensures forall k :: r.runs[k] == p.runs[k] + (if k in p.informers && !IsStarted(p, k) then 1 else 0)
  {
    var u := Unstarted(p);
    Pool(p.informers, p.started + map k | k in u :: true, p.runs + multiset(u))
  }

  /** The source's loop over the pool: the map is visited in an arbitrary
      order (any remaining key may come next); a kind whose flag reads
      false has its informer launched and its flag set. Whatever the
      order, the outcome is the atomic step `StartPool`, and the informers
      launched are exactly `Launches`. */
  method StartLoop<K(!new), I>(p: Pool<K, I>) returns (q: Pool<K, I>, launched: map<K, I>)
    ensures q == StartPool(p)
    ensures launched == Launches(p)
  {
    q := p;
    launched := map[];
    var remaining := p.informers.Keys;
    ghost var done: set<K> := {};
    while remaining != {}
      invariant remaining <= p.informers.Keys
      invariant done == Unstarted(p) - remaining
      invariant q.informers == p.informers
      invariant forall k :: k in done ==> k in q.started && q.started[k]
      invariant forall k :: k !in done ==> (k in q.started <==> k in p.started)
      invariant forall k :: k !in done && k in p.started ==> q.started[k] == p.started[k]
      invariant forall k :: q.runs[k] == p.runs[k] + (if k in done then 1 else 0)
      invariant launched.Keys == done
      invariant forall k :: k in launched ==> launched[k] == p.informers[k]
      decreases remaining
    {
      var k :| k in remaining;
      if !IsStarted(q, k) {
        assert k !in done;
        launched := launched[k := q.informers[k]];
        q := q.(started := q.started[k := true], runs := q.runs + multiset{k});
        done := done + {k};
      }
      remaining := remaining - {k};
    }
    assert done == Unstarted(p);
    LoopOutcome(p, q, launched);
  }

  /** What the loop of `StartLoop` has built once every kind was visited,
      with `Unstarted(p)` as the kinds it flagged and launched. */
  lemma LoopOutcome<K(!new), I>(p: Pool<K, I>, q: Pool<K, I>, launched: map<K, I>)
    requires q.informers == p.informers
    requires forall k :: k in Unstarted(p) ==> k in q.started && q.started[k]
    requires forall k :: k !in Unstarted(p) ==> (k in q.started <==> k in p.started)
    requires forall k :: k !in Unstarted(p) && k in p.started ==> q.started[k] == p.started[k]
    requires forall k :: q.runs[k] == p.runs[k] + (if k in Unstarted(p) then 1 else 0)
    requires launched.Keys == Unstarted(p)
    requires forall k :: k in launched ==> launched[k] == p.informers[k]
    ensures q == StartPool(p)
    ensures launched == Launches(p)
  {
    var r := StartPool(p);
    StartedMatches(p, q);
    assert q.runs == r.runs;
    assert q == r;
    assert launched.Keys == Launches(p).Keys;
  }

  /** The flag part of `LoopOutcome`: the loop's flags are those of
      `StartPool`. */
  lemma StartedMatches<K(!new), I>(p: Pool<K, I>, q: Pool<K, I>)
    requires forall k :: k in Unstarted(p) ==> k in q.started && q.started[k]
    requires forall k :: k !in Unstarted(p) ==> (k in q.started <==> k in p.started)
    requires forall k :: k !in Unstarted(p) && k in p.started ==> q.started[k] == p.started[k]
    ensures q.started == StartPool(p).started
  {
    var r := StartPool(p);
    forall k
      ensures k in q.started <==> k in r.started
      ensures k in q.started ==> q.started[k] == r.started[k]
    {
      if k in Unstarted(p) {
        assert IsStarted(r, k);
      }
    }
    assert q.started.Keys == r.started.Keys;
  }

  /** A second start with no kind registered in between launches nothing
      and changes nothing. */
  lemma StartPoolIdempotent<K(!new), I>(p: Pool<K, I>)
    ensures Launches(StartPool(p)) == map[]
    ensures StartPool(StartPool(p)) == StartPool(p)
  {
    var q := StartPool(p);
    forall k ensures k !in Unstarted(q) {
      assert k in q.informers ==> IsStarted(q, k);
    }
    assert Unstarted(q) == {};
    assert q.started + (map k | k in Unstarted(q) :: true) == q.started;
  }

  /** The pool after kinds registered elsewhere were added: a kind already
      present keeps its informer, a new kind gets the given one, and the
      flags and the launch log are untouched. Registration itself happens
      outside this model; this is only the shape of its effect. */
  function Extend<K(!new), I>(p: Pool<K, I>, extra: map<K, I>): (r: Pool<K, I>)
    ensures r.informers.Keys == p.informers.Keys + extra.Keys
    ensures forall k :: k in p.informers ==> r.informers[k] == p.informers[k]
    ensures forall k :: k in extra && k !in p.informers ==> r.informers[k] == extra[k]
    ensures r.started == p.started && r.runs == p.runs
  {
    p.(informers := extra + p.informers)
  }

  /** The bookkeeping invariant: a kind is flagged started only if it is
      registered, and its informer has been launched exactly once if it is
      flagged started and never otherwise. */
  ghost predicate PoolInv<K(!new), I>(p: Pool<K, I>)
  {
    forall k ::
      && (IsStarted(p, k) ==> k in p.informers)
      && p.runs[k] == (if IsStarted(p, k) then 1 else 0)
  }

  /** Starting preserves the invariant. */
  lemma StartPoolInv<K(!new), I>(p: Pool<K, I>)
    requires PoolInv(p)
    ensures PoolInv(StartPool(p))
  {
    var r := StartPool(p);
    forall k
      ensures IsStarted(r, k) ==> k in r.informers
      ensures r.runs[k] == (if IsStarted(r, k) then 1 else 0)
    {
      if k in p.informers && !IsStarted(p, k) {
        assert r.runs[k] == p.runs[k] + 1;
      } else {
        assert IsStarted(r, k) == IsStarted(p, k);
      }
    }
  }

  /** Registering new kinds preserves the invariant. */
  lemma ExtendInv<K(!new), I>(p: Pool<K, I>, extra: map<K, I>)
    requires PoolInv(p)
    ensures PoolInv(Extend(p, extra))
  {
    var r := Extend(p, extra);
    forall k ensures IsStarted(r, k) ==> k in r.informers {
      assert IsStarted(r, k) == IsStarted(p, k);
    }
  }

  /** Under the invariant, after a start every registered kind has been
      launched exactly once and no kind more than once. */
  lemma StartPoolRunsExactlyOnce<K(!new), I>(p: Pool<K, I>)
    requires PoolInv(p)
    ensures forall k :: k in p.informers ==> StartPool(p).runs[k] == 1
    ensures forall k :: StartPool(p).runs[k] <= 1
  {
    StartPoolInv(p);
  }

  /** A pool with one registered kind and nothing started: a start
      launches that kind's informer, once; a second start launches nothing. */
  lemma SingleKindStart<K(!new), I>(p: Pool<K, I>, k: K, i: I)
    requires p == Pool(map[k := i], map[], multiset{})
    ensures Launches(p) == map[k := i]
    ensures StartPool(p).runs[k] == 1
    ensures Launches(StartPool(p)) == map[]
  {
    assert Unstarted(p) == {k};
    StartPoolIdempotent(p);
  }
}
