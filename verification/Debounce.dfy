/** The analysis queue's debounce: a map from job key to the time it was last
    queued, purged of stale entries on every unforced request.  An unforced
    request reads the clock twice, once to decide and once to record. */
module Debounce {

  type Key = string

  datatype Event = Event(key: Key, force: bool, debounceMs: int, now: int, recordedAt: int)

  // ----- one request, with and without purging -----

  predicate Recent(m: map<Key, int>, key: Key, now: int, debounceMs: int)
  {
    key in m && now - m[key] <= debounceMs
  }

  function Purged(m: map<Key, int>, now: int, debounceMs: int): map<Key, int>
  {
    map k | k in m && now - m[k] <= debounceMs :: m[k]
  }

  predicate Skips(m: map<Key, int>, e: Event)
  {
    !e.force && Recent(m, e.key, e.now, e.debounceMs)
  }

  function PurgingStep(m: map<Key, int>, e: Event): map<Key, int>
  {
    var kept := if e.force then m else Purged(m, e.now, e.debounceMs);
    if Skips(m, e) then kept else kept[e.key := e.recordedAt]
  }

  function PlainStep(m: map<Key, int>, e: Event): map<Key, int>
  {
    if Skips(m, e) then m else m[e.key := e.recordedAt]
  }

  class TechnicalAnalysisQueueProducer {
    var recentJobs: map<Key, int>

    constructor ()
      ensures recentJobs == map[]
    {
      recentJobs := map[];
    }

    method IsDebounced(key: Key, debounceMs: int, now: int) returns (debounced: bool)
      modifies this
      ensures debounced == old(Recent(recentJobs, key, now, debounceMs))
      ensures recentJobs == Purged(old(recentJobs), now, debounceMs)
    {
      ghost var before := recentJobs;
      var known := key in recentJobs;
      var lastQueuedAt := if known then recentJobs[key] else 0;
      var left := recentJobs.Keys;
      while left != {}
        invariant left <= before.Keys
        invariant forall k :: k in recentJobs <==> k in before && (k in left || now - before[k] <= debounceMs)
        invariant forall k :: k in recentJobs ==> recentJobs[k] == before[k]
        decreases left
      {
        var recentKey :| recentKey in left;
        left := left - {recentKey};
        var timestamp := recentJobs[recentKey];
        if now - timestamp > debounceMs {
          recentJobs := recentJobs - {recentKey};
        }
      }
      return known && now - lastQueuedAt <= debounceMs;
    }

    /** True when the request is queued, false when it is skipped as a duplicate. */
    method EnqueueTechnicalAnalysis(e: Event) returns (queued: bool)
      modifies this
      ensures queued == !old(Skips(recentJobs, e))
      ensures recentJobs == PurgingStep(old(recentJobs), e)
    {
      if !e.force {
        var debounced := IsDebounced(e.key, e.debounceMs, e.now);
        if debounced {
          return false;
        }
      }
      recentJobs := recentJobs[e.key := e.recordedAt];
      return true;
    }
  }

  // ----- runs -----

  function PurgingMap(es: seq<Event>): map<Key, int>
  {
    if es == [] then map[] else PurgingStep(PurgingMap(es[..|es| - 1]), es[|es| - 1])
  }

  function PlainMap(es: seq<Event>): map<Key, int>
  {
    if es == [] then map[] else PlainStep(PlainMap(es[..|es| - 1]), es[|es| - 1])
  }

  /** The clock never runs backwards and the window never grows. */
  predicate Timed(es: seq<Event>)
  {
    && (forall i :: 0 <= i < |es| ==> es[i].now <= es[i].recordedAt)
    && (forall i, j :: 0 <= i < j < |es| ==>
          es[i].recordedAt <= es[j].now && es[j].debounceMs <= es[i].debounceMs)
  }

  /** Request `i` is queued: it is forced, or no earlier queued request of its
      key, forced or not, was recorded within the window.  No map is involved. */
  ghost predicate Queued(es: seq<Event>, i: nat)
    requires i < |es|
    decreases i
  {
    es[i].force || forall j :: 0 <= j < i && Queued(es, j) ==> !Within(es, j, i)
  }

  predicate Within(es: seq<Event>, j: nat, i: nat)
    requires j < |es| && i < |es|
  {
    es[j].key == es[i].key && es[i].now - es[j].recordedAt <= es[i].debounceMs
  }

  /** A map kept by the run: every entry is a queued request, and a queued
      request is in it, superseded, or already outside the window. */
  ghost predicate Faithful(es: seq<Event>, n: nat, m: map<Key, int>)
    requires n <= |es|
  {
    && (forall k :: k in m ==> exists j :: 0 <= j < n && Queued(es, j) && es[j].key == k && es[j].recordedAt == m[k])
    && (forall j :: 0 <= j < n && Queued(es, j) ==> Remembered(es, n, m, j))
  }

  predicate Remembered(es: seq<Event>, n: nat, m: map<Key, int>, j: nat)
    requires j < n <= |es|
  {
    || (es[j].key in m && m[es[j].key] >= es[j].recordedAt)
    || es[n - 1].recordedAt - es[j].recordedAt > es[n - 1].debounceMs
  }

  lemma FaithfulDecides(es: seq<Event>, n: nat, m: map<Key, int>)
    requires Timed(es) && n < |es| && Faithful(es, n, m)
    ensures Queued(es, n) <==> !Skips(m, es[n])
  {
    var e := es[n];
    if Recent(m, e.key, e.now, e.debounceMs) {
      var j :| 0 <= j < n && Queued(es, j) && es[j].key == e.key && es[j].recordedAt == m[e.key];
      assert Within(es, j, n);
    } else {
      forall j | 0 <= j < n && Queued(es, j) ensures !Within(es, j, n) {
        assert Remembered(es, n, m, j);
      }
    }
  }

  lemma FaithfulStep(es: seq<Event>, n: nat, m: map<Key, int>, next: map<Key, int>)
    requires Timed(es) && n < |es| && Faithful(es, n, m)
    requires next == PurgingStep(m, es[n]) || next == PlainStep(m, es[n])
    ensures Faithful(es, n + 1, next)
  {
    FaithfulDecides(es, n, m);
    hide Queued;
    var e := es[n];
    forall k | k in next
      ensures exists j :: 0 <= j < n + 1 && Queued(es, j) && es[j].key == k && es[j].recordedAt == next[k]
    {
      if k == e.key && !Skips(m, e) {
        assert Queued(es, n);
      } else {
        assert k in m && m[k] == next[k];
        var j :| 0 <= j < n && Queued(es, j) && es[j].key == k && es[j].recordedAt == m[k];
        assert 0 <= j < n + 1;
      }
    }
    forall j | 0 <= j < n + 1 && Queued(es, j) ensures Remembered(es, n + 1, next, j) {
      if j < n {
        assert Remembered(es, n, m, j);
        StillRemembered(es, n, m, next, j);
      } else {
        assert !Skips(m, e);
      }
    }
  }

  lemma StillRemembered(es: seq<Event>, n: nat, m: map<Key, int>, next: map<Key, int>, j: nat)
    requires Timed(es) && j < n < |es| && Remembered(es, n, m, j)
    requires next == PurgingStep(m, es[n]) || next == PlainStep(m, es[n])
    ensures Remembered(es, n + 1, next, j)
  {
    var e, k := es[n], es[j].key;
    if k in m && m[k] >= es[j].recordedAt && !(k == e.key && !Skips(m, e)) && k !in next {
      assert e.now - m[k] > e.debounceMs;
    }
  }

  lemma {:induction false} MapsFaithful(es: seq<Event>, n: nat)
    requires Timed(es) && n <= |es|
    ensures Faithful(es, n, PurgingMap(es[..n])) && Faithful(es, n, PlainMap(es[..n]))
  {
    if n > 0 {
      MapsFaithful(es, n - 1);
      assert es[..n][..n - 1] == es[..n - 1];
      FaithfulStep(es, n - 1, PurgingMap(es[..n - 1]), PurgingMap(es[..n]));
      FaithfulStep(es, n - 1, PlainMap(es[..n - 1]), PlainMap(es[..n]));
    }
  }

  /** On every run the purging map answers each request as a map that is never
      purged would, and both skip a request exactly when it is unforced and an
      earlier queued request of its key was recorded within the window. */
  lemma PurgingForgetsNothing(es: seq<Event>, i: nat)
    requires Timed(es) && i < |es|
    ensures Skips(PurgingMap(es[..i]), es[i]) <==> Skips(PlainMap(es[..i]), es[i])
    ensures Skips(PurgingMap(es[..i]), es[i]) <==>
              !es[i].force && exists j :: 0 <= j < i && Queued(es, j) && Within(es, j, i)
  {
    MapsFaithful(es, i);
    FaithfulDecides(es, i, PurgingMap(es[..i]));
    FaithfulDecides(es, i, PlainMap(es[..i]));
  }

  /** Were the window to grow between requests, purging could forget an entry
      the larger window still covers. */
  lemma GrowingWindowForgets()
    ensures var es := [Event("a", false, 10, 0, 0), Event("b", false, 10, 20, 20), Event("a", false, 100, 30, 30)];
            !Skips(PurgingMap(es[..2]), es[2]) && Skips(PlainMap(es[..2]), es[2])
  {
    var es := [Event("a", false, 10, 0, 0), Event("b", false, 10, 20, 20), Event("a", false, 100, 30, 30)];
    assert es[..2][..1] == [es[0]] && es[..2][1] == es[1];
    assert [es[0]][..0] == [];
    assert PurgingMap([es[0]]) == map["a" := 0] && PlainMap([es[0]]) == map["a" := 0];
    assert PurgingMap(es[..2]) == map["b" := 20];
    assert PlainMap(es[..2]) == map["a" := 0, "b" := 20];
  }
}
