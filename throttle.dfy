/**
 * The per-record throttle of `on_modified`: a map from record key to the
 * time of the last dispatch. An event on a key dispatches unless that key
 * dispatched less than the window ago; a dispatch stores the current time.
 * This is a leading-edge throttle: the first event of a burst dispatches and
 * the rest of the burst is dropped. Time is an integer tick supplied by the
 * caller.
 */
module Throttle {

  /** The throttle key `module.doctype.docname`; the app is not part of it. */
  function FileKey(moduleName: string, doctype: string, docname: string): (key: string)
    ensures |key| == |moduleName| + |doctype| + |docname| + 2
    ensures key[..|moduleName|] == moduleName && key[|moduleName|] == '.'
    ensures key[|moduleName| + 1..|moduleName| + 1 + |doctype|] == doctype
    ensures key[|moduleName| + 1 + |doctype|] == '.'
    ensures key[|moduleName| + |doctype| + 2..] == docname
  {
    moduleName + "." + doctype + "." + docname
  }

  /** An event on `key` at `now` is let through: the key has no entry, or its entry is at least `window` old. */
  predicate Admits(last: map<string, int>, key: string, now: int, window: int): (admitted: bool)
    ensures key !in last ==> admitted
    ensures admitted && key in last ==> now >= last[key] + window
    ensures !admitted ==> key in last && now < last[key] + window
  {
    !(key in last && now - last[key] < window)
  }

  /**
   * The throttle map after an event on `key` at `now`: a dropped event leaves
   * it as it was; a dispatched one stores `now` under `key` and nothing else.
   */
  function Step(last: map<string, int>, key: string, now: int, window: int): (next: map<string, int>)
    ensures Admits(last, key, now, window) ==> next.Keys == last.Keys + {key}
    ensures Admits(last, key, now, window) ==> key in next && next[key] == now
    ensures !Admits(last, key, now, window) ==> next == last
    ensures forall k :: k in last && k != key ==> k in next && next[k] == last[k]
    ensures window >= 0 ==> forall k :: k in last ==> k in next && next[k] >= last[k]
  {
    if Admits(last, key, now, window) then last[key := now] else last
  }

  /** One event offered to the throttle. */
  datatype Tick = Tick(key: string, now: int)

  /** The throttle map after a run of events, and the events that were dispatched, in order. */
  datatype Trace = Trace(last: map<string, int>, dispatched: seq<Tick>)

  /** Offers the events one after another to the throttle, starting from the map `init`. */
  function Run(init: map<string, int>, ticks: seq<Tick>, window: int): (t: Trace)
    ensures |t.dispatched| <= |ticks|
    ensures init.Keys <= t.last.Keys
    ensures t.last.Keys <= init.Keys + set i | 0 <= i < |ticks| :: ticks[i].key
    decreases |ticks|
  {
    if ticks == [] then Trace(init, [])
    else
      var prev := Run(init, ticks[..|ticks| - 1], window);
      var tick := ticks[|ticks| - 1];
      var next := Step(prev.last, tick.key, tick.now, window);
      if Admits(prev.last, tick.key, tick.now, window)
      then Trace(next, prev.dispatched + [tick])
      else Trace(next, prev.dispatched)
  }

  /** No later dispatch of the same key follows position `i`. */
  ghost predicate LatestOfKey(ds: seq<Tick>, i: int)
    requires 0 <= i < |ds|
  {
    forall m :: i < m < |ds| ==> ds[m].key != ds[i].key
  }

  /** The map holds, for every dispatched key, the time of that key's latest dispatch. */
  lemma {:induction false} LatestDispatchIsStored(init: map<string, int>, ticks: seq<Tick>, window: int, i: int)
    requires 0 <= i < |Run(init, ticks, window).dispatched|
    requires LatestOfKey(Run(init, ticks, window).dispatched, i)
    ensures var t := Run(init, ticks, window);
      t.dispatched[i].key in t.last && t.last[t.dispatched[i].key] == t.dispatched[i].now
  {
    var pre := ticks[..|ticks| - 1];
    var prev := Run(init, pre, window);
    var tick := ticks[|ticks| - 1];
    var t := Run(init, ticks, window);
    var n := |prev.dispatched|;
    if Admits(prev.last, tick.key, tick.now, window) {
      assert t.dispatched == prev.dispatched + [tick];
      if i < n {
        assert t.dispatched[n].key != t.dispatched[i].key;
        forall m | i < m < n ensures prev.dispatched[m].key != prev.dispatched[i].key {
          assert t.dispatched[m] == prev.dispatched[m];
        }
        LatestDispatchIsStored(init, pre, window, i);
      }
    } else {
      LatestDispatchIsStored(init, pre, window, i);
    }
  }

  /**
   * Two consecutive dispatches of the same key are at least `window` apart,
   * whatever order the supplied times come in.
   */
  lemma {:induction false} DispatchesSpacedOut(init: map<string, int>, ticks: seq<Tick>, window: int)
    ensures var ds := Run(init, ticks, window).dispatched;
      forall i, j ::
        (0 <= i < j < |ds| && ds[i].key == ds[j].key && (forall m :: i < m < j ==> ds[m].key != ds[i].key))
        ==> ds[j].now - ds[i].now >= window
  {
    if ticks != [] {
      var pre := ticks[..|ticks| - 1];
      var prev := Run(init, pre, window);
      var tick := ticks[|ticks| - 1];
      DispatchesSpacedOut(init, pre, window);
      var ds := Run(init, ticks, window).dispatched;
      if Admits(prev.last, tick.key, tick.now, window) {
        var n := |prev.dispatched|;
        assert ds == prev.dispatched + [tick];
        forall i | 0 <= i < n && ds[i].key == tick.key && (forall m :: i < m < n ==> ds[m].key != ds[i].key)
          ensures tick.now - ds[i].now >= window
        {
          assert ds[i] == prev.dispatched[i];
          forall m | i < m < n ensures prev.dispatched[m].key != prev.dispatched[i].key {
            assert ds[m] == prev.dispatched[m];
          }
          LatestDispatchIsStored(init, pre, window, i);
        }
        forall i, j | 0 <= i < j < n && ds[i].key == ds[j].key && (forall m :: i < m < j ==> ds[m].key != ds[i].key)
          ensures ds[j].now - ds[i].now >= window
        {
          assert ds[i] == prev.dispatched[i] && ds[j] == prev.dispatched[j];
          assert forall m :: i < m < j ==> ds[m] == prev.dispatched[m];
        }
      }
    }
  }

  /** With a non-negative window, the time stored for a key never goes down. */
  lemma {:induction false} StoredTimesNeverDecrease(init: map<string, int>, ticks: seq<Tick>, window: int)
    requires window >= 0
    ensures var last := Run(init, ticks, window).last;
      forall k :: k in init ==> k in last && last[k] >= init[k]
  {
    if ticks != [] {
      StoredTimesNeverDecrease(init, ticks[..|ticks| - 1], window);
    }
  }

  /** Every key in the map was there at the start or was dispatched during the run. */
  lemma {:induction false} StoredKeysWereDispatched(init: map<string, int>, ticks: seq<Tick>, window: int)
    ensures var t := Run(init, ticks, window);
      forall k :: k in t.last ==> k in init || exists i :: 0 <= i < |t.dispatched| && t.dispatched[i].key == k
  {
    if ticks != [] {
      var pre := ticks[..|ticks| - 1];
      StoredKeysWereDispatched(init, pre, window);
      var prev := Run(init, pre, window);
      var t := Run(init, ticks, window);
      forall k | k in t.last && k !in init
        ensures exists i :: 0 <= i < |t.dispatched| && t.dispatched[i].key == k
      {
        if k in prev.last {
          var i :| 0 <= i < |prev.dispatched| && prev.dispatched[i].key == k;
          assert t.dispatched[i] == prev.dispatched[i];
        } else {
          assert t.dispatched[|t.dispatched| - 1].key == k;
        }
      }
    }
  }

  /** Every dispatched event is one of the offered events. */
  lemma {:induction false} DispatchedWereOffered(init: map<string, int>, ticks: seq<Tick>, window: int)
    ensures forall d :: d in Run(init, ticks, window).dispatched ==> d in ticks
  {
    if ticks != [] {
      var pre := ticks[..|ticks| - 1];
      DispatchedWereOffered(init, pre, window);
      assert forall d :: d in pre ==> d in ticks;
    }
  }

  /** A key on which no event occurs keeps its initial entry, or its absence, through a run. */
  lemma {:induction false} UntouchedKeyKeepsEntry(init: map<string, int>, ticks: seq<Tick>, window: int, k: string)
    requires forall m :: 0 <= m < |ticks| ==> ticks[m].key != k
    ensures var last := Run(init, ticks, window).last;
      (k in last <==> k in init) && (k in init ==> last[k] == init[k])
  {
    if ticks != [] {
      UntouchedKeyKeepsEntry(init, ticks[..|ticks| - 1], window, k);
    }
  }

  /**
   * Leading edge: the first event on a key dispatches whenever the initial
   * map lets it through, that is, the key has no entry or its entry is at
   * least the window old.
   */
  lemma {:induction false} FirstEventOnKeyDispatches(init: map<string, int>, ticks: seq<Tick>, window: int, j: int)
    requires 0 <= j < |ticks|
    requires Admits(init, ticks[j].key, ticks[j].now, window)
    requires forall m :: 0 <= m < j ==> ticks[m].key != ticks[j].key
    ensures ticks[j] in Run(init, ticks, window).dispatched
  {
    if j == |ticks| - 1 {
      var pre := ticks[..j];
      UntouchedKeyKeepsEntry(init, pre, window, ticks[j].key);
      assert Admits(Run(init, pre, window).last, ticks[j].key, ticks[j].now, window);
    } else {
      var pre := ticks[..|ticks| - 1];
      FirstEventOnKeyDispatches(init, pre, window, j);
    }
  }

  /**
   * A burst on one key whose first event the initial map lets through, and
   * which stays within the window of that first event, dispatches exactly
   * once: the first event, whose time is then stored.
   */
  lemma {:induction false} BurstDispatchesOnce(init: map<string, int>, ticks: seq<Tick>, window: int)
    requires |ticks| > 0
    requires Admits(init, ticks[0].key, ticks[0].now, window)
    requires forall i :: 0 <= i < |ticks| ==> ticks[i].key == ticks[0].key
    requires forall i :: 0 <= i < |ticks| ==> ticks[i].now < ticks[0].now + window
    ensures Run(init, ticks, window).dispatched == [ticks[0]]
    ensures ticks[0].key in Run(init, ticks, window).last
    ensures Run(init, ticks, window).last[ticks[0].key] == ticks[0].now
  {
    if |ticks| > 1 {
      var pre := ticks[..|ticks| - 1];
      BurstDispatchesOnce(init, pre, window);
    } else {
      assert ticks[..0] == [];
    }
  }

  /**
   * Keys run module, doctype and name together with dots, so two different
   * records can share a throttle entry when their segments contain dots.
   */
  lemma FileKeyCollision()
    ensures FileKey("setup.wizard", "page", "home") == FileKey("setup", "wizard.page", "home")
  {
  }

  /** In `a.r` with a dot-free `a`, the first dot is at position `|a|`. */
  lemma FirstDotAt(a: string, r: string)
    requires '.' !in a
    ensures (a + "." + r)[|a|] == '.'
    ensures forall j :: 0 <= j < |a| ==> (a + "." + r)[j] != '.'
  {
    forall j | 0 <= j < |a| ensures (a + "." + r)[j] != '.' {
      assert (a + "." + r)[j] == a[j];
    }
  }

  /** Splitting at the first dot: a dot-free head is determined by the string. */
  lemma SplitAtDot(a1: string, r1: string, a2: string, r2: string)
    requires '.' !in a1 && '.' !in a2
    requires a1 + "." + r1 == a2 + "." + r2
    ensures a1 == a2 && r1 == r2
  {
    var s := a1 + "." + r1;
    FirstDotAt(a1, r1);
    FirstDotAt(a2, r2);
    assert |a1| == |a2|;
    assert a1 == s[..|a1|] == a2;
    assert r1 == s[|a1| + 1..] == r2;
  }

  /** Without dots in the module and doctype names, distinct records have distinct keys. */
  lemma FileKeyInjective(m1: string, d1: string, n1: string, m2: string, d2: string, n2: string)
    requires '.' !in m1 && '.' !in d1 && '.' !in m2 && '.' !in d2
    ensures FileKey(m1, d1, n1) == FileKey(m2, d2, n2) <==> m1 == m2 && d1 == d2 && n1 == n2
  {
    if FileKey(m1, d1, n1) == FileKey(m2, d2, n2) {
      assert m1 + "." + (d1 + "." + n1) == FileKey(m1, d1, n1);
      assert m2 + "." + (d2 + "." + n2) == FileKey(m2, d2, n2);
      SplitAtDot(m1, d1 + "." + n1, m2, d2 + "." + n2);
      SplitAtDot(d1, n1, d2, n2);
    }
  }
}
