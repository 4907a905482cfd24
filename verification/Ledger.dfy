/** Counter deltas. The reference is a history of successful collections, seen
    socket by socket: a counter segment closes when the counter drops or the
    socket is absent, and a closed segment is worth its last value. */
module Ledger {
  import opened Basics
  import opened Hosts
  import opened Tallies
  import opened Accounts
  import opened UploadWindow
  import opened ServiceModel

  type Collection = map<string, Sample>

  function Readings(obs: map<string, Observation>): Collection {
    map k | k in obs :: obs[k].sample
  }

  function Counter(s: Sample, dir: Direction): nat {
    if dir == RX then s.rx else s.tx
  }

  function Last(hist: seq<Collection>): Collection {
    if hist == [] then map[] else hist[|hist| - 1]
  }

  /** The open segment of a socket, if the last collection saw it. */
  function Live(hist: seq<Collection>, key: string, dir: Direction): nat {
    if key in Last(hist) then Counter(Last(hist)[key], dir) else 0
  }

  /** The segment that was open before collection `r` goes on in it. */
  predicate Continues(before: Collection, r: Collection, key: string, dir: Direction) {
    key in before && key in r && Counter(r[key], dir) >= Counter(before[key], dir)
  }

  /** The worth of all closed segments of a socket. */
  function Closed(hist: seq<Collection>, key: string, dir: Direction): nat {
    if hist == [] then 0
    else
      var n := |hist| - 1;
      Closed(hist[..n], key, dir) +
      if Continues(Last(hist[..n]), hist[n], key, dir) then 0 else Live(hist[..n], key, dir)
  }

  function Settled(hist: seq<Collection>, key: string, dir: Direction): nat {
    Closed(hist, key, dir) + Live(hist, key, dir)
  }

  function Sightings(hist: seq<Collection>, key: string): nat {
    if hist == [] then 0
    else Sightings(hist[..|hist| - 1], key) + if key in hist[|hist| - 1] then 1 else 0
  }

  function SocketKeys(hist: seq<Collection>): set<string> {
    set n, k | 0 <= n < |hist| && k in hist[n] :: k
  }

  function Bill(hist: seq<Collection>): map<string, Tally> {
    map k | k in SocketKeys(hist) :: Tally(Settled(hist, k, RX), Settled(hist, k, TX), Sightings(hist, k))
  }

  function Charge(samples: Collection, r: Collection, k: string): Tally
    requires k in r
  {
    Tally(Delta(samples, k, r[k]).rx, Delta(samples, k, r[k]).tx, 1)
  }

  /** What one collection credits, socket by socket. */
  function Charges(samples: Collection, r: Collection): map<string, Tally> {
    map k | k in r :: Charge(samples, r, k)
  }

  /** One more collection settles exactly the delta that is credited for it. */
  lemma SettledStep(hist: seq<Collection>, r: Collection, key: string, dir: Direction)
    ensures Settled(hist + [r], key, dir) ==
            Settled(hist, key, dir) + if key in r then Charge(Last(hist), r, key).At(dir) else 0
  {
    assert (hist + [r])[..|hist|] == hist;
  }

  lemma SightingsStep(hist: seq<Collection>, r: Collection, key: string)
    ensures Sightings(hist + [r], key) == Sightings(hist, key) + if key in r then 1 else 0
  {
    assert (hist + [r])[..|hist|] == hist;
  }

  lemma SocketKeysStep(hist: seq<Collection>, r: Collection)
    ensures SocketKeys(hist + [r]) == SocketKeys(hist) + r.Keys
  {
    forall k
      ensures k in SocketKeys(hist + [r]) <==> k in SocketKeys(hist) + r.Keys
    {
      if k in r {
        assert (hist + [r])[|hist|] == r;
      }
      if k in SocketKeys(hist) {
        var n :| 0 <= n < |hist| && k in hist[n];
        assert (hist + [r])[n] == hist[n];
      }
    }
  }

  lemma {:induction false} UnseenIsFree(hist: seq<Collection>, key: string, dir: Direction)
    requires key !in SocketKeys(hist)
    ensures Settled(hist, key, dir) == 0 && Sightings(hist, key) == 0
  {
    if hist != [] {
      var n := |hist| - 1;
      assert hist == hist[..n] + [hist[n]];
      SocketKeysStep(hist[..n], hist[n]);
      UnseenIsFree(hist[..n], key, dir);
    }
  }

  lemma BillEntry(hist: seq<Collection>, r: Collection, k: string, f: Field)
    requires k in SocketKeys(hist) + r.Keys
    ensures k in Bill(hist + [r])
    ensures Get(Bill(hist + [r]), k).At(f) == Get(Bill(hist), k).At(f) + Get(Charges(Last(hist), r), k).At(f)
  {
    hide Settled, Sightings, Delta;
    SocketKeysStep(hist, r);
    SettledStep(hist, r, k, RX);
    SettledStep(hist, r, k, TX);
    SightingsStep(hist, r, k);
    if k !in SocketKeys(hist) {
      UnseenIsFree(hist, k, RX);
      UnseenIsFree(hist, k, TX);
    }
  }

  /** One more collection adds the sum of its charges to the bill. */
  lemma BillStep(hist: seq<Collection>, r: Collection)
    ensures Sum(Bill(hist + [r])) == Sum(Bill(hist)).Plus(Sum(Charges(Last(hist), r)))
  {
    hide Sum, Settled, Sightings, Charge;
    SocketKeysStep(hist, r);
    forall k, f: Field | k in Bill(hist + [r])
      ensures Get(Bill(hist + [r]), k).At(f) == Get(Bill(hist), k).At(f) + Get(Charges(Last(hist), r), k).At(f)
    {
      BillEntry(hist, r, k, f);
    }
    SumPlus(Bill(hist + [r]), Bill(hist), Charges(Last(hist), r));
  }

  /** The deltas credited to a socket over a stretch of collections, the first
      one taken against `previous`. */
  function Credited(previous: Collection, stretch: seq<Collection>, key: string, dir: Direction): nat
    requires forall i :: 0 <= i < |stretch| ==> key in stretch[i]
  {
    if stretch == [] then 0
    else
      var n := |stretch| - 1;
      Credited(previous, stretch[..n], key, dir) +
      Charge(if n == 0 then previous else stretch[n - 1], stretch[n], key).At(dir)
  }

  /** Over a stretch in which a socket is always present and its counter never
      drops, the credited deltas add up to its final value, less the stored value
      that the first of them was taken against: none if the socket is new or the
      stretch begins with a reset. */
  lemma {:induction false} DeltasTelescope(previous: Collection, stretch: seq<Collection>, key: string, dir: Direction)
    requires stretch != [] && forall i :: 0 <= i < |stretch| ==> key in stretch[i]
    requires forall i :: 0 < i < |stretch| ==> Counter(stretch[i - 1][key], dir) <= Counter(stretch[i][key], dir)
    ensures Credited(previous, stretch, key, dir) ==
            Counter(stretch[|stretch| - 1][key], dir) -
            if Continues(previous, stretch[0], key, dir) then Counter(previous[key], dir) else 0
  {
    var n := |stretch| - 1;
    if n == 0 {
      assert stretch[..n] == [];
    } else {
      DeltasTelescope(previous, stretch[..n], key, dir);
    }
  }

  /** The deltas credited over a stretch are what the stretch adds to the closed
      and live segments. */
  lemma {:induction false} CreditedIsSettled(hist: seq<Collection>, stretch: seq<Collection>, key: string,
                                             dir: Direction)
    requires forall i :: 0 <= i < |stretch| ==> key in stretch[i]
    ensures Settled(hist + stretch, key, dir) ==
            Settled(hist, key, dir) + Credited(Last(hist), stretch, key, dir)
  {
    if stretch == [] {
      assert hist + stretch == hist;
    } else {
      var n := |stretch| - 1;
      assert hist + stretch == (hist + stretch[..n]) + [stretch[n]];
      SettledStep(hist + stretch[..n], stretch[n], key, dir);
      CreditedIsSettled(hist, stretch[..n], key, dir);
      if n == 0 {
        assert hist + stretch[..n] == hist;
      } else {
        assert Last(hist + stretch[..n]) == stretch[n - 1];
      }
    }
  }

  // ---- what a poll credits ----

  lemma RecordNetworkAdds(w: Window, now: int, p: Posting, td: nat, tc: nat)
    requires w.startedAt.None? ==> w == UNSTARTED
    ensures UploadWindow.RecordNetwork(w, now, p, td, tc).startedAt.Some?
    ensures UploadWindow.RecordNetwork(w, now, p, td, tc).Bytes(RX) == w.Bytes(RX) + p.rx
    ensures UploadWindow.RecordNetwork(w, now, p, td, tc).Bytes(TX) == w.Bytes(TX) + p.tx
  {
  }

  function Overlay(samples: Collection, order: seq<string>, obs: map<string, Observation>): Collection
    requires forall k :: k in order ==> k in obs
  {
    samples + map k | k in order :: obs[k].sample
  }

  lemma OverlayNext(samples: Collection, order: seq<string>, key: string, obs: map<string, Observation>)
    requires key in obs && forall k :: k in order ==> k in obs
    ensures Overlay(samples, order + [key], obs) == Overlay(samples, order, obs)[key := obs[key].sample]
  {
    assert forall k :: k in order + [key] <==> k in order || k == key;
  }

  /** The samples after part of the loop: the visited sockets are updated. */
  lemma {:induction false} ObserveAllSamples(env: Env, c: Core, order: seq<string>, obs: map<string, Observation>,
                                             now: int)
    requires forall k :: k in order ==> k in obs
    ensures ObserveAllCore(env, c, order, obs, now).samples == Overlay(c.samples, order, obs)
  {
    hide Credit, PostingOf, Overlay;
    if order == [] {
      OverlayNothing(c.samples, order, obs);
    } else {
      var n := |order| - 1;
      ObserveAllSamples(env, c, order[..n], obs, now);
      assert order == order[..n] + [order[n]];
      OverlayNext(c.samples, order[..n], order[n], obs);
    }
  }

  lemma OverlayNothing(samples: Collection, order: seq<string>, obs: map<string, Observation>)
    requires order == []
    ensures Overlay(samples, order, obs) == samples
  {
    assert forall k :: k !in order;
  }

  /** After a poll the stored samples are exactly the collected ones. */
  lemma PollStoresCollection(env: Env, c: Core, order: seq<string>, obs: map<string, Observation>, now: int)
    requires Enumerates(order, obs.Keys)
    ensures PollNetworkCore(env, c, order, obs, now).samples == Readings(obs)
  {
    hide ObserveAllCore;
    ObserveAllSamples(env, c, order, obs, now);
  }

  ghost predicate Started(w: Window) {
    w.startedAt.None? ==> w == UNSTARTED
  }

  ghost predicate Adds(before: Option<Window>, after: Option<Window>, amount: nat, dir: Direction) {
    && before.Some? && after.Some?
    && Started(after.value)
    && after.value.Bytes(dir) == before.value.Bytes(dir) + amount
  }

  lemma {:induction false} ObserveAllAdds(env: Env, c: Core, order: seq<string>, obs: map<string, Observation>,
                                          now: int, dir: Direction)
    requires NoDup(order) && forall k :: k in order ==> k in obs
    requires c.window.Some? && Started(c.window.value)
    ensures Adds(c.window, ObserveAllCore(env, c, order, obs, now).window,
                 SumOn(Charges(c.samples, Readings(obs)), Elements(order), dir), dir)
  {
    hide SumOn, ObserveCore;
    var charges := Charges(c.samples, Readings(obs));
    if order == [] {
      assert Elements(order) == {};
      SumOnNothing(charges, dir);
    } else {
      var n := |order| - 1;
      var key := order[n];
      ObserveAllAdds(env, c, order[..n], obs, now, dir);
      assert order == order[..n] + [key];
      assert Elements(order) - {key} == Elements(order[..n]);
      SumOnRemove(charges, Elements(order), dir, key);
      ObserveAddsOne(env, c, order[..n], key, obs, now, dir);
    }
  }

  /** The baseline of a socket is still the one from before the poll. */
  lemma BaselineUntouched(env: Env, c: Core, order: seq<string>, key: string, obs: map<string, Observation>, now: int)
    requires key in obs && key !in order && forall k :: k in order ==> k in obs
    ensures var p := PostingOf(env, ObserveAllCore(env, c, order, obs, now), key, obs[key]);
            Tally(p.rx, p.tx, 1) == Charge(c.samples, Readings(obs), key)
  {
    hide ObserveAllCore;
    ObserveAllSamples(env, c, order, obs, now);
  }

  lemma CreditAdds(c: Core, p: Posting, now: int, dir: Direction)
    requires c.window.Some? && Started(c.window.value)
    ensures Adds(c.window, Credit(c, p, now).window, p.Amount().At(dir), dir)
  {
    hide UploadWindow.RecordNetwork, PostDomain, PostConnection;
    var after := Credit(c, p, now);
    RecordNetworkAdds(c.window.value, now, p, |after.domains|, |after.connections|);
  }

  lemma ObserveAddsOne(env: Env, c: Core, order: seq<string>, key: string, obs: map<string, Observation>,
                       now: int, dir: Direction)
    requires key in obs && key !in order && forall k :: k in order ==> k in obs
    requires var w := ObserveAllCore(env, c, order, obs, now).window; w.Some? && Started(w.value)
    ensures var b := ObserveAllCore(env, c, order, obs, now);
            Adds(b.window, ObserveCore(env, b, key, obs[key], now).window,
                 Charge(c.samples, Readings(obs), key).At(dir), dir)
  {
    hide ObserveAllCore, Credit, PostingOf, Adds, Charge;
    var b := ObserveAllCore(env, c, order, obs, now);
    BaselineUntouched(env, c, order, key, obs, now);
    CreditAdds(b, PostingOf(env, b, key, obs[key]), now, dir);
  }

  /** A poll adds to the window what the collection is charged. */
  lemma PollAdds(env: Env, c: Core, order: seq<string>, obs: map<string, Observation>, now: int, dir: Direction)
    requires Enumerates(order, obs.Keys)
    requires c.window.Some? && Started(c.window.value)
    ensures Adds(c.window, PollNetworkCore(env, c, order, obs, now).window,
                 Sum(Charges(c.samples, Readings(obs))).At(dir), dir)
  {
    hide ObserveAllCore, SumOn;
    ObserveAllAdds(env, c, order, obs, now, dir);
    assert Elements(order) == Charges(c.samples, Readings(obs)).Keys;
  }
}
