/** The temporal recommendation estimator of `compute_recent_files`. For every
    scraped video, the snapshots are scanned in chronological order; for two
    consecutive observations of the video, at indices `first < second`, whose
    view count grew by `inc > 0`, every recommendation of the first observation
    that is still among the second observation's recommendations is credited
    with the whole increase (once per occurrence in the first list), and that
    credit is spread evenly, `inc / (second - first + 1)` each, over the
    snapshots `first` to `second`. */
module Estimator {
  import opened Collections
  import opened Records

  /** The (purged) `scrapped_videos` of one date. */
  type Snapshot = map<VideoId, ScrappedVideo>

  /** `video_to_recos` and `video_to_recos_date`: per recommended video, the
      estimated recommendation-driven views, in total and per snapshot. The
      per-snapshot shares are keyed by chronological index, which names the
      same snapshot as the date string since the dates are all different. */
  datatype Estimates = Estimates(recos: map<VideoId, int>, byDate: map<VideoId, map<nat, int>>)

  function NoEstimates(): Estimates
  {
    Estimates(map[], map[])
  }

  /** `d[k] += n` on a `defaultdict(int)`. */
  function Bump<K>(m: map<K, int>, k: K, n: int): map<K, int>
  {
    m[k := Get(m, k) + n]
  }

  lemma BumpAt<K>(m: map<K, int>, k: K, n: int, j: K)
    ensures Get(Bump(m, k, n), j) == Get(m, j) + (if j == k then n else 0)
  {
  }

  /** `video_to_recos_date[r]`, empty until `r` is first credited. */
  function DatesOf(e: Estimates, r: VideoId): map<nat, int>
  {
    if r in e.byDate then e.byDate[r] else map[]
  }

  /** The `delta` loop: `amount` more for each of the `n` snapshots from `lo`. */
  function ShareOut(m: map<nat, int>, lo: nat, n: nat, amount: int): map<nat, int>
  {
    if n == 0 then m else Bump(ShareOut(m, lo, n - 1, amount), lo + n - 1, amount)
  }

  /** Each of the `n` snapshots from `lo` gains `amount`, and no other. */
  lemma {:induction false} ShareOutAt(m: map<nat, int>, lo: nat, n: nat, amount: int, i: nat)
    ensures Get(ShareOut(m, lo, n, amount), i) == Get(m, i) + (if lo <= i < lo + n then amount else 0)
  {
    if n > 0 {
      ShareOutAt(m, lo, n - 1, amount, i);
      BumpAt(ShareOut(m, lo, n - 1, amount), lo + n - 1, amount, i);
    }
  }

  /** One persisting recommendation `r` of the interval from `first` to `second`. */
  function CreditReco(e: Estimates, r: VideoId, inc: int, first: nat, second: nat): Estimates
    requires first < second
  {
    var nb := second - first + 1;
    Estimates(Bump(e.recos, r, inc), e.byDate[r := ShareOut(DatesOf(e, r), first, nb, inc / nb)])
  }

  /** The loop over the first observation's recommendations, crediting those
      that the second observation still recommends. */
  function CreditRecos(e: Estimates, firstRecos: seq<VideoId>, secondRecos: seq<VideoId>,
                       inc: int, first: nat, second: nat): Estimates
    requires first < second
  {
    if firstRecos == [] then e
    else
      var before := CreditRecos(e, firstRecos[..|firstRecos| - 1], secondRecos, inc, first, second);
      var r := firstRecos[|firstRecos| - 1];
      if r in secondRecos then CreditReco(before, r, inc, first, second) else before
  }

  /** The credit of one pair of consecutive observations of a video. */
  function CreditPair(e: Estimates, fv: ScrappedVideo, sv: ScrappedVideo, first: nat, second: nat): Estimates
    requires first < second
  {
    var inc := sv.views - fv.views;
    if inc > 0 then CreditRecos(e, fv.recommendations, sv.recommendations, inc, first, second) else e
  }

  /** The next observation of `v` from index `i` on, `|chrono|` when there is none. */
  function NextObs(chrono: seq<Snapshot>, v: VideoId, i: nat): (j: nat)
    requires i <= |chrono|
    ensures i <= j <= |chrono|
    ensures j < |chrono| ==> v in chrono[j]
    ensures forall k :: i <= k < j ==> v !in chrono[k]
    decreases |chrono| - i
  {
    if i == |chrono| || v in chrono[i] then i else NextObs(chrono, v, i + 1)
  }

  /** The estimator's scan of one video from index `first` on. */
  function EstimateVideo(chrono: seq<Snapshot>, v: VideoId, first: nat, e: Estimates): Estimates
    requires first <= |chrono|
    decreases |chrono| - first
  {
    if first + 1 >= |chrono| then e
    else if v !in chrono[first] then EstimateVideo(chrono, v, first + 1, e)
    else
      var second := NextObs(chrono, v, first + 1);
      if second >= |chrono| then e
      else EstimateVideo(chrono, v, second, CreditPair(e, chrono[first][v], chrono[second][v], first, second))
  }

  /** The scan of every video, in the order given. */
  function EstimateEach(chrono: seq<Snapshot>, vids: seq<VideoId>, e: Estimates): Estimates
  {
    if vids == [] then e
    else EstimateVideo(chrono, vids[|vids| - 1], 0, EstimateEach(chrono, vids[..|vids| - 1], e))
  }

  // ---------------------------------------------------------------------------
  // The independent description: credit every pair of consecutive observations.

  /** The indices from `from` on at which `v` was observed, in increasing order. */
  function Observed(chrono: seq<Snapshot>, v: VideoId, from: nat): seq<nat>
    requires from <= |chrono|
    decreases |chrono| - from
  {
    if from == |chrono| then []
    else (if v in chrono[from] then [from] else []) + Observed(chrono, v, from + 1)
  }

  /** Valid observation lists: increasing indices at which `v` was observed. */
  ghost predicate Observations(chrono: seq<Snapshot>, v: VideoId, obs: seq<nat>)
  {
    && (forall k :: 0 <= k < |obs| ==> obs[k] < |chrono| && v in chrono[obs[k]])
    && (forall a, b :: 0 <= a < b < |obs| ==> obs[a] < obs[b])
  }

  /** The credits of every pair of consecutive entries of `obs`, oldest first. */
  ghost function ChainCredit(e: Estimates, chrono: seq<Snapshot>, v: VideoId, obs: seq<nat>): Estimates
    requires Observations(chrono, v, obs)
    decreases |obs|
  {
    if |obs| < 2 then e
    else ChainCredit(CreditPair(e, chrono[obs[0]][v], chrono[obs[1]][v], obs[0], obs[1]), chrono, v, obs[1..])
  }

  /** The observed indices from `from` on are increasing indices of snapshots holding `v`. */
  lemma {:induction false} ObservedFacts(chrono: seq<Snapshot>, v: VideoId, from: nat)
    requires from <= |chrono|
    ensures var obs := Observed(chrono, v, from);
      && Observations(chrono, v, obs)
      && (forall k :: 0 <= k < |obs| ==> from <= obs[k])
    decreases |chrono| - from
  {
    if from < |chrono| {
      ObservedFacts(chrono, v, from + 1);
      var tail := Observed(chrono, v, from + 1);
      if v in chrono[from] {
        var obs := [from] + tail;
        assert forall k :: 0 < k < |obs| ==> obs[k] == tail[k - 1];
      }
    }
  }

  /** The observed indices are exactly those of the snapshots holding `v`. */
  lemma {:induction false} ObservedMembers(chrono: seq<Snapshot>, v: VideoId, from: nat, k: nat)
    requires from <= |chrono|
    ensures k in Observed(chrono, v, from) <==> from <= k < |chrono| && v in chrono[k]
    decreases |chrono| - from
  {
    if from < |chrono| {
      ObservedMembers(chrono, v, from + 1, k);
    }
  }

  lemma ObservedAt(chrono: seq<Snapshot>, v: VideoId, j: nat)
    requires j < |chrono| && v in chrono[j]
    ensures Observed(chrono, v, j) == [j] + Observed(chrono, v, j + 1)
  {
  }

  /** Crediting a chain that starts at `first` credits its first pair, then the rest. */
  lemma ChainStep(e: Estimates, chrono: seq<Snapshot>, v: VideoId, first: nat, rest: seq<nat>)
    requires Observations(chrono, v, [first] + rest) && rest != []
    ensures Observations(chrono, v, rest)
    ensures ChainCredit(e, chrono, v, [first] + rest)
         == ChainCredit(CreditPair(e, chrono[first][v], chrono[rest[0]][v], first, rest[0]), chrono, v, rest)
  {
    var obs := [first] + rest;
    assert obs[1..] == rest && obs[0] == first && obs[1] == rest[0];
    assert forall k :: 0 <= k < |rest| ==> rest[k] == obs[k + 1];
  }

  /** Observations of `v` from `i` on are those from its next observation on. */
  lemma {:induction false} ObservedFromNext(chrono: seq<Snapshot>, v: VideoId, i: nat)
    requires i <= |chrono|
    ensures Observed(chrono, v, i) == Observed(chrono, v, NextObs(chrono, v, i))
    decreases |chrono| - i
  {
    if i < |chrono| && v !in chrono[i] {
      ObservedFromNext(chrono, v, i + 1);
    }
  }

  /** The scan skips a snapshot without the video, and so does the chain. */
  lemma SkipUnobserved(chrono: seq<Snapshot>, v: VideoId, first: nat, e: Estimates)
    requires first + 1 < |chrono| && v !in chrono[first]
    ensures EstimateVideo(chrono, v, first, e) == EstimateVideo(chrono, v, first + 1, e)
    ensures Observed(chrono, v, first) == Observed(chrono, v, first + 1)
  {
    assert Observed(chrono, v, first) == [] + Observed(chrono, v, first + 1);
  }

  /** From an observation with a later one, the scan credits that pair and
      goes on from the later observation. */
  lemma ScanNextPair(chrono: seq<Snapshot>, v: VideoId, first: nat, e: Estimates)
    requires first + 1 < |chrono| && v in chrono[first]
    requires NextObs(chrono, v, first + 1) < |chrono|
    ensures var second := NextObs(chrono, v, first + 1);
      EstimateVideo(chrono, v, first, e)
        == EstimateVideo(chrono, v, second, CreditPair(e, chrono[first][v], chrono[second][v], first, second))
  {
  }

  /** From an observation with a later one, the chain credits that pair and
      goes on from the later observation. */
  lemma ChainNextPair(chrono: seq<Snapshot>, v: VideoId, first: nat, e: Estimates)
    requires first + 1 < |chrono| && v in chrono[first]
    requires NextObs(chrono, v, first + 1) < |chrono|
    ensures var second := NextObs(chrono, v, first + 1);
      && Observations(chrono, v, Observed(chrono, v, first))
      && Observations(chrono, v, Observed(chrono, v, second))
      && ChainCredit(e, chrono, v, Observed(chrono, v, first))
         == ChainCredit(CreditPair(e, chrono[first][v], chrono[second][v], first, second), chrono, v, Observed(chrono, v, second))
  {
    var second := NextObs(chrono, v, first + 1);
    var rest := Observed(chrono, v, second);
    assert Observed(chrono, v, first) == [first] + rest by {
      ObservedAt(chrono, v, first);
      ObservedFromNext(chrono, v, first + 1);
    }
    assert rest != [] && rest[0] == second by {
      ObservedAt(chrono, v, second);
    }
    assert Observations(chrono, v, [first] + rest) by {
      ObservedFacts(chrono, v, first);
    }
    ChainStep(e, chrono, v, first, rest);
  }

  /** From an observation without a later one, neither the scan nor the chain credits anything. */
  lemma LastObservation(chrono: seq<Snapshot>, v: VideoId, first: nat, e: Estimates)
    requires first + 1 < |chrono| && v in chrono[first]
    requires NextObs(chrono, v, first + 1) == |chrono|
    ensures EstimateVideo(chrono, v, first, e) == e
    ensures Observed(chrono, v, first) == [first]
  {
    ObservedFromNext(chrono, v, first + 1);
    assert Observed(chrono, v, |chrono|) == [];
    ObservedAt(chrono, v, first);
  }

  /** From the last snapshot on, there is at most one observation. */
  lemma LastSnapshot(chrono: seq<Snapshot>, v: VideoId, first: nat)
    requires first <= |chrono| && first + 1 >= |chrono|
    ensures |Observed(chrono, v, first)| <= 1
  {
    if first < |chrono| {
      assert Observed(chrono, v, first + 1) == [];
    }
  }

  /** The scan credits exactly the pairs of consecutive observations. */
  lemma {:induction false} EstimateIsChain(chrono: seq<Snapshot>, v: VideoId, first: nat, e: Estimates)
    requires first <= |chrono|
    ensures Observations(chrono, v, Observed(chrono, v, first))
         && EstimateVideo(chrono, v, first, e) == ChainCredit(e, chrono, v, Observed(chrono, v, first))
    decreases |chrono| - first
  {
    ObservedFacts(chrono, v, first);
    if first + 1 >= |chrono| {
      LastSnapshot(chrono, v, first);
    } else if v !in chrono[first] {
      SkipUnobserved(chrono, v, first, e);
      EstimateIsChain(chrono, v, first + 1, e);
    } else if NextObs(chrono, v, first + 1) < |chrono| {
      var second := NextObs(chrono, v, first + 1);
      ScanNextPair(chrono, v, first, e);
      ChainNextPair(chrono, v, first, e);
      EstimateIsChain(chrono, v, second, CreditPair(e, chrono[first][v], chrono[second][v], first, second));
    } else {
      LastObservation(chrono, v, first, e);
    }
  }

  /** A video observed at most once is unobservable and credits nothing. */
  lemma SingleObservation(chrono: seq<Snapshot>, v: VideoId, e: Estimates)
    requires |Observed(chrono, v, 0)| < 2
    ensures EstimateVideo(chrono, v, 0, e) == e
  {
    EstimateIsChain(chrono, v, 0, e);
  }

  // ---------------------------------------------------------------------------
  // The attribution of one interval.

  /** For the interval from `first` to `second` with increase `inc`, `r` gains
      `inc` per occurrence in the first list when the second list still holds
      it, and nothing otherwise (the persistence filter); each snapshot of the
      interval gains `inc / (second - first + 1)` per such occurrence. */
  lemma {:induction false} CreditRecosAt(e: Estimates, fr: seq<VideoId>, sr: seq<VideoId>, inc: int,
                                         first: nat, second: nat, r: VideoId, i: nat)
    requires first < second
    ensures var c := CreditRecos(e, fr, sr, inc, first, second);
      var n := if r in sr then multiset(fr)[r] else 0;
      && Get(c.recos, r) == Get(e.recos, r) + n * inc
      && Get(DatesOf(c, r), i) == Get(DatesOf(e, r), i) + (if first <= i <= second then n * (inc / (second - first + 1)) else 0)
  {
    if fr != [] {
      var init, last := fr[..|fr| - 1], fr[|fr| - 1];
      var n0 := if r in sr then multiset(init)[r] else 0;
      var hit := r in sr && last == r;
      assert (if r in sr then multiset(fr)[r] else 0) == n0 + (if hit then 1 else 0) by {
        assert fr == init + [last];
      }
      CreditRecosAt(e, init, sr, inc, first, second, r, i);
      CreditStep(CreditRecos(e, init, sr, inc, first, second), last, sr, inc, first, second, r, i);
      MulStep(n0, hit, inc);
      MulStep(n0, hit, inc / (second - first + 1));
    }
  }

  lemma MulStep(n0: int, hit: bool, x: int)
    ensures (n0 + (if hit then 1 else 0)) * x == n0 * x + (if hit then x else 0)
  {
  }

  /** What crediting one more recommendation `last` adds at `r` and snapshot `i`. */
  lemma CreditStep(e: Estimates, last: VideoId, sr: seq<VideoId>, inc: int, first: nat, second: nat, r: VideoId, i: nat)
    requires first < second
    ensures var c := if last in sr then CreditReco(e, last, inc, first, second) else e;
      var hit := r in sr && last == r;
      && Get(c.recos, r) == Get(e.recos, r) + (if hit then inc else 0)
      && Get(DatesOf(c, r), i) == Get(DatesOf(e, r), i) + (if hit && first <= i <= second then inc / (second - first + 1) else 0)
  {
    if last in sr {
      var c := CreditReco(e, last, inc, first, second);
      var nb := second - first + 1;
      BumpAt(e.recos, last, inc, r);
      if last != r {
        assert DatesOf(c, r) == DatesOf(e, r);
      } else {
        assert DatesOf(c, r) == ShareOut(DatesOf(e, r), first, nb, inc / nb);
        ShareOutAt(DatesOf(e, r), first, nb, inc / nb, i);
      }
    }
  }

  /** The attribution of a pair of consecutive observations: nothing unless the
      views grew; then `CreditRecosAt` with `inc` the growth. */
  lemma PairAttribution(e: Estimates, fv: ScrappedVideo, sv: ScrappedVideo, first: nat, second: nat, r: VideoId, i: nat)
    requires first < second
    ensures var c := CreditPair(e, fv, sv, first, second);
      var inc := sv.views - fv.views;
      var n := if inc > 0 && r in sv.recommendations then multiset(fv.recommendations)[r] else 0;
      && Get(c.recos, r) == Get(e.recos, r) + n * inc
      && Get(DatesOf(c, r), i) == Get(DatesOf(e, r), i) + (if first <= i <= second then n * (inc / (second - first + 1)) else 0)
  {
    if sv.views - fv.views > 0 {
      CreditRecosAt(e, fv.recommendations, sv.recommendations, sv.views - fv.views, first, second, r, i);
    }
  }

  // ---------------------------------------------------------------------------
  // Soundness: no estimate is negative, and the per-snapshot shares of a video
  // add up to at most its total.

  /** The shares of snapshots `0` to `n - 1`. */
  function SumUpTo(m: map<nat, int>, n: nat): int
  {
    if n == 0 then 0 else SumUpTo(m, n - 1) + Get(m, n - 1)
  }

  /** The estimates of `r` are non-negative and its shares of the first `n`
      snapshots add up to at most its total. */
  ghost predicate SoundAt(e: Estimates, n: nat, r: VideoId)
  {
    && Get(e.recos, r) >= 0
    && (forall i :: Get(DatesOf(e, r), i) >= 0)
    && SumUpTo(DatesOf(e, r), n) <= Get(e.recos, r)
  }

  ghost predicate Sound(e: Estimates, n: nat)
  {
    forall r :: SoundAt(e, n, r)
  }

  lemma {:induction false} SumEmpty(n: nat)
    ensures SumUpTo(map[], n) == 0
  {
    if n > 0 {
      SumEmpty(n - 1);
    }
  }

  lemma {:induction false} BumpSum(m: map<nat, int>, k: nat, a: int, n: nat)
    ensures SumUpTo(Bump(m, k, a), n) == SumUpTo(m, n) + (if k < n then a else 0)
  {
    if n > 0 {
      BumpSum(m, k, a, n - 1);
      BumpAt(m, k, a, n - 1);
    }
  }

  /** Spreading `amount` over `count` snapshots below `n` adds `count * amount` to their sum. */
  lemma {:induction false} ShareOutSum(m: map<nat, int>, lo: nat, count: nat, amount: int, n: nat)
    requires lo + count <= n
    ensures SumUpTo(ShareOut(m, lo, count, amount), n) == SumUpTo(m, n) + count * amount
  {
    if count > 0 {
      ShareOutSum(m, lo, count - 1, amount, n);
      BumpSum(ShareOut(m, lo, count - 1, amount), lo + count - 1, amount, n);
    }
  }

  /** The even split never hands out more than the increase. */
  lemma SplitBound(inc: int, nb: int)
    requires inc >= 0 && nb > 0
    ensures 0 <= nb * (inc / nb) <= inc
  {
    assert inc == nb * (inc / nb) + inc % nb;
  }

  /** Crediting `r` keeps its own estimates sound. */
  lemma CreditRecoSoundAt(e: Estimates, r: VideoId, inc: int, first: nat, second: nat, n: nat)
    requires SoundAt(e, n, r) && inc >= 0 && first < second < n
    ensures SoundAt(CreditReco(e, r, inc, first, second), n, r)
  {
    var nb := second - first + 1;
    var shares := ShareOut(DatesOf(e, r), first, nb, inc / nb);
    assert DatesOf(CreditReco(e, r, inc, first, second), r) == shares;
    assert inc / nb >= 0;
    BumpAt(e.recos, r, inc, r);
    forall i ensures Get(shares, i) >= 0 {
      ShareOutAt(DatesOf(e, r), first, nb, inc / nb, i);
    }
    SplitBound(inc, nb);
    ShareOutSum(DatesOf(e, r), first, nb, inc / nb, n);
  }

  lemma CreditRecoSound(e: Estimates, r: VideoId, inc: int, first: nat, second: nat, n: nat)
    requires Sound(e, n) && inc >= 0 && first < second < n
    ensures Sound(CreditReco(e, r, inc, first, second), n)
  {
    var c := CreditReco(e, r, inc, first, second);
    forall q ensures SoundAt(c, n, q) {
      assert SoundAt(e, n, q);
      if q == r {
        CreditRecoSoundAt(e, r, inc, first, second, n);
      } else {
        assert DatesOf(c, q) == DatesOf(e, q);
        BumpAt(e.recos, r, inc, q);
      }
    }
  }

  lemma {:induction false} CreditRecosSound(e: Estimates, fr: seq<VideoId>, sr: seq<VideoId>, inc: int,
                                            first: nat, second: nat, n: nat)
    requires Sound(e, n) && inc >= 0 && first < second < n
    ensures Sound(CreditRecos(e, fr, sr, inc, first, second), n)
  {
    if fr != [] {
      var init := fr[..|fr| - 1];
      CreditRecosSound(e, init, sr, inc, first, second, n);
      CreditRecoSound(CreditRecos(e, init, sr, inc, first, second), fr[|fr| - 1], inc, first, second, n);
    }
  }

  lemma {:induction false} EstimateVideoSound(chrono: seq<Snapshot>, v: VideoId, first: nat, e: Estimates)
    requires first <= |chrono| && Sound(e, |chrono|)
    ensures Sound(EstimateVideo(chrono, v, first, e), |chrono|)
    decreases |chrono| - first
  {
    if first + 1 >= |chrono| {
    } else if v !in chrono[first] {
      EstimateVideoSound(chrono, v, first + 1, e);
    } else {
      var second := NextObs(chrono, v, first + 1);
      if second < |chrono| {
        var fv, sv := chrono[first][v], chrono[second][v];
        if sv.views - fv.views > 0 {
          CreditRecosSound(e, fv.recommendations, sv.recommendations, sv.views - fv.views, first, second, |chrono|);
        }
        EstimateVideoSound(chrono, v, second, CreditPair(e, fv, sv, first, second));
      }
    }
  }

  /** All estimates are non-negative, and the per-snapshot shares of every
      video add up to at most its total estimate. */
  lemma {:induction false} EstimateEachSound(chrono: seq<Snapshot>, vids: seq<VideoId>)
    ensures Sound(EstimateEach(chrono, vids, NoEstimates()), |chrono|)
  {
    if vids == [] {
      SumEmpty(|chrono|);
      assert forall r :: DatesOf(NoEstimates(), r) == map[];
    } else {
      EstimateEachSound(chrono, vids[..|vids| - 1]);
      EstimateVideoSound(chrono, vids[|vids| - 1], 0, EstimateEach(chrono, vids[..|vids| - 1], NoEstimates()));
    }
  }

  // ---------------------------------------------------------------------------
  // The loops.

  /** The `delta` loop of one credited recommendation. */
  method ShareDates(m: map<nat, int>, lo: nat, n: nat, amount: int) returns (r: map<nat, int>)
    ensures r == ShareOut(m, lo, n, amount)
  {
    r := m;
    for delta := 0 to n
      invariant r == ShareOut(m, lo, delta, amount)
    {
      r := r[lo + delta := Get(r, lo + delta) + amount];
    }
  }

  /** The crediting of one interval between observations `fv` at `first` and `sv` at `second`. */
  method CreditInterval(e: Estimates, fv: ScrappedVideo, sv: ScrappedVideo, first: nat, second: nat)
    returns (e': Estimates)
    requires first < second
    ensures e' == CreditPair(e, fv, sv, first, second)
  {
    e' := e;
    var inc := sv.views - fv.views;
    if inc > 0 {
      var recos := fv.recommendations;
      for k := 0 to |recos|
        invariant e' == CreditRecos(e, recos[..k], sv.recommendations, inc, first, second)
      {
        assert recos[..k + 1][..k] == recos[..k];
        var r := recos[k];
        if r in sv.recommendations {
          var nb := second - first + 1;
          var shares := ShareDates(DatesOf(e', r), first, nb, inc / nb);
          e' := Estimates(e'.recos[r := Get(e'.recos, r) + inc], e'.byDate[r := shares]);
        }
      }
      assert recos[..|recos|] == recos;
    }
  }

  /** The two nested `while` loops for one video: find an observation, find the
      next one, credit the interval, and go on from the second observation. */
  method ScanVideo(chrono: seq<Snapshot>, v: VideoId, e: Estimates) returns (e': Estimates)
    ensures e' == EstimateVideo(chrono, v, 0, e)
  {
    e' := e;
    var first := 0;
    while first + 1 < |chrono|
      invariant first <= |chrono|
      invariant EstimateVideo(chrono, v, first, e') == EstimateVideo(chrono, v, 0, e)
      decreases |chrono| - first
    {
      if v !in chrono[first] {
        first := first + 1;
      } else {
        var second := first + 1;
        while second < |chrono| && v !in chrono[second]
          invariant first < second <= |chrono|
          invariant NextObs(chrono, v, first + 1) == NextObs(chrono, v, second)
          decreases |chrono| - second
        {
          second := second + 1;
        }
        if second >= |chrono| {
          first := |chrono|;
        } else {
          e' := CreditInterval(e', chrono[first][v], chrono[second][v], first, second);
          first := second;
        }
      }
    }
  }

  /** The estimator over every scraped video, taken from the set in whatever
      order it yields them (`order`); the result is sound whatever the order. */
  method EstimateAll(chrono: seq<Snapshot>, vids: set<VideoId>) returns (e: Estimates, ghost order: seq<VideoId>)
    ensures Elems(order) == vids && Distinct(order)
    ensures e == EstimateEach(chrono, order, NoEstimates())
    ensures Sound(e, |chrono|)
  {
    e := NoEstimates();
    order := [];
    var rest := vids;
    while rest != {}
      invariant rest <= vids && Elems(order) == vids - rest && Distinct(order)
      invariant e == EstimateEach(chrono, order, NoEstimates())
      decreases rest
    {
      var v :| v in rest;
      e := ScanVideo(chrono, v, e);
      assert (order + [v])[..|order|] == order;
      ElemsSnoc(order, v);
      order := order + [v];
      rest := rest - {v};
    }
    EstimateEachSound(chrono, order);
  }
}
