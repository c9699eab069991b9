// Fastest-mirror selection: every candidate is probed once, in list order,
// and the candidate whose probe succeeded fastest wins; on equal latency the
// earlier candidate is kept, because a candidate replaces the current best
// only when it is strictly faster.

module MirrorSelection {
  import opened Wrappers

  /** `long.MaxValue`, the initial value of the best time so far. */
  const LongMax: int := 0x7FFF_FFFF_FFFF_FFFF

  /** A stopwatch reading in milliseconds: a non-negative `long`. */
  type Millis = x: int | 0 <= x <= LongMax

  /** What the network did with one probe request. `Faulted` covers every
      exception the request raises (timeout, DNS failure, refused connection);
      `Completed` is a response with its status code and the measured latency. */
  datatype Probe = Faulted | Completed(status: nat, elapsedMs: Millis)

  /** `IsSuccessStatusCode`: a status in the 2xx range. */
  predicate IsSuccessStatus(status: int) {
    200 <= status <= 299
  }

  predicate Succeeded(p: Probe) {
    p.Completed? && IsSuccessStatus(p.status)
  }

  /** A probe that can win: it succeeded and beats the initial `long.MaxValue`. */
  predicate Eligible(p: Probe) {
    Succeeded(p) && p.elapsedMs < LongMax
  }

  predicate NoneEligible(probes: seq<Probe>) {
    forall j :: 0 <= j < |probes| ==> !Eligible(probes[j])
  }

  /** Candidate `k` is the one the selection promises: it succeeded, no
      successful candidate was faster, and every successful candidate before
      it was strictly slower. */
  ghost predicate IsFirstFastest(probes: seq<Probe>, k: int) {
    0 <= k < |probes| && Eligible(probes[k]) &&
    (forall j :: 0 <= j < |probes| && Succeeded(probes[j]) ==>
       probes[k].elapsedMs <= probes[j].elapsedMs) &&
    (forall j :: 0 <= j < k && Succeeded(probes[j]) ==>
       probes[k].elapsedMs < probes[j].elapsedMs)
  }

  /** The best time after scanning `probes` with current best `w`. */
  function BestTime(probes: seq<Probe>, w: Option<nat>): int
    requires w.Some? ==> w.value < |probes| && probes[w.value].Completed?
  {
    if w.None? then LongMax else probes[w.value].elapsedMs
  }

  /** The selection loop as a recursive function over the probes made so far,
      tracking the index of the current best candidate. */
  function Winner(probes: seq<Probe>): (w: Option<nat>)
    ensures w.Some? ==> w.value < |probes| && Eligible(probes[w.value])
    decreases |probes|
  {
    if probes == [] then None
    else
      var before := probes[..|probes| - 1];
      var best := Winner(before);
      var last := probes[|probes| - 1];
      if Succeeded(last) && last.elapsedMs < BestTime(before, best)
      then Some(|probes| - 1)
      else best
  }

  /** The selection result: nothing exactly when no probe is eligible, and
      otherwise the first fastest candidate. */
  lemma {:induction false} WinnerIsFirstFastest(probes: seq<Probe>)
    ensures Winner(probes).None? <==> NoneEligible(probes)
    ensures Winner(probes).Some? ==> IsFirstFastest(probes, Winner(probes).value)
    decreases |probes|
  {
    if probes != [] {
      var n := |probes| - 1;
      var before := probes[..n];
      WinnerIsFirstFastest(before);
      assert forall j :: 0 <= j < n ==> before[j] == probes[j];
      var best := Winner(before);
      var last := probes[n];
      if Succeeded(last) && last.elapsedMs < BestTime(before, best) {
        assert Eligible(last);
        if best.None? {
          forall j | 0 <= j < |probes| && Succeeded(probes[j])
            ensures last.elapsedMs < probes[j].elapsedMs || j == n
          {
            if j < n { assert !Eligible(before[j]); }
          }
        } else {
          assert IsFirstFastest(before, best.value);
        }
      } else if best.None? {
        assert !Eligible(last);
      } else {
        assert IsFirstFastest(before, best.value);
      }
    }
  }

  /** The specification determines the winner: at most one index satisfies it. */
  lemma FirstFastestIsUnique(probes: seq<Probe>, k1: int, k2: int)
    requires IsFirstFastest(probes, k1) && IsFirstFastest(probes, k2)
    ensures k1 == k2
  {
  }

  /** `GetFastestUrlAsync` as a function: the URL of the winning candidate, or
      `None` (the C# `null`) when no probe was eligible. */
  function FastestUrl(urls: seq<string>, probes: seq<Probe>): (r: Option<string>)
    requires |probes| == |urls|
    ensures r.None? <==> NoneEligible(probes)
    ensures r.Some? ==> exists k :: IsFirstFastest(probes, k) && urls[k] == r.value
  {
    WinnerIsFirstFastest(probes);
    match Winner(probes)
    case None => None
    case Some(k) => Some(urls[k])
  }

  /** `GetFastestUrlAsync`: probes each URL in turn (the i-th probe's outcome
      is `probes[i]`) and keeps the strictly fastest success. A faulted probe
      is swallowed and the scan goes on. The ghost `probed` lists the requests
      issued, in order. */
  method SelectFastest(urls: seq<string>, probes: seq<Probe>)
    returns (fastestUrl: Option<string>, ghost probed: seq<string>)
    requires |probes| == |urls|
    ensures probed == urls
    ensures fastestUrl.None? <==> NoneEligible(probes)
    ensures fastestUrl.Some? ==>
      exists k :: IsFirstFastest(probes, k) && urls[k] == fastestUrl.value
    ensures fastestUrl == FastestUrl(urls, probes)
  {
    fastestUrl := None;
    var fastestTime: int := LongMax;
    probed := [];
    for i := 0 to |urls|
      invariant probed == urls[..i]
      invariant fastestTime == BestTime(probes[..i], Winner(probes[..i]))
      invariant fastestUrl == match Winner(probes[..i])
                              case None => None
                              case Some(k) => Some(urls[k])
    {
      assert probes[..i + 1][..i] == probes[..i];
      assert urls[..i + 1] == urls[..i] + [urls[i]];
      probed := probed + [urls[i]];
      match probes[i]
      case Faulted =>
      case Completed(status, elapsedMs) =>
        if IsSuccessStatus(status) && elapsedMs < fastestTime {
          fastestTime := elapsedMs;
          fastestUrl := Some(urls[i]);
        }
    }
    assert probes[..|urls|] == probes;
    assert urls[..|urls|] == urls;
    WinnerIsFirstFastest(probes);
  }

  /** Shifts an index of the list with entry `i` removed back to the full list. */
  function Unskip(w: Option<nat>, i: nat): Option<nat> {
    match w
    case None => None
    case Some(k) => Some(if k < i then k else k + 1)
  }

  lemma {:induction false} WinnerSkipsFailedProbe(probes: seq<Probe>, i: nat)
    requires i < |probes| && !Succeeded(probes[i])
    ensures var rest := probes[..i] + probes[i + 1..];
      Winner(probes) == Unskip(Winner(rest), i)
    decreases |probes|
  {
    var rest := probes[..i] + probes[i + 1..];
    var n := |probes| - 1;
    if i == n {
      assert rest == probes[..n];
    } else {
      var before := probes[..n];
      var restBefore := rest[..|rest| - 1];
      assert restBefore == before[..i] + before[i + 1..];
      WinnerSkipsFailedProbe(before, i);
      assert rest[|rest| - 1] == probes[n];
      assert BestTime(before, Winner(before)) == BestTime(restBefore, Winner(restBefore));
    }
  }

  /** Failure isolation: a probe that failed, at any position, has no effect
      on the selection; dropping it from the list selects the same URL. */
  lemma FailedProbeIsIgnored(urls: seq<string>, probes: seq<Probe>, i: nat)
    requires |probes| == |urls| && i < |probes| && !Succeeded(probes[i])
    ensures FastestUrl(urls, probes) ==
            FastestUrl(urls[..i] + urls[i + 1..], probes[..i] + probes[i + 1..])
  {
    WinnerSkipsFailedProbe(probes, i);
  }

  /** A faulted mirror, a slow one and a fast one: the fast one is selected. */
  lemma FasterMirrorWins(a: string, b: string, c: string)
    ensures FastestUrl([a, b, c], [Faulted, Completed(200, 200), Completed(200, 80)]) == Some(c)
  {
  }

  /** Two mirrors equally fast: the earlier one is kept. */
  lemma TieGoesToEarlierMirror(a: string, b: string)
    ensures FastestUrl([a, b], [Completed(200, 50), Completed(204, 50)]) == Some(a)
  {
  }

  /** Every probe faulted or answered with a non-2xx status: nothing is selected. */
  lemma AllProbesFailed(a: string, b: string)
    ensures FastestUrl([a, b], [Faulted, Completed(503, 10)]) == None
  {
  }
}
