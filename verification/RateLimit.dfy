// The per-client sliding-window limiter of internal/middleware.

// Reference: a log of admitted requests that never forgets.
module AdmissionLog {
  type Time = int
  type Ip = string
  datatype Hit = Hit(ip: Ip, at: Time)

  function Times(log: seq<Hit>, ip: Ip): seq<Time> {
    if log == [] then []
    else
      var before, last := Times(log[..|log| - 1], ip), log[|log| - 1];
      if last.ip == ip then before + [last.at] else before
  }

  // Times less than one window old.
  function Live(ts: seq<Time>, now: Time, window: int): (r: seq<Time>)
    ensures |r| <= |ts|
  {
    if ts == [] then []
    else
      var before, last := Live(ts[..|ts| - 1], now, window), ts[|ts| - 1];
      if now - last < window then before + [last] else before
  }

  // Times in the interval that starts at `from` and is shorter than the window.
  function Within(ts: seq<Time>, from: Time, window: int): seq<Time> {
    if ts == [] then []
    else
      var before, last := Within(ts[..|ts| - 1], from, window), ts[|ts| - 1];
      if from <= last < from + window then before + [last] else before
  }

  predicate Admits(log: seq<Hit>, max: int, window: int, request: Hit) {
    |Live(Times(log, request.ip), request.at, window)| < max
  }

  // Requests admitted out of a whole run.
  function Admitted(requests: seq<Hit>, max: int, window: int): seq<Hit> {
    if requests == [] then []
    else
      var log, last := Admitted(requests[..|requests| - 1], max, window), requests[|requests| - 1];
      if Admits(log, max, window, last) then log + [last] else log
  }

  lemma LiveAppend(ts: seq<Time>, t: Time, now: Time, window: int)
    ensures Live(ts + [t], now, window) == Live(ts, now, window) + if now - t < window then [t] else []
  {
    assert (ts + [t])[..|ts|] == ts;
  }

  lemma TimesAppend(log: seq<Hit>, hit: Hit, ip: Ip)
    ensures Times(log + [hit], ip) == Times(log, ip) + if hit.ip == ip then [hit.at] else []
  {
    assert (log + [hit])[..|log|] == log;
  }

  lemma {:induction false} WithinIsLive(ts: seq<Time>, from: Time, now: Time, window: int)
    requires from <= now < from + window
    ensures |Within(ts, from, window)| <= |Live(ts, now, window)|
  {
    if ts != [] {
      WithinIsLive(ts[..|ts| - 1], from, now, window);
    }
  }

  // At most `max` requests of one client are admitted in any interval shorter
  // than the window, wherever it starts.
  lemma {:induction false} AtMostMax(requests: seq<Hit>, max: int, window: int, ip: Ip, from: Time)
    ensures |Within(Times(Admitted(requests, max, window), ip), from, window)| <= if max < 0 then 0 else max
  {
    if requests != [] {
      var before, last := requests[..|requests| - 1], requests[|requests| - 1];
      var log := Admitted(before, max, window);
      AtMostMax(before, max, window, ip, from);
      if Admits(log, max, window, last) && last.ip == ip {
        var ts := Times(log, ip);
        TimesAppend(log, last, ip);
        assert (ts + [last.at])[..|ts|] == ts;
        if from <= last.at < from + window {
          WithinIsLive(ts, from, last.at, window);
        }
      } else if Admits(log, max, window, last) {
        TimesAppend(log, last, ip);
      }
    }
  }
}

// What the slices hold and decide, request by request, in the order in which
// the requests take the lock. A request reads its time before it takes the lock,
// so that order need not be the order of the times.
module Slices {
  import opened AdmissionLog

  const SWEEP_ABOVE := 4096

  type View = map<Ip, seq<Time>>

  function Known(view: View, ip: Ip): seq<Time> { if ip in view then view[ip] else [] }

  // What a filter drops.
  function Dead(ts: seq<Time>, now: Time, window: int): seq<Time> {
    if ts == [] then []
    else
      var before, last := Dead(ts[..|ts| - 1], now, window), ts[|ts| - 1];
      if now - last < window then before else before + [last]
  }

  // Filters every slice and forgets the empty ones.
  function Swept(view: View, now: Time, window: int): View {
    map ip | ip in view && Live(view[ip], now, window) != [] :: Live(view[ip], now, window)
  }

  predicate Allows(view: View, max: int, window: int, request: Hit) {
    |Live(Known(view, request.ip), request.at, window)| < max
  }

  // The slices once this request's own is filtered and, if admitted, longer.
  function Entered(view: View, max: int, window: int, request: Hit): View {
    var recent := Live(Known(view, request.ip), request.at, window);
    view[request.ip := if Allows(view, max, window, request) then recent + [request.at] else recent]
  }

  predicate Sweeps(view: View, max: int, window: int, request: Hit) {
    Allows(view, max, window, request) && |Entered(view, max, window, request)| > SWEEP_ABOVE
  }

  function Next(view: View, max: int, window: int, request: Hit): View {
    var entered := Entered(view, max, window, request);
    if Sweeps(view, max, window, request) then Swept(entered, request.at, window) else entered
  }

  // The slices after a run of requests, what was admitted, and what of one
  // client was dropped.
  function ViewOf(requests: seq<Hit>, max: int, window: int): View {
    if requests == [] then map[]
    else Next(ViewOf(requests[..|requests| - 1], max, window), max, window, requests[|requests| - 1])
  }

  function Accepted(requests: seq<Hit>, max: int, window: int): seq<Hit> {
    if requests == [] then []
    else
      var before, last := requests[..|requests| - 1], requests[|requests| - 1];
      Accepted(before, max, window) + if Allows(ViewOf(before, max, window), max, window, last) then [last] else []
  }

  function DroppedBy(view: View, max: int, window: int, request: Hit, ip: Ip): seq<Time> {
    FilteredBy(view, window, request, ip) + SweptBy(view, max, window, request, ip)
  }

  function FilteredBy(view: View, window: int, request: Hit, ip: Ip): seq<Time> {
    if request.ip == ip then Dead(Known(view, ip), request.at, window) else []
  }

  function SweptBy(view: View, max: int, window: int, request: Hit, ip: Ip): seq<Time> {
    if Sweeps(view, max, window, request) then Dead(Known(Entered(view, max, window, request), ip), request.at, window) else []
  }

  function Lost(requests: seq<Hit>, max: int, window: int, ip: Ip): seq<Time> {
    if requests == [] then []
    else
      var before, last := requests[..|requests| - 1], requests[|requests| - 1];
      Lost(before, max, window, ip) + DroppedBy(ViewOf(before, max, window), max, window, last, ip)
  }

  // The admitted times of one client.
  function AcceptedTimes(requests: seq<Hit>, max: int, window: int, ip: Ip): seq<Time> {
    Times(Accepted(requests, max, window), ip)
  }

  // ---- counting ----

  datatype Span = LiveAt(now: Time, window: int) | InWindow(from: Time, window: int)

  predicate In(t: Time, span: Span) {
    match span
    case LiveAt(now, window) => now - t < window
    case InWindow(from, window) => from <= t < from + window
  }

  function Num(ts: seq<Time>, span: Span): nat {
    if ts == [] then 0 else Num(ts[..|ts| - 1], span) + if In(ts[|ts| - 1], span) then 1 else 0
  }

  lemma {:induction false} NumLive(ts: seq<Time>, now: Time, window: int)
    ensures |Live(ts, now, window)| == Num(ts, LiveAt(now, window))
  {
    if ts != [] {
      NumLive(ts[..|ts| - 1], now, window);
    }
  }

  lemma {:induction false} NumWithin(ts: seq<Time>, from: Time, window: int)
    ensures |Within(ts, from, window)| == Num(ts, InWindow(from, window))
  {
    if ts != [] {
      NumWithin(ts[..|ts| - 1], from, window);
    }
  }

  lemma {:induction false} NumConcat(a: seq<Time>, b: seq<Time>, p: Span)
    ensures Num(a + b, p) == Num(a, p) + Num(b, p)
  {
    if b == [] {
      assert a + b == a;
    } else {
      NumConcat(a, b[..|b| - 1], p);
      assert (a + b)[..|a + b| - 1] == a + b[..|b| - 1];
    }
  }

  // A filter splits a slice.
  lemma {:induction false} NumParts(ts: seq<Time>, now: Time, window: int, p: Span)
    ensures Num(ts, p) == Num(Live(ts, now, window), p) + Num(Dead(ts, now, window), p)
  {
    if ts != [] {
      var before, last := ts[..|ts| - 1], ts[|ts| - 1];
      NumParts(before, now, window, p);
      NumConcat(Live(before, now, window), [last], p);
      NumConcat(Dead(before, now, window), [last], p);
    }
  }

  lemma {:induction false} NumNone(ts: seq<Time>, p: Span)
    requires forall t :: t in ts ==> !In(t, p)
    ensures Num(ts, p) == 0
  {
    if ts != [] {
      assert ts[|ts| - 1] in ts;
      NumNone(ts[..|ts| - 1], p);
    }
  }

  lemma {:induction false} NumMonotone(ts: seq<Time>, p: Span, q: Span)
    requires forall t :: In(t, p) ==> In(t, q)
    ensures Num(ts, p) <= Num(ts, q)
  {
    if ts != [] {
      assert In(ts[|ts| - 1], p) ==> In(ts[|ts| - 1], q);
      NumMonotone(ts[..|ts| - 1], p, q);
    }
  }

  // Every slice is swept when an admitted request leaves more than 4096 clients.
  lemma SweepsIff(view: View, max: int, window: int, request: Hit)
    ensures Sweeps(view, max, window, request) <==>
      |Live(Known(view, request.ip), request.at, window)| < max && |view.Keys + {request.ip}| > 4096
  {
    var entered := Entered(view, max, window, request);
    assert entered.Keys == view.Keys + {request.ip} && |entered| == |entered.Keys|;
  }

  // ---- what is admitted is held or was dropped ----

  // The next slices by the two writes of a request.
  lemma NextByWrites(view: View, max: int, window: int, ip: Ip, now: Time)
    ensures var renewed := view[ip := Live(Known(view, ip), now, window)];
      var entered := renewed[ip := renewed[ip] + [now]];
      && (Allows(view, max, window, Hit(ip, now)) <==> |renewed[ip]| < max)
      && Next(view, max, window, Hit(ip, now)) ==
         if |renewed[ip]| >= max then renewed else if |entered| > SWEEP_ABOVE then Swept(entered, now, window) else entered
  {
    var renewed := view[ip := Live(Known(view, ip), now, window)];
    assert Entered(view, max, window, Hit(ip, now)) == if |renewed[ip]| < max then renewed[ip := renewed[ip] + [now]] else renewed;
  }

  lemma SweptByWrites(view: View, ip: Ip, now: Time, window: int)
    requires ip in view
    ensures var filtered := view[ip := Live(view[ip], now, window)];
      SweptAt(view, ip, now, window) == if |filtered[ip]| == 0 then filtered - {ip} else filtered
  {
  }

  // The same, one client at a time.
  function SweptAt(view: View, ip: Ip, now: Time, window: int): View
    requires ip in view
  {
    var live := Live(view[ip], now, window);
    if live == [] then view - {ip} else view[ip := live]
  }

  ghost predicate SweptSoFar(before: View, view: View, todo: set<Ip>, now: Time, window: int) {
    && todo <= before.Keys && todo <= view.Keys
    && (forall ip :: ip in todo ==> view[ip] == before[ip])
    && (forall ip :: ip in view && ip !in todo <==> ip in Swept(before, now, window) && ip !in todo)
    && (forall ip :: ip in view && ip !in todo ==> ip in before && view[ip] == Live(before[ip], now, window))
  }

  lemma SweptStep(before: View, view: View, todo: set<Ip>, ip: Ip, now: Time, window: int)
    requires SweptSoFar(before, view, todo, now, window) && ip in todo
    ensures SweptSoFar(before, SweptAt(view, ip, now, window), todo - {ip}, now, window)
  {
  }

  lemma SweptDone(before: View, view: View, now: Time, window: int)
    requires SweptSoFar(before, view, {}, now, window)
    ensures view == Swept(before, now, window)
  {
  }

  lemma SweptKnown(view: View, ip: Ip, now: Time, window: int)
    ensures Known(Swept(view, now, window), ip) == Live(Known(view, ip), now, window)
  {
    if ip in view {
      assert Known(view, ip) == view[ip];
    } else {
      assert Known(view, ip) == [];
    }
  }

  // What one request adds to the admitted times of a client.
  function AddedBy(view: View, max: int, window: int, request: Hit, ip: Ip): seq<Time> {
    if Allows(view, max, window, request) && request.ip == ip then [request.at] else []
  }

  lemma AcceptedGrow(requests: seq<Hit>, max: int, window: int, ip: Ip)
    requires requests != []
    ensures var before, last := requests[..|requests| - 1], requests[|requests| - 1];
      AcceptedTimes(requests, max, window, ip)
      == AcceptedTimes(before, max, window, ip) + AddedBy(ViewOf(before, max, window), max, window, last, ip)
  {
    var before, last := requests[..|requests| - 1], requests[|requests| - 1];
    var log := Accepted(before, max, window);
    if Allows(ViewOf(before, max, window), max, window, last) {
      TimesAppend(log, last, ip);
    } else {
      assert log + [] == log && Times(log, ip) + [] == Times(log, ip);
    }
  }

  lemma EnteredSplits(view: View, max: int, window: int, request: Hit, ip: Ip, p: Span)
    ensures Num(Known(Entered(view, max, window, request), ip), p) + Num(FilteredBy(view, window, request, ip), p)
         == Num(Known(view, ip), p) + Num(AddedBy(view, max, window, request, ip), p)
  {
    if request.ip == ip {
      NumParts(Known(view, ip), request.at, window, p);
      NumConcat(Live(Known(view, ip), request.at, window), [request.at], p);
    }
  }

  lemma NextSplits(view: View, max: int, window: int, request: Hit, ip: Ip, p: Span)
    ensures Num(Known(Next(view, max, window, request), ip), p) + Num(DroppedBy(view, max, window, request, ip), p)
         == Num(Known(view, ip), p) + Num(AddedBy(view, max, window, request, ip), p)
  {
    var entered := Entered(view, max, window, request);
    EnteredSplits(view, max, window, request, ip, p);
    NumConcat(FilteredBy(view, window, request, ip), SweptBy(view, max, window, request, ip), p);
    if Sweeps(view, max, window, request) {
      NumParts(Known(entered, ip), request.at, window, p);
      SweptKnown(entered, ip, request.at, window);
      assert Known(Next(view, max, window, request), ip) == Live(Known(entered, ip), request.at, window);
      assert SweptBy(view, max, window, request, ip) == Dead(Known(entered, ip), request.at, window);
    } else {
      assert SweptBy(view, max, window, request, ip) == [];
      assert Num(SweptBy(view, max, window, request, ip), p) == 0;
      assert Known(Next(view, max, window, request), ip) == Known(entered, ip);
    }
    assert Num(Known(Next(view, max, window, request), ip), p) + Num(SweptBy(view, max, window, request, ip), p) == Num(Known(entered, ip), p);
  }

  // Whatever is counted: what was admitted is what the slice holds and what
  // was dropped.
  lemma {:induction false} Split(requests: seq<Hit>, max: int, window: int, ip: Ip, p: Span)
    ensures Num(AcceptedTimes(requests, max, window, ip), p)
         == Num(Known(ViewOf(requests, max, window), ip), p) + Num(Lost(requests, max, window, ip), p)
  {
    if requests != [] {
      var before, last := requests[..|requests| - 1], requests[|requests| - 1];
      var view := ViewOf(before, max, window);
      Split(before, max, window, ip, p);
      NextSplits(view, max, window, last, ip, p);
      NumConcat(Lost(before, max, window, ip), DroppedBy(view, max, window, last, ip), p);
      AcceptedGrow(requests, max, window, ip);
      NumConcat(AcceptedTimes(before, max, window, ip), AddedBy(view, max, window, last, ip), p);
    }
  }

  // ---- the decision ----

  // The limiter refuses only a client of whom max admitted requests are less
  // than a window old, whatever the order of the times.
  lemma RefusalIsDue(requests: seq<Hit>, max: int, window: int, request: Hit)
    requires !Allows(ViewOf(requests, max, window), max, window, request)
    ensures |Live(AcceptedTimes(requests, max, window, request.ip), request.at, window)| >= max
  {
    LiveSplits(requests, max, window, request.ip, request.at);
  }

  lemma LiveSplits(requests: seq<Hit>, max: int, window: int, ip: Ip, now: Time)
    ensures |Live(AcceptedTimes(requests, max, window, ip), now, window)|
         == |Live(Known(ViewOf(requests, max, window), ip), now, window)| + |Live(Lost(requests, max, window, ip), now, window)|
  {
    Split(requests, max, window, ip, LiveAt(now, window));
    NumLive(AcceptedTimes(requests, max, window, ip), now, window);
    NumLive(Known(ViewOf(requests, max, window), ip), now, window);
    NumLive(Lost(requests, max, window, ip), now, window);
  }

  // Exactly when the slice decides otherwise than everything admitted would:
  // when hits dropped at a later time are still live and make up the difference.
  lemma DecidesOtherwiseIff(requests: seq<Hit>, max: int, window: int, request: Hit)
    ensures var held := |Live(Known(ViewOf(requests, max, window), request.ip), request.at, window)|;
      var lost := |Live(Lost(requests, max, window, request.ip), request.at, window)|;
      (Allows(ViewOf(requests, max, window), max, window, request) != Admits(Accepted(requests, max, window), max, window, request))
      <==> held < max <= held + lost
  {
    LiveSplits(requests, max, window, request.ip, request.at);
  }

  lemma {:induction false} FilterHidesIff(ts: seq<Time>, at: Time, now: Time, window: int)
    ensures Live(Live(ts, at, window), now, window) == Live(ts, now, window) <==> Live(Dead(ts, at, window), now, window) == []
  {
    NumParts(ts, at, window, LiveAt(now, window));
    NumLive(ts, now, window);
    NumLive(Live(ts, at, window), now, window);
    NumLive(Dead(ts, at, window), now, window);
    if Live(Dead(ts, at, window), now, window) == [] {
      FilterHides(ts, at, now, window);
    }
  }

  lemma {:induction false} FilterHides(ts: seq<Time>, at: Time, now: Time, window: int)
    requires Live(Dead(ts, at, window), now, window) == []
    ensures Live(Live(ts, at, window), now, window) == Live(ts, now, window)
  {
    if ts != [] {
      var before, last := ts[..|ts| - 1], ts[|ts| - 1];
      LiveAppend(Dead(before, at, window), last, now, window);
      FilterHides(before, at, now, window);
      LiveAppend(Live(before, at, window), last, now, window);
    }
  }

  lemma {:induction false} LiveConcat(a: seq<Time>, b: seq<Time>, now: Time, window: int)
    ensures Live(a + b, now, window) == Live(a, now, window) + Live(b, now, window)
  {
    if b == [] {
      assert a + b == a;
    } else {
      LiveConcat(a, b[..|b| - 1], now, window);
      assert (a + b)[..|a + b| - 1] == a + b[..|b| - 1];
    }
  }

  lemma NextHides(view: View, max: int, window: int, request: Hit, ip: Ip, now: Time)
    requires Live(DroppedBy(view, max, window, request, ip), now, window) == []
    ensures Live(Known(Next(view, max, window, request), ip), now, window)
         == Live(Known(view, ip), now, window) + Live(AddedBy(view, max, window, request, ip), now, window)
  {
    var entered := Entered(view, max, window, request);
    LiveConcat(FilteredBy(view, window, request, ip), SweptBy(view, max, window, request, ip), now, window);
    if request.ip == ip {
      FilterHides(Known(view, ip), request.at, now, window);
      LiveConcat(Live(Known(view, ip), request.at, window), [request.at], now, window);
    }
    if Sweeps(view, max, window, request) {
      FilterHides(Known(entered, ip), request.at, now, window);
      SweptKnown(entered, ip, request.at, window);
    }
  }

  lemma {:induction false} HoldsAllLive(requests: seq<Hit>, max: int, window: int, ip: Ip, now: Time)
    requires Live(Lost(requests, max, window, ip), now, window) == []
    ensures Live(Known(ViewOf(requests, max, window), ip), now, window) == Live(AcceptedTimes(requests, max, window, ip), now, window)
  {
    if requests != [] {
      var before, last := requests[..|requests| - 1], requests[|requests| - 1];
      var view := ViewOf(before, max, window);
      LiveConcat(Lost(before, max, window, ip), DroppedBy(view, max, window, last, ip), now, window);
      HoldsAllLive(before, max, window, ip, now);
      NextHides(view, max, window, last, ip, now);
      AcceptedGrow(requests, max, window, ip);
      LiveConcat(AcceptedTimes(before, max, window, ip), AddedBy(view, max, window, last, ip), now, window);
    }
  }

  // The slice still holds every live admission if and only if none of the hits
  // dropped so far is live; sweeps of other clients' requests included.
  lemma HoldsAllLiveIff(requests: seq<Hit>, max: int, window: int, ip: Ip, now: Time)
    ensures Live(Known(ViewOf(requests, max, window), ip), now, window) == Live(AcceptedTimes(requests, max, window, ip), now, window)
      <==> Live(Lost(requests, max, window, ip), now, window) == []
  {
    LiveSplits(requests, max, window, ip, now);
    if Live(Lost(requests, max, window, ip), now, window) == [] {
      HoldsAllLive(requests, max, window, ip, now);
    }
  }

  // ---- requests out of order ----

  // Whoever dropped a hit was a window later.
  ghost predicate DroppedAt(requests: seq<Hit>, window: int, i: int, t: Time) {
    0 <= i < |requests| && requests[i].at - t >= window
  }

  lemma {:induction false} DeadIsOld(ts: seq<Time>, now: Time, window: int)
    ensures forall t :: t in Dead(ts, now, window) ==> now - t >= window
  {
    if ts != [] {
      DeadIsOld(ts[..|ts| - 1], now, window);
    }
  }

  lemma {:induction false} LostIsOld(requests: seq<Hit>, max: int, window: int, ip: Ip, t: Time) returns (i: int)
    requires t in Lost(requests, max, window, ip)
    ensures DroppedAt(requests, window, i, t)
  {
    var before, last := requests[..|requests| - 1], requests[|requests| - 1];
    if t in Lost(before, max, window, ip) {
      i := LostIsOld(before, max, window, ip, t);
    } else {
      var view := ViewOf(before, max, window);
      DeadIsOld(Known(view, ip), last.at, window);
      DeadIsOld(Known(Entered(view, max, window, last), ip), last.at, window);
      i := |requests| - 1;
    }
  }

  // No request's time is more than d before that of one that had the lock earlier.
  ghost predicate Skewed(requests: seq<Hit>, d: int) {
    forall i, j :: 0 <= i < j < |requests| ==> requests[j].at >= requests[i].at - d
  }

  // Nothing dropped is as young as a window less the skew.
  lemma LostIsOut(requests: seq<Hit>, max: int, window: int, ip: Ip, now: Time, d: int, t: Time)
    requires t in Lost(requests, max, window, ip) && forall i :: 0 <= i < |requests| ==> now >= requests[i].at - d
    ensures now - t >= window - d
  {
    var i := LostIsOld(requests, max, window, ip, t);
    assert DroppedAt(requests, window, i, t);
  }

  // A request no earlier than all before it is decided as the whole log would
  // decide it.
  lemma InOrderIsExact(requests: seq<Hit>, max: int, window: int, request: Hit)
    requires forall i :: 0 <= i < |requests| ==> requests[i].at <= request.at
    ensures Allows(ViewOf(requests, max, window), max, window, request)
        <==> Admits(Accepted(requests, max, window), max, window, request)
  {
    var lost := Lost(requests, max, window, request.ip);
    forall t | t in lost
      ensures !In(t, LiveAt(request.at, window))
    {
      LostIsOut(requests, max, window, request.ip, request.at, 0, t);
    }
    NumNone(lost, LiveAt(request.at, window));
    NumLive(lost, request.at, window);
    LiveSplits(requests, max, window, request.ip, request.at);
  }

  // Requests in order of time are decided exactly as by a log that never forgets.
  lemma {:induction false} OrderedIsExact(requests: seq<Hit>, max: int, window: int)
    requires Skewed(requests, 0)
    ensures Accepted(requests, max, window) == Admitted(requests, max, window)
  {
    if requests != [] {
      var before, last := requests[..|requests| - 1], requests[|requests| - 1];
      OrderedIsExact(before, max, window);
      InOrderIsExact(before, max, window, last);
    }
  }

  // At most `max` requests of one client are admitted in any interval shorter
  // than the window less the skew, wherever it starts.
  lemma {:induction false} AtMostMaxSkewed(requests: seq<Hit>, max: int, window: int, d: nat, ip: Ip, from: Time)
    requires Skewed(requests, d)
    ensures |Within(AcceptedTimes(requests, max, window, ip), from, window - d)| <= if max < 0 then 0 else max
  {
    if requests != [] {
      var before, last := requests[..|requests| - 1], requests[|requests| - 1];
      AtMostMaxSkewed(before, max, window, d, ip, from);
      WithinGrows(requests, max, window, ip, from, window - d);
      if Allows(ViewOf(before, max, window), max, window, last) && last.ip == ip && from <= last.at < from + window - d {
        FewBeforeLast(requests, max, window, d, from);
      }
    }
  }

  lemma WithinGrows(requests: seq<Hit>, max: int, window: int, ip: Ip, from: Time, size: int)
    requires requests != []
    ensures var before, last := requests[..|requests| - 1], requests[|requests| - 1];
      |Within(AcceptedTimes(requests, max, window, ip), from, size)| == |Within(AcceptedTimes(before, max, window, ip), from, size)|
        + if Allows(ViewOf(before, max, window), max, window, last) && last.ip == ip && from <= last.at < from + size then 1 else 0
  {
    var before, last := requests[..|requests| - 1], requests[|requests| - 1];
    var ts, added := AcceptedTimes(before, max, window, ip), AddedBy(ViewOf(before, max, window), max, window, last, ip);
    AcceptedGrow(requests, max, window, ip);
    if added == [] {
      assert ts + added == ts;
    } else {
      WithinAppend(ts, last.at, from, size);
    }
  }

  lemma WithinAppend(ts: seq<Time>, t: Time, from: Time, window: int)
    ensures Within(ts + [t], from, window) == Within(ts, from, window) + if from <= t < from + window then [t] else []
  {
    assert (ts + [t])[..|ts|] == ts;
  }

  lemma LostIsOutside(requests: seq<Hit>, max: int, window: int, ip: Ip, now: Time, d: int, from: Time)
    requires forall i :: 0 <= i < |requests| ==> now >= requests[i].at - d
    requires now < from + window - d
    ensures Num(Lost(requests, max, window, ip), InWindow(from, window - d)) == 0
  {
    var p := InWindow(from, window - d);
    forall t | t in Lost(requests, max, window, ip)
      ensures !In(t, p)
    {
      LostIsOut(requests, max, window, ip, now, d, t);
    }
    NumNone(Lost(requests, max, window, ip), p);
  }

  lemma LostBeforeLast(requests: seq<Hit>, max: int, window: int, d: nat, from: Time)
    requires requests != [] && Skewed(requests, d) && requests[|requests| - 1].at < from + window - d
    ensures Num(Lost(requests[..|requests| - 1], max, window, requests[|requests| - 1].ip), InWindow(from, window - d)) == 0
  {
    var before, last := requests[..|requests| - 1], requests[|requests| - 1];
    LostIsOutside(before, max, window, last.ip, last.at, d, from);
  }

  lemma HeldIsLive(held: seq<Time>, from: Time, now: Time, size: int, window: int)
    requires from <= now < from + size && size <= window
    ensures Num(held, InWindow(from, size)) <= |Live(held, now, window)|
  {
    var p, q := InWindow(from, size), LiveAt(now, window);
    assert forall t :: In(t, p) ==> In(t, q);
    NumMonotone(held, p, q);
    NumLive(held, now, window);
  }

  lemma HeldOrLost(accepted: seq<Time>, held: seq<Time>, lost: seq<Time>, from: Time, now: Time, size: int, window: int)
    requires Num(accepted, InWindow(from, size)) == Num(held, InWindow(from, size)) + Num(lost, InWindow(from, size))
    requires Num(lost, InWindow(from, size)) == 0 && from <= now < from + size && size <= window
    ensures |Within(accepted, from, size)| <= |Live(held, now, window)|
  {
    NumWithin(accepted, from, size);
    HeldIsLive(held, from, now, size, window);
  }

  // What was admitted in the interval of this request, none of it dropped, is in
  // its slice.
  lemma FewWithin(requests: seq<Hit>, max: int, window: int, ip: Ip, from: Time, now: Time, size: int)
    requires Num(Lost(requests, max, window, ip), InWindow(from, size)) == 0
    requires from <= now < from + size && size <= window
    ensures |Within(AcceptedTimes(requests, max, window, ip), from, size)| <= |Live(Known(ViewOf(requests, max, window), ip), now, window)|
  {
    Split(requests, max, window, ip, InWindow(from, size));
    HeldOrLost(AcceptedTimes(requests, max, window, ip), Known(ViewOf(requests, max, window), ip),
               Lost(requests, max, window, ip), from, now, size, window);
  }

  lemma FewBeforeLast(requests: seq<Hit>, max: int, window: int, d: nat, from: Time)
    requires requests != [] && Skewed(requests, d)
    requires from <= requests[|requests| - 1].at < from + window - d
    ensures var before, last := requests[..|requests| - 1], requests[|requests| - 1];
      |Within(AcceptedTimes(before, max, window, last.ip), from, window - d)| <= |Live(Known(ViewOf(before, max, window), last.ip), last.at, window)|
  {
    var before, last := requests[..|requests| - 1], requests[|requests| - 1];
    LostBeforeLast(requests, max, window, d, from);
    FewWithin(before, max, window, last.ip, from, last.at, window - d);
  }

  // The first two requests at 0, the third a window later, and a fourth that
  // read its time d before the third but got the lock after it.
  function Overtaken(ip: Ip, window: int, d: int): seq<Hit> {
    [Hit(ip, 0), Hit(ip, 0), Hit(ip, window)] + [Hit(ip, window - d)]
  }

  // The bound is tight: of two allowed, all four are admitted, three of them
  // within window - d + 1, the last one against what the log would decide.
  lemma SkewAdmitsMore(ip: Ip, window: int, d: int)
    requires 0 < d <= window
    ensures Skewed(Overtaken(ip, window, d), d)
    ensures |Within(AcceptedTimes(Overtaken(ip, window, d), 2, window, ip), 0, window - d + 1)| == 3
    ensures !Admits(Accepted(Overtaken(ip, window, d)[..3], 2, window), 2, window, Overtaken(ip, window, d)[3])
  {
    OvertakenIsAdmitted(ip, window, d);
    OvertakenTimes(ip, window, d);
    ThreeWithin(window, d);
    ThreeLive(window, d);
  }

  lemma OvertakenIsAdmitted(ip: Ip, window: int, d: int)
    requires 0 < d <= window
    ensures Accepted(Overtaken(ip, window, d), 2, window) == Overtaken(ip, window, d)
    ensures Accepted(Overtaken(ip, window, d)[..3], 2, window) == Overtaken(ip, window, d)[..3]
  {
    var three := [Hit(ip, 0), Hit(ip, 0), Hit(ip, window)];
    FirstThree(ip, window);
    LiveAppend([], window, window - d, window);
    assert [] + [window] == [window] && Overtaken(ip, window, d)[..3] == three;
    GrowAlone(three, map[ip := [window]], 2, window, ip, window - d, [window]);
  }

  lemma OvertakenTimes(ip: Ip, window: int, d: int)
    ensures Times(Overtaken(ip, window, d)[..3], ip) == [0, 0, window]
    ensures Times(Overtaken(ip, window, d), ip) == [0, 0, window] + [window - d]
  {
    var three := [Hit(ip, 0), Hit(ip, 0), Hit(ip, window)];
    assert Overtaken(ip, window, d)[..3] == three;
    TimesOfThree(three[0], three[1], three[2]);
    TimesAppend(three, Hit(ip, window - d), ip);
  }

  lemma ThreeLive(window: int, d: int)
    requires 0 < d <= window
    ensures |Live([0, 0, window], window - d, window)| == 3
  {
    LiveAppend([0, 0], window, window - d, window);
    LiveAppend([0], 0, window - d, window);
    LiveAppend([], 0, window - d, window);
    assert [0, 0] + [window] == [0, 0, window] && [0] + [0] == [0, 0] && [] + [0] == [0];
  }

  lemma ThreeWithin(window: int, d: int)
    requires 0 < d <= window
    ensures |Within([0, 0, window] + [window - d], 0, window - d + 1)| == 3
  {
    WithinAppend([0, 0, window], window - d, 0, window - d + 1);
    WithinAppend([0, 0], window, 0, window - d + 1);
    WithinAppend([0], 0, 0, window - d + 1);
    WithinAppend([], 0, 0, window - d + 1);
    assert [0, 0] + [window] == [0, 0, window] && [0] + [0] == [0, 0] && [] + [0] == [0];
  }

  lemma TimesOfThree(a: Hit, b: Hit, c: Hit)
    requires a.ip == b.ip == c.ip
    ensures Times([a, b, c], a.ip) == [a.at, b.at, c.at]
  {
    TimesAppend([a, b], c, a.ip);
    TimesAppend([a], b, a.ip);
    assert [a, b] + [c] == [a, b, c] && [a] + [b] == [a, b];
  }

  // An admitted request of the only client, who is never swept.
  lemma Alone(view: View, max: int, window: int, ip: Ip, now: Time, live: seq<Time>)
    requires view.Keys <= {ip} && Live(Known(view, ip), now, window) == live && |live| < max
    ensures Allows(view, max, window, Hit(ip, now))
    ensures Next(view, max, window, Hit(ip, now)) == map[ip := live + [now]]
  {
    var entered := Entered(view, max, window, Hit(ip, now));
    assert entered.Keys == {ip} && |entered| == |entered.Keys|;
  }

  lemma GrowAlone(requests: seq<Hit>, view: View, max: int, window: int, ip: Ip, now: Time, live: seq<Time>)
    requires ViewOf(requests, max, window) == view && Accepted(requests, max, window) == requests
    requires view.Keys <= {ip} && Live(Known(view, ip), now, window) == live && |live| < max
    ensures ViewOf(requests + [Hit(ip, now)], max, window) == map[ip := live + [now]]
    ensures Accepted(requests + [Hit(ip, now)], max, window) == requests + [Hit(ip, now)]
  {
    Grow(requests, Hit(ip, now), max, window);
    Alone(view, max, window, ip, now, live);
  }

  // Two requests at 0 and one a window later, of two allowed.
  lemma FirstThree(ip: Ip, window: int)
    requires 0 < window
    ensures var requests := [Hit(ip, 0), Hit(ip, 0), Hit(ip, window)];
      ViewOf(requests, 2, window) == map[ip := [window]] && Accepted(requests, 2, window) == requests
  {
    var a := Hit(ip, 0);
    LiveAppend([], 0, 0, window);
    LiveAppend([], 0, window, window);
    LiveAppend([0], 0, window, window);
    assert [] + [0] == [0] && [0] + [0] == [0, 0] && [] + [window] == [window];
    GrowAlone([], map[], 2, window, ip, 0, []);
    assert [] + [a] == [a];
    GrowAlone([a], map[ip := [0]], 2, window, ip, 0, [0]);
    assert [a] + [a] == [a, a];
    GrowAlone([a, a], map[ip := [0, 0]], 2, window, ip, window, []);
    assert [a, a] + [Hit(ip, window)] == [a, a, Hit(ip, window)];
  }

  lemma Grow(requests: seq<Hit>, request: Hit, max: int, window: int)
    ensures ViewOf(requests + [request], max, window) == Next(ViewOf(requests, max, window), max, window, request)
    ensures Accepted(requests + [request], max, window)
         == Accepted(requests, max, window) + if Allows(ViewOf(requests, max, window), max, window, request) then [request] else []
  {
    assert (requests + [request])[..|requests|] == requests;
  }

  // For instance: three within 60 where two are allowed.
  lemma ThreeInAMinute(ip: Ip)
    ensures var requests := [Hit(ip, 0), Hit(ip, 0), Hit(ip, 60), Hit(ip, 59)];
      |Within(AcceptedTimes(requests, 2, 60, ip), 0, 60)| == 3
  {
    assert Overtaken(ip, 60, 1) == [Hit(ip, 0), Hit(ip, 0), Hit(ip, 60), Hit(ip, 59)];
    SkewAdmitsMore(ip, 60, 1);
  }

  // The sweep shows, to a request at a later moment, exactly when a hit it
  // dropped is still live then; never to a request of a later time.
  lemma SweepShowsIff(view: View, ip: Ip, at: Time, now: Time, window: int)
    ensures Live(Known(Swept(view, at, window), ip), now, window) == Live(Known(view, ip), now, window)
      <==> Live(Dead(Known(view, ip), at, window), now, window) == []
    ensures at <= now ==> Live(Known(Swept(view, at, window), ip), now, window) == Live(Known(view, ip), now, window)
  {
    var ts := Known(view, ip);
    SweptKnown(view, ip, at, window);
    FilterHidesIff(ts, at, now, window);
    if at <= now {
      DeadIsOld(ts, at, window);
      NumNone(Dead(ts, at, window), LiveAt(now, window));
      NumLive(Dead(ts, at, window), now, window);
    }
  }
}

// The limiter, with its slices filtered in place and its sweep.
module RateLimit {
  import opened AdmissionLog
  import opened Slices

  // A Go slice: the first `len` elements of an array it may share or outgrow.
  datatype Slice = Slice(data: array<Time>, len: nat)

  // Keeps the live elements, written over the front of the same array.
  method KeepLive(s: Slice, now: Time, window: int) returns (kept: Slice)
    requires s.len <= s.data.Length
    modifies s.data
    ensures kept.data == s.data && kept.len <= s.len
    ensures kept.data[..kept.len] == Live(old(s.data[..s.len]), now, window)
  {
    ghost var before := s.data[..s.len];
    var n := 0;
    for i := 0 to s.len
      invariant n <= i
      invariant s.data[..n] == Live(before[..i], now, window)
      invariant forall k :: i <= k < s.len ==> s.data[k] == before[k]
    {
      var t := s.data[i];
      assert before[..i + 1] == before[..i] + [t];
      LiveAppend(before[..i], t, now, window);
      if now - t < window {
        s.data[n] := t;
        n := n + 1;
      }
    }
    assert before[..s.len] == before;
    kept := Slice(s.data, n);
  }

  // append: in place while there is capacity, into a larger array otherwise.
  method Append(s: Slice, t: Time) returns (r: Slice)
    requires s.len <= s.data.Length
    modifies s.data
    ensures r.len == s.len + 1 <= r.data.Length
    ensures r.data == s.data || fresh(r.data)
    ensures r.data[..r.len] == old(s.data[..s.len]) + [t]
  {
    if s.len < s.data.Length {
      s.data[s.len] := t;
      return Slice(s.data, s.len + 1);
    }
    var larger := new Time[2 * s.len + 1];
    for i := 0 to s.len
      invariant s.data[..s.len] == old(s.data[..s.len])
      invariant forall k :: 0 <= k < i ==> larger[k] == s.data[k]
    {
      larger[i] := s.data[i];
    }
    larger[s.len] := t;
    r := Slice(larger, s.len + 1);
  }

  class RateLimiter {
    const max: int
    const window: int
    var hits: map<Ip, Slice>
    // Every request so far, in the order of the lock, and what the slices hold.
    ghost var requests: seq<Hit>
    ghost var view: View
    // Every array a slice has used.
    ghost var repr: set<array<Time>>

    // Slices do not share arrays and hold what the view says.
    ghost predicate Shape()
      reads this, repr
    {
      && view.Keys == hits.Keys
      && (forall ip :: ip in hits ==> hits[ip].data in repr && hits[ip].len <= hits[ip].data.Length)
      && (forall a, b :: a in hits && b in hits && a != b ==> hits[a].data != hits[b].data)
      && (forall ip :: ip in hits ==> hits[ip].data[..hits[ip].len] == view[ip])
    }

    ghost predicate Valid()
      reads this, repr
    {
      Shape() && view == ViewOf(requests, max, window)
    }

    constructor (max: int, window: int)
      ensures Valid() && this.max == max && this.window == window
      ensures requests == [] && repr == {}
    {
      this.max, this.window := max, window;
      hits, view, repr, requests := map[], map[], {}, [];
    }

    // hits[ip] = the live part of hits[ip], in place.
    method Refilter(ip: Ip, now: Time)
      requires Shape() && ip in hits
      modifies this`hits, this`view, hits[ip].data
      ensures Shape()
      ensures view == old(view)[ip := Live(old(view[ip]), now, window)] && hits[ip].len == |view[ip]|
    {
      var kept := KeepLive(hits[ip], now, window);
      hits := hits[ip := kept];
      view := view[ip := Live(view[ip], now, window)];
    }

    // hits[ip] = append(hits[ip], now)
    method Push(ip: Ip, now: Time)
      requires Shape() && ip in hits
      modifies this`hits, this`view, this`repr, hits[ip].data
      ensures Shape() && fresh(repr - old(repr))
      ensures view == old(view)[ip := old(view)[ip] + [now]]
    {
      var longer := Append(hits[ip], now);
      hits := hits[ip := longer];
      repr := repr + {longer.data};
      view := view[ip := view[ip] + [now]];
    }

    method Open(ip: Ip)
      requires Shape() && ip !in hits
      modifies this`hits, this`view, this`repr
      ensures Shape() && fresh(repr - old(repr))
      ensures view == old(view)[ip := []]
    {
      var none := new Time[0];
      hits := hits[ip := Slice(none, 0)];
      repr := repr + {none};
      view := view[ip := []];
    }

    // Filters every slice and forgets the empty ones.
    method Sweep(now: Time)
      requires Shape()
      modifies this`hits, this`view, repr
      ensures Shape() && view == Swept(old(view), now, window)
    {
      var todo := hits.Keys;
      while todo != {}
        invariant Shape() && SweptSoFar(old(view), view, todo, now, window)
        decreases todo
      {
        var ip :| ip in todo;
        SweptStep(old(view), view, todo, ip, now, window);
        SweepOne(ip, now);
        todo := todo - {ip};
      }
      SweptDone(old(view), view, now, window);
    }

    method SweepOne(ip: Ip, now: Time)
      requires Shape() && ip in hits
      modifies this`hits, this`view, hits[ip].data
      ensures Shape() && view == SweptAt(old(view), ip, now, window)
    {
      SweptByWrites(view, ip, now, window);
      Refilter(ip, now);
      if hits[ip].len == 0 {
        Forget(ip);
      }
    }

    method Forget(ip: Ip)
      requires Shape()
      modifies this`hits, this`view
      ensures Shape() && view == old(view) - {ip}
    {
      hits := hits - {ip};
      view := view - {ip};
    }

    // One request, whatever its time: the slices decide it.
    method Allow(ip: Ip, now: Time) returns (allowed: bool)
      requires Valid()
      modifies this, repr
      ensures Valid() && fresh(repr - old(repr))
      ensures requests == old(requests) + [Hit(ip, now)]
      ensures allowed == Allows(old(view), max, window, Hit(ip, now))
    {
      assert (requests + [Hit(ip, now)])[..|requests|] == requests;
      requests := requests + [Hit(ip, now)];
      allowed := Decide(ip, now);
    }

    method Decide(ip: Ip, now: Time) returns (allowed: bool)
      requires Shape()
      modifies this`hits, this`view, this`repr, repr
      ensures Shape() && fresh(repr - old(repr))
      ensures allowed == Allows(old(view), max, window, Hit(ip, now))
      ensures view == Next(old(view), max, window, Hit(ip, now))
    {
      NextByWrites(view, max, window, ip, now);
      Renew(ip, now);
      allowed := hits[ip].len < max;
      if allowed {
        Enter(ip, now);
      }
    }

    method Enter(ip: Ip, now: Time)
      requires Shape() && ip in hits
      modifies this`hits, this`view, this`repr, repr
      ensures Shape() && fresh(repr - old(repr))
      ensures var entered := old(view)[ip := old(view)[ip] + [now]];
        view == if |entered| > SWEEP_ABOVE then Swept(entered, now, window) else entered
    {
      Push(ip, now);
      assert hits.Keys == view.Keys;
      if |hits| > SWEEP_ABOVE {
        Sweep(now);
      }
    }

    // recent = the live part of hits[ip]; stored back before it is used.
    method Renew(ip: Ip, now: Time)
      requires Shape()
      modifies this`hits, this`view, this`repr, repr
      ensures Shape() && fresh(repr - old(repr)) && ip in hits
      ensures view == old(view)[ip := Live(Known(old(view), ip), now, window)]
      ensures hits[ip].len == |view[ip]|
    {
      if ip in hits {
        Refilter(ip, now);
      } else {
        Open(ip);
      }
    }
  }
}
