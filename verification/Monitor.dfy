/**
 The alert monitor (ops/router_monitor.py). Its five mutable alert fields are shown to be
 functions of everything it was ever told, and its events to be exactly those the whole
 history calls for. Times are real seconds.
 */
module Monitor {
  import opened Wrappers

  /** A probe result; `checkedAt` is None when it is not a finite number. */
  datatype Report = Report(code: string, ready: bool, checkedAt: Option<real>, message: string)

  const QUERY_ERROR := "query_error"

  /** The outage this report stands for, if any. */
  function ConditionOf(r: Report): Option<string> {
    if r.ready && r.code != QUERY_ERROR then None else Some(r.code)
  }

  // ----- histories and their runs -----

  /** One remembered observation: the condition it showed, the code behind it, and when. */
  datatype Seen = Seen(condition: Option<string>, code: string, now: real)

  /** The first observation of the run of equal conditions that ends the history. */
  function Start(h: seq<Seen>): (s: nat)
    requires h != []
    ensures s < |h|
  {
    var n := |h| - 1;
    if n > 0 && h[n - 1].condition == h[n].condition then Start(h[..n]) else n
  }

  /** The run is exactly the maximal one: same condition throughout, another one before it. */
  lemma {:induction false} StartIsMaximal(h: seq<Seen>)
    requires h != []
    ensures forall i :: Start(h) <= i < |h| ==> h[i].condition == h[|h| - 1].condition
    ensures Start(h) > 0 ==> h[Start(h) - 1].condition != h[|h| - 1].condition
  {
    var n := |h| - 1;
    if n > 0 && h[n - 1].condition == h[n].condition {
      StartIsMaximal(h[..n]);
      assert forall i :: 0 <= i < n ==> h[..n][i] == h[i];
    }
  }

  function Elapsed(h: seq<Seen>, i: nat): real
    requires i < |h|
  {
    h[i].now - h[Start(h)].now
  }

  /** Some observation of the last run, at or after `from`, lies at least the threshold after its start. */
  ghost predicate Crossed(h: seq<Seen>, from: nat, threshold: real)
    requires h != []
  {
    exists i :: from <= i < |h| && Start(h) <= i && Elapsed(h, i) >= threshold
  }

  // ----- what `accept` must have made of a history -----

  function Condition(h: seq<Seen>): Option<string> {
    if h == [] then None else h[|h| - 1].condition
  }

  /** A healthy beginning has no start time; every later run has that of its first observation. */
  function Since(h: seq<Seen>): Option<real> {
    if h == [] || (Start(h) == 0 && h[0].condition.None?) then None else Some(h[Start(h)].now)
  }

  ghost predicate Alerted(h: seq<Seen>, threshold: real) {
    h != [] && Condition(h).Some? && Crossed(h, Start(h), threshold)
  }

  datatype Event =
    | Status(code: string)
    | Recovered(previous: Option<string>, code: string)
    | Changed(previous: Option<string>, code: string)
    | Alert(code: string, duration: int)

  /** The events the last observation calls for, from the history alone: a status when the code is
      new, an end when it breaks an alerted run, an alert when it is the first of its run to cross. */
  ghost function EventsAt(h: seq<Seen>, threshold: real): seq<Event>
    requires h != []
  {
    var n := |h| - 1;
    var o := h[n];
    (if n == 0 || h[n - 1].code != o.code then [Status(o.code)] else [])
    + (if n > 0 && Start(h) == n && Alerted(h[..n], threshold) then
         [if o.condition.None? then Recovered(Condition(h[..n]), o.code) else Changed(Condition(h[..n]), o.code)]
       else [])
    + (if FirstToCross(h, threshold) then [Alert(o.condition.value, Elapsed(h, n).Floor)] else [])
  }

  ghost predicate FirstToCross(h: seq<Seen>, threshold: real)
    requires h != []
  {
    var n := |h| - 1;
    && h[n].condition.Some? && Elapsed(h, n) >= threshold
    && forall i :: Start(h) <= i < n ==> Elapsed(h, i) < threshold
  }

  // ----- what `check_freshness` must have made of its history -----

  /** A check: condition None when fresh, Some("stale") when not. */
  function CheckSeen(isFresh: bool, code: string, now: real): Seen {
    Seen(if isFresh then None else Some("stale"), code, now)
  }

  function StaleSince(c: seq<Seen>): Option<real> {
    if c == [] || c[|c| - 1].condition.None? then None else Some(c[Start(c)].now)
  }

  ghost predicate StaleAlerted(c: seq<Seen>, threshold: real) {
    c != [] && c[|c| - 1].condition.Some? && Crossed(c, Start(c) + 1, threshold)
  }

  datatype FreshnessEvent = Stale | StaleAlert(duration: int) | Resumed(code: string)

  ghost predicate FirstToCrossLater(c: seq<Seen>, threshold: real)
    requires c != []
  {
    var n := |c| - 1;
    && c[n].condition.Some? && Start(c) < n && Elapsed(c, n) >= threshold
    && forall i :: Start(c) < i < n ==> Elapsed(c, i) < threshold
  }

  ghost function FreshnessEventsAt(c: seq<Seen>, threshold: real): seq<FreshnessEvent>
    requires c != []
  {
    var n := |c| - 1;
    if c[n].condition.None? then (if n > 0 && Start(c) == n then [Resumed(c[n].code)] else [])
    else if Start(c) == n then [Stale]
    else if FirstToCrossLater(c, threshold) then [StaleAlert(Elapsed(c, n).Floor)]
    else []
  }

  function Age(stamp: Option<real>, now: real): Option<real> {
    if stamp.None? || stamp.value > now || stamp.value <= 0.0 then None else Some(now - stamp.value)
  }

  predicate Fresh(current: Option<Report>, wall: real) {
    && current.Some? && current.value.code != QUERY_ERROR
    && Age(current.value.checkedAt, wall).Some? && Age(current.value.checkedAt, wall).value <= 30.0
  }

  // ----- the monitor itself -----

  datatype AlertFields = AlertFields(condition: Option<string>, since: Option<real>, alerted: bool)
  datatype StaleFields = StaleFields(since: Option<real>, alerted: bool)

  function StartOf(f: AlertFields, o: Seen): Option<real> {
    if o.condition != f.condition || (o.condition.Some? && f.since.None?) then Some(o.now) else f.since
  }

  predicate Rings(f: AlertFields, o: Seen, threshold: real) {
    && o.condition.Some? && !(o.condition == f.condition && f.alerted)
    && o.now - StartOf(f, o).value >= threshold
  }

  function NextAlert(f: AlertFields, o: Seen, threshold: real): AlertFields {
    AlertFields(o.condition, StartOf(f, o), (o.condition == f.condition && f.alerted) || Rings(f, o, threshold))
  }

  function AlertEvents(f: AlertFields, o: Seen, threshold: real): seq<Event> {
    (if o.condition != f.condition && f.alerted then
       [if o.condition.None? then Recovered(f.condition, o.code) else Changed(f.condition, o.code)]
     else [])
    + (if Rings(f, o, threshold) then [Alert(o.condition.value, (o.now - StartOf(f, o).value).Floor)] else [])
  }

  function NextStale(f: StaleFields, c: Seen, threshold: real): StaleFields {
    if c.condition.None? then StaleFields(None, false)
    else if f.since.None? then StaleFields(Some(c.now), f.alerted)
    else StaleFields(f.since, f.alerted || c.now - f.since.value >= threshold)
  }

  function StaleEvents(f: StaleFields, c: Seen, threshold: real): seq<FreshnessEvent> {
    if c.condition.None? then (if f.since.Some? then [Resumed(c.code)] else [])
    else if f.since.None? then [Stale]
    else if !f.alerted && c.now - f.since.value >= threshold then [StaleAlert((c.now - f.since.value).Floor)]
    else []
  }

  function AlertAfter(h: seq<Seen>, threshold: real): AlertFields {
    if h == [] then AlertFields(None, None, false)
    else NextAlert(AlertAfter(h[..|h| - 1], threshold), h[|h| - 1], threshold)
  }

  function StaleAfter(c: seq<Seen>, threshold: real): StaleFields {
    if c == [] then StaleFields(None, false)
    else NextStale(StaleAfter(c[..|c| - 1], threshold), c[|c| - 1], threshold)
  }

  function EventsAfter(h: seq<Seen>, o: Seen, threshold: real): seq<Event> {
    AlertEvents(AlertAfter(h, threshold), o, threshold)
  }

  /** The events of `accept` after the history h; EventsOfHistory says what they mean. */
  function AcceptEvents(h: seq<Seen>, o: Seen, threshold: real): seq<Event> {
    if h == [] || h[|h| - 1].code != o.code then [Status(o.code)] + EventsAfter(h, o, threshold)
    else EventsAfter(h, o, threshold)
  }

  /** monitor.json, as far as `status` reads it. */
  datatype Saved = Saved(running: bool, heartbeatAt: Option<real>, current: Option<Report>, alert: Option<string>)

  class Observations {
    const threshold: real
    var current: Option<Report>
    var lastGood: Option<Report>
    var condition: Option<string>
    var since: Option<real>
    var alerted: bool
    var staleSince: Option<real>
    var staleAlerted: bool
    ghost var seen: seq<Seen>
    ghost var checks: seq<Seen>

    ghost predicate Valid()
      reads this
    {
      && (current.None? <==> seen == [])
      && (current.Some? ==>
            current.value.code == seen[|seen| - 1].code && ConditionOf(current.value) == seen[|seen| - 1].condition)
      && AlertFields(condition, since, alerted) == AlertAfter(seen, threshold)
      && StaleFields(staleSince, staleAlerted) == StaleAfter(checks, threshold)
      && IsChecks(checks)
    }

    constructor (threshold: real)
      ensures Valid() && this.threshold == threshold && seen == [] && checks == []
    {
      this.threshold := threshold;
      current, lastGood, condition, since, alerted := None, None, None, None, false;
      staleSince, staleAlerted := None, false;
      seen, checks := [], [];
    }

    /** The middle of `accept`: what the new condition does to the three alert fields. */
    method Advance(next: Option<string>, code: string, now: real) returns (events: seq<Event>)
      modifies this`condition, this`since, this`alerted
      ensures
        var before, o := AlertFields(old(condition), old(since), old(alerted)), Seen(next, code, now);
        && AlertFields(condition, since, alerted) == NextAlert(before, o, threshold)
        && events == AlertEvents(before, o, threshold)
    {
      events := [];
      if next != condition {
        if alerted {
          events := [if next.None? then Recovered(condition, code) else Changed(condition, code)];
        }
        condition, since, alerted := next, Some(now), false;
      }
      if condition.Some? && since.None? { since := Some(now); }
      if condition.Some? && !alerted && now - since.value >= threshold {
        alerted := true;
        events := events + [Alert(condition.value, (now - since.value).Floor)];
      }
    }

    /** The same, on a machine that is where its history says. */
    method Remember(next: Option<string>, code: string, now: real) returns (events: seq<Event>)
      requires AlertFields(condition, since, alerted) == AlertAfter(seen, threshold)
      modifies this`condition, this`since, this`alerted, this`seen
      ensures seen == old(seen) + [Seen(next, code, now)]
      ensures AlertFields(condition, since, alerted) == AlertAfter(seen, threshold)
      ensures events == EventsAfter(old(seen), Seen(next, code, now), threshold)
    {
      events := Advance(next, code, now);
      seen := seen + [Seen(next, code, now)];
    }

    method Accept(result: Report, now: real) returns (events: seq<Event>)
      requires Valid()
      modifies this`current, this`lastGood, this`condition, this`since, this`alerted, this`seen
      ensures Valid()
      ensures seen == old(seen) + [Seen(ConditionOf(result), result.code, now)]
      ensures events == AcceptEvents(old(seen), Seen(ConditionOf(result), result.code, now), threshold)
      ensures current == Some(result) && lastGood == if result.code != QUERY_ERROR then Some(result) else old(lastGood)
    {
      var previous := current;
      current := Some(result);
      if result.code != QUERY_ERROR { lastGood := Some(result); }
      events := Remember(ConditionOf(result), result.code, now);
      if previous.None? || previous.value.code != result.code {
        events := [Status(result.code)] + events;
      }
    }

    /** What one freshness verdict does to the two freshness fields. */
    method Judge(isFresh: bool, code: string, now: real) returns (events: seq<FreshnessEvent>)
      modifies this`staleSince, this`staleAlerted
      ensures
        var before, c := StaleFields(old(staleSince), old(staleAlerted)), CheckSeen(isFresh, code, now);
        && StaleFields(staleSince, staleAlerted) == NextStale(before, c, threshold)
        && events == StaleEvents(before, c, threshold)
    {
      events := [];
      if isFresh {
        if staleSince.Some? { events := [Resumed(code)]; }
        staleSince, staleAlerted := None, false;
      } else if staleSince.None? {
        staleSince, events := Some(now), [Stale];
      } else if !staleAlerted && now - staleSince.value >= threshold {
        staleAlerted, events := true, [StaleAlert((now - staleSince.value).Floor)];
      }
    }

    method CheckFreshness(now: real, wall: real) returns (events: seq<FreshnessEvent>)
      requires Valid()
      modifies this`staleSince, this`staleAlerted, this`checks
      ensures Valid()
      ensures checks == old(checks)
                        + [CheckSeen(Fresh(current, wall), if current.Some? then current.value.code else "", now)]
      ensures checks[|checks| - 1].condition ==
              if current.Some? && current.value.code != "query_error" && Recent(current.value.checkedAt, wall, 30.0)
              then None else Some("stale")
      ensures events == StaleEvents(StaleAfter(old(checks), threshold), checks[|checks| - 1], threshold)
    {
      var code := if current.Some? then current.value.code else "";
      FreshIsExact(current, wall);
      events := Judge(Fresh(current, wall), code, now);
      checks := checks + [CheckSeen(Fresh(current, wall), code, now)];
    }

    /** `save`: what another process will read. */
    function SavedRecord(running: bool, heartbeatAt: Option<real>): Saved
      reads this
    {
      Saved(running, heartbeatAt, current, if alerted then condition else None)
    }
  }

  // ----- one more observation -----

  lemma CrossedAppend(h: seq<Seen>, o: Seen, from: nat, threshold: real)
    requires h != [] && h[|h| - 1].condition == o.condition && from <= |h|
    ensures Crossed(h + [o], from, threshold) <==> Crossed(h, from, threshold) || o.now - h[Start(h)].now >= threshold
  {
    StartIsMaximal(h);
    var g := h + [o];
    assert Elapsed(g, |h|) == o.now - h[Start(h)].now;
    forall i | 0 <= i < |h| ensures Elapsed(g, i) == Elapsed(h, i) {
      assert g[i] == h[i] && g[Start(h)] == h[Start(h)];
    }
  }

  lemma CrossedAlone(h: seq<Seen>, o: Seen, threshold: real)
    requires Start(h + [o]) == |h|
    ensures Crossed(h + [o], |h|, threshold) <==> 0.0 >= threshold
    ensures !Crossed(h + [o], |h| + 1, threshold)
    ensures FirstToCross(h + [o], threshold) <==> o.condition.Some? && 0.0 >= threshold
  {
    var g := h + [o];
    assert Elapsed(g, |h|) == 0.0;
  }

  /** How one accepted observation moves the functions of the history. */
  lemma AcceptSpec(h: seq<Seen>, o: Seen, threshold: real)
    ensures
      var g := h + [o];
      var changed := o.condition != Condition(h);
      var start := if changed then Some(o.now) else Since(h);
      && Since(g) == start
      && (o.condition.Some? ==> start.Some?)
      && (changed && h != [] ==> Start(g) == |h|)
      && (!changed && h != [] ==> Start(g) < |h|)
      && (o.condition.Some? ==> Elapsed(g, |h|) == o.now - start.value)
      && (Alerted(g, threshold) <==>
            o.condition.Some? && ((!changed && Alerted(h, threshold)) || o.now - start.value >= threshold))
      && (FirstToCross(g, threshold) <==>
            o.condition.Some? && !(!changed && Alerted(h, threshold)) && o.now - start.value >= threshold)
  {
    var g := h + [o];
    assert g[..|h|] == h;
    if h != [] && o.condition == Condition(h) {
      StartIsMaximal(h);
      CrossedAppend(h, o, Start(h), threshold);
      assert Elapsed(g, |h|) == o.now - h[Start(h)].now;
      assert forall i :: 0 <= i < |h| ==> Elapsed(g, i) == Elapsed(h, i);
    } else {
      CrossedAlone(h, o, threshold);
    }
  }

  lemma CheckSpec(c: seq<Seen>, o: Seen, threshold: real)
    requires forall i :: 0 <= i < |c| ==> c[i].condition.None? || c[i].condition == Some("stale")
    requires o.condition.None? || o.condition == Some("stale")
    ensures
      var g := c + [o];
      var continues := StaleSince(c).Some? && o.condition.Some?;
      && StaleSince(g) == (if o.condition.None? then None else if continues then StaleSince(c) else Some(o.now))
      && (continues ==> Start(g) < |c| && Elapsed(g, |c|) == o.now - StaleSince(c).value)
      && (o.condition.Some? && !continues ==> Start(g) == |c|)
      && (o.condition.None? ==> (|c| > 0 && Start(g) == |c| <==> StaleSince(c).Some?))
      && (StaleAlerted(g, threshold) <==>
            continues && (StaleAlerted(c, threshold) || o.now - StaleSince(c).value >= threshold))
      && (FirstToCrossLater(g, threshold) <==>
            continues && !StaleAlerted(c, threshold) && o.now - StaleSince(c).value >= threshold)
  {
    var g := c + [o];
    assert g[..|c|] == c;
    if StaleSince(c).Some? && o.condition.Some? {
      StartIsMaximal(c);
      CrossedAppend(c, o, Start(c) + 1, threshold);
      assert Elapsed(g, |c|) == o.now - c[Start(c)].now;
      assert forall i :: 0 <= i < |c| ==> Elapsed(g, i) == Elapsed(c, i);
    } else {
      if Start(g) == |c| { CrossedAlone(c, o, threshold); }
    }
  }

  // ----- theorems -----

  /** The three alert fields are functions of the whole history. */
  lemma {:induction false} AlertFieldsAreHistory(h: seq<Seen>, threshold: real)
    ensures AlertAfter(h, threshold) == AlertFields(Condition(h), Since(h), Alerted(h, threshold))
  {
    if h != [] {
      var n := |h| - 1;
      AlertFieldsAreHistory(h[..n], threshold);
      AcceptSpec(h[..n], h[n], threshold);
      assert h[..n] + [h[n]] == h;
      AlertedNeedsHistory(h[..n], threshold);
    }
  }

  lemma AlertedNeedsHistory(h: seq<Seen>, threshold: real)
    ensures Condition(h).Some? ==> Since(h).Some?
    ensures Alerted(h, threshold) ==> Condition(h).Some?
  {
    if h != [] { StartIsMaximal(h); }
  }

  /** The events of one more observation are those the history calls for. */
  lemma EventsOfHistory(h: seq<Seen>, o: Seen, threshold: real)
    ensures AcceptEvents(h, o, threshold) == EventsAt(h + [o], threshold)
  {
    AlertFieldsAreHistory(h, threshold);
    AlertedNeedsHistory(h, threshold);
    AcceptSpec(h, o, threshold);
    assert (h + [o])[..|h|] == h;
  }

  ghost predicate IsChecks(c: seq<Seen>) {
    forall i :: 0 <= i < |c| ==> c[i].condition.None? || c[i].condition == Some("stale")
  }

  /** The two freshness fields, and the events, are functions of the whole check history. */
  lemma {:induction false} StaleFieldsAreHistory(c: seq<Seen>, threshold: real)
    requires IsChecks(c)
    ensures StaleAfter(c, threshold) == StaleFields(StaleSince(c), StaleAlerted(c, threshold))
    ensures c != [] ==>
              StaleEvents(StaleAfter(c[..|c| - 1], threshold), c[|c| - 1], threshold) == FreshnessEventsAt(c, threshold)
  {
    if c != [] {
      var n := |c| - 1;
      StaleFieldsAreHistory(c[..n], threshold);
      CheckSpec(c[..n], c[n], threshold);
      assert c[..n] + [c[n]] == c;
    }
  }

  /** When time never runs backwards, a run has alerted exactly if its latest observation is at
      least the threshold after its first. */
  lemma AlertedByLatest(h: seq<Seen>, threshold: real)
    requires h != [] && forall i, j :: 0 <= i < j < |h| ==> h[i].now <= h[j].now
    ensures Alerted(h, threshold) <==> Condition(h).Some? && h[|h| - 1].now - h[Start(h)].now >= threshold
  {
    var n := |h| - 1;
    if Crossed(h, Start(h), threshold) {
      var i :| Start(h) <= i < |h| && Elapsed(h, i) >= threshold;
      assert h[i].now <= h[n].now;
    }
    assert Elapsed(h, n) == h[n].now - h[Start(h)].now;
  }

  ghost function CountRings(h: seq<Seen>, threshold: real): nat {
    if h == [] then 0 else CountRings(h[..|h| - 1], threshold) + if FirstToCross(h, threshold) then 1 else 0
  }

  ghost predicate EndsAlert(h: seq<Seen>, threshold: real)
    requires h != []
  {
    |h| > 1 && Start(h) == |h| - 1 && Alerted(h[..|h| - 1], threshold)
  }

  ghost function CountEnds(h: seq<Seen>, threshold: real): nat {
    if h == [] then 0 else CountEnds(h[..|h| - 1], threshold) + if EndsAlert(h, threshold) then 1 else 0
  }

  /** What is counted are exactly the alert events and the end events that were emitted. */
  lemma CountedAreEmitted(h: seq<Seen>, threshold: real)
    requires h != []
    ensures FirstToCross(h, threshold) <==> exists e :: e in EventsAt(h, threshold) && e.Alert?
    ensures EndsAlert(h, threshold) <==> exists e :: e in EventsAt(h, threshold) && (e.Recovered? || e.Changed?)
  {
    var n := |h| - 1;
    if FirstToCross(h, threshold) {
      assert Alert(h[n].condition.value, Elapsed(h, n).Floor) in EventsAt(h, threshold);
    }
    if EndsAlert(h, threshold) {
      assert (if h[n].condition.None? then Recovered(Condition(h[..n]), h[n].code)
              else Changed(Condition(h[..n]), h[n].code))
             in EventsAt(h, threshold);
    }
  }

  /** Alerts and their ends balance: the difference is one exactly while alerted. */
  lemma {:induction false} AlertsBalance(h: seq<Seen>, threshold: real)
    ensures CountRings(h, threshold) == CountEnds(h, threshold) + if Alerted(h, threshold) then 1 else 0
  {
    if h != [] {
      var n := |h| - 1;
      AlertsBalance(h[..n], threshold);
      AcceptSpec(h[..n], h[n], threshold);
      assert h[..n] + [h[n]] == h;
    }
  }

  /** Exactly one alert per run: of two moments in one run only the first can ring, and a run
      with an observation at or past the threshold rings at the first such observation. */
  lemma OneAlertPerRun(h: seq<Seen>, i: nat, j: nat, threshold: real)
    requires i < j < |h| && Start(h[..i + 1]) == Start(h[..j + 1])
    ensures FirstToCross(h[..i + 1], threshold) ==> !FirstToCross(h[..j + 1], threshold)
  {
    var a, b := h[..i + 1], h[..j + 1];
    assert a[i] == b[i] == h[i] && a[Start(a)] == b[Start(b)];
    assert Elapsed(a, i) == Elapsed(b, i);
  }

  lemma {:induction false} CrossedRunRings(h: seq<Seen>, threshold: real) returns (k: nat)
    requires Alerted(h, threshold)
    ensures Start(h) <= k < |h| && Start(h[..k + 1]) == Start(h) && FirstToCross(h[..k + 1], threshold)
    decreases |h|
  {
    var n := |h| - 1;
    if FirstToCross(h, threshold) {
      k := n;
      assert h[..n + 1] == h;
    } else {
      AcceptSpec(h[..n], h[n], threshold);
      assert h[..n] + [h[n]] == h;
      k := CrossedRunRings(h[..n], threshold);
      assert h[..n][..k + 1] == h[..k + 1];
    }
  }

  ghost function CountStale(c: seq<Seen>): nat {
    if c == [] then 0
    else CountStale(c[..|c| - 1]) + if c[|c| - 1].condition.Some? && Start(c) == |c| - 1 then 1 else 0
  }

  ghost function CountResumed(c: seq<Seen>): nat {
    if c == [] then 0
    else CountResumed(c[..|c| - 1]) + if c[|c| - 1].condition.None? && |c| > 1 && Start(c) == |c| - 1 then 1 else 0
  }

  /** Stale and resumed events balance, and a stale alert rings at most once per stale run. */
  lemma {:induction false} StaleBalance(c: seq<Seen>)
    requires IsChecks(c)
    ensures CountStale(c) == CountResumed(c) + if StaleSince(c).Some? then 1 else 0
  {
    if c != [] {
      var n := |c| - 1;
      StaleBalance(c[..n]);
      CheckSpec(c[..n], c[n], 0.0);
      assert c[..n] + [c[n]] == c;
    }
  }

  lemma {:induction false} CrossedStaleRunRings(c: seq<Seen>, threshold: real) returns (k: nat)
    requires IsChecks(c) && StaleAlerted(c, threshold)
    ensures Start(c) < k < |c| && Start(c[..k + 1]) == Start(c) && FirstToCrossLater(c[..k + 1], threshold)
    decreases |c|
  {
    var n := |c| - 1;
    if FirstToCrossLater(c, threshold) {
      k := n;
      assert c[..n + 1] == c;
    } else {
      CheckSpec(c[..n], c[n], threshold);
      assert c[..n] + [c[n]] == c;
      k := CrossedStaleRunRings(c[..n], threshold);
      assert c[..n][..k + 1] == c[..k + 1];
    }
  }

  /** What is counted are exactly the stale and resumed events, and the stale alerts, that were emitted. */
  lemma CountedChecksAreEmitted(c: seq<Seen>, threshold: real)
    requires c != []
    ensures c[|c| - 1].condition.Some? && Start(c) == |c| - 1 <==> Stale in FreshnessEventsAt(c, threshold)
    ensures c[|c| - 1].condition.None? && |c| > 1 && Start(c) == |c| - 1
            <==> exists e :: e in FreshnessEventsAt(c, threshold) && e.Resumed?
    ensures FirstToCrossLater(c, threshold) <==> exists e :: e in FreshnessEventsAt(c, threshold) && e.StaleAlert?
  {
    var n := |c| - 1;
    if c[n].condition.None? && n > 0 && Start(c) == n {
      assert Resumed(c[n].code) in FreshnessEventsAt(c, threshold);
    }
    if FirstToCrossLater(c, threshold) {
      assert StaleAlert(Elapsed(c, n).Floor) in FreshnessEventsAt(c, threshold);
    }
  }

  lemma OneStaleAlertPerRun(c: seq<Seen>, i: nat, j: nat, threshold: real)
    requires i < j < |c| && Start(c[..i + 1]) == Start(c[..j + 1])
    ensures FirstToCrossLater(c[..i + 1], threshold) ==> !FirstToCrossLater(c[..j + 1], threshold)
  {
    var a, b := c[..i + 1], c[..j + 1];
    assert a[i] == b[i] == c[i] && a[Start(a)] == b[Start(b)];
    assert Elapsed(a, i) == Elapsed(b, i);
  }

  // ----- the saved record, read by another process -----

  datatype MonitorState = Stopped | HeartbeatStale | ObservationStale | Ready | Pending

  function StatusOf(s: Saved, now: real): MonitorState {
    var beat := Age(s.heartbeatAt, now);
    var observed := if s.current.Some? then Age(s.current.value.checkedAt, now) else None;
    var alive := s.running && beat.Some? && beat.value <= 15.0;
    var isFresh := alive && observed.Some? && observed.value <= 30.0 && s.current.value.code != QUERY_ERROR;
    if !s.running then Stopped
    else if !alive then HeartbeatStale
    else if !isFresh then ObservationStale
    else if s.current.value.ready then Ready
    else Pending
  }

  /** The stamp is a positive time, not in the future and at most this many seconds old. */
  ghost predicate Recent(stamp: Option<real>, now: real, seconds: real) {
    stamp.Some? && 0.0 < stamp.value && stamp.value <= now && now <= stamp.value + seconds
  }

  /** Freshness is a report of the last half minute that is no query error. */
  lemma FreshIsExact(current: Option<Report>, wall: real)
    ensures Fresh(current, wall) <==>
              current.Some? && current.value.code != "query_error" && Recent(current.value.checkedAt, wall, 30.0)
  {
  }

  /** What a reader makes of the saved record, by its own fields. */
  lemma StatusIsExact(s: Saved, now: real)
    ensures
      var observed := s.current.Some? && s.current.value.code != "query_error"
                      && Recent(s.current.value.checkedAt, now, 30.0);
      StatusOf(s, now) ==
      if !s.running then Stopped
      else if !Recent(s.heartbeatAt, now, 15.0) then HeartbeatStale
      else if !observed then ObservationStale
      else if s.current.value.ready then Ready
      else Pending
  {
  }

  /** The machine is in no outage exactly when its latest report is ready and no query error; otherwise it is in
      the outage of that report's code. */
  lemma OutageIsLatestReport(m: Observations)
    requires m.Valid()
    ensures m.current.None? ==> Condition(m.seen).None? && m.condition.None?
    ensures m.current.Some? ==>
              && m.condition == Condition(m.seen)
              && Condition(m.seen) == if m.current.value.ready && m.current.value.code != "query_error" then None
                                      else Some(m.current.value.code)
  {
    AlertFieldsAreHistory(m.seen, m.threshold);
  }

  /** A reader of what the monitor saved can trust it: `ready` or `pending` means that the writer was alive within
      15 seconds and its own freshness check would pass now; `ready`, that its alert machine is in no outage;
      `pending`, that it is in the outage of the code it shows. */
  lemma ReadyMeansHealthy(m: Observations, running: bool, heartbeatAt: Option<real>, now: real)
    requires m.Valid()
    ensures
      var s := m.SavedRecord(running, heartbeatAt);
      && (StatusOf(s, now) in {Ready, Pending} <==>
            && running && Recent(heartbeatAt, now, 15.0) && m.current.Some?
            && m.current.value.code != "query_error" && Recent(m.current.value.checkedAt, now, 30.0))
      && (StatusOf(s, now) in {Ready, Pending} ==> (StatusOf(s, now) == Ready <==> Condition(m.seen).None?))
      && (StatusOf(s, now).Ready? ==> !Alerted(m.seen, m.threshold) && s.alert.None?)
      && (StatusOf(s, now).Pending? ==>
            && Condition(m.seen) == Some(m.current.value.code)
            && s.alert == if Alerted(m.seen, m.threshold) then Some(m.current.value.code) else None)
  {
    AlertFieldsAreHistory(m.seen, m.threshold);
    OutageIsLatestReport(m);
    StatusIsExact(m.SavedRecord(running, heartbeatAt), now);
  }
}
