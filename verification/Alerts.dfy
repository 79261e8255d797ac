/**
  Alert episodes (src/airgap_sync/monitor/alerts.py): decisions open, refresh and close the alert
  of a fingerprint, and late or repeated evidence does not reverse what newer evidence established.
 */
module Alerts {
  import opened Wrappers

  type Fingerprint = nat
  type Key = nat

  datatype Kind = SOURCE_HEARTBEAT | FRESHNESS | INCOMING_STALE | OTHER_KIND

  datatype Verdict = TRUE | FALSE | UNKNOWN

  datatype Decision = Decision(kind: Kind, fingerprint: Fingerprint, verdict: Verdict, observedAt: Option<int>, evidence: Option<Key>)

  datatype Status = OPEN | RECOVERED | DISABLED

  datatype Alert = Alert(status: Status, observedAt: Option<int>, evidence: Option<Key>, recoveredAt: int, evaluatedAt: int, evaluation: Verdict)

  // --- What a decision does to the alerts of its fingerprint, the newest of which is last ---

  predicate HasOpen(alerts: seq<Alert>) {
    exists i :: 0 <= i < |alerts| && alerts[i].status == OPEN
  }

  predicate NotAfter(a: Option<int>, b: Option<int>) {
    a.Some? && b.Some? && a.value <= b.value
  }

  // Evidence that aged since the recovery opens the alert again.
  predicate Aged(d: Decision, last: Alert, now: int) {
    && d.kind in {SOURCE_HEARTBEAT, FRESHNESS}
    && d.observedAt == last.observedAt && d.evidence == last.evidence && now > last.recoveredAt
  }

  predicate Reopens(d: Decision, last: Alert, now: int) {
    !(last.status == RECOVERED && NotAfter(d.observedAt, last.observedAt)) || Aged(d, last, now)
  }

  function Applied(alerts: seq<Alert>, d: Decision, now: int): seq<Alert> {
    var n := |alerts| - 1;
    var open := alerts != [] && alerts[n].status == OPEN;
    match d.verdict
    case UNKNOWN => if open then alerts[n := alerts[n].(evaluatedAt := now, evaluation := UNKNOWN)] else alerts
    case TRUE =>
      if open then
        if d.observedAt.Some? && alerts[n].observedAt.Some? && d.observedAt.value < alerts[n].observedAt.value then alerts
        else alerts[n := alerts[n].(observedAt := d.observedAt, evidence := d.evidence, evaluatedAt := now, evaluation := TRUE)]
      else if alerts != [] && !Reopens(d, alerts[n], now) then alerts
      else alerts + [Alert(OPEN, d.observedAt, d.evidence, 0, now, TRUE)]
    case FALSE =>
      if !open || (d.kind != INCOMING_STALE && NotAfter(d.observedAt, alerts[n].observedAt) && d.evidence != alerts[n].evidence) then alerts
      else alerts[n := Alert(RECOVERED, d.observedAt, d.evidence, now, now, FALSE)]
  }

  // A change of the rules, or switching alerts off, closes whatever is open.
  function Reset(alerts: seq<Alert>, now: int): (r: seq<Alert>)
    ensures |r| == |alerts|
  {
    seq(|alerts|, i requires 0 <= i < |alerts| =>
      if alerts[i].status == OPEN then alerts[i].(status := DISABLED, recoveredAt := now, evaluatedAt := now, evaluation := UNKNOWN)
      else alerts[i])
  }

  // Only the newest alert can be open.
  predicate OneOpen(alerts: seq<Alert>) {
    forall i :: 0 <= i < |alerts| - 1 ==> alerts[i].status != OPEN
  }

  class AlertTable {
    var alerts: map<Fingerprint, seq<Alert>>

    ghost predicate Valid()
      reads this
    {
      forall f :: f in alerts ==> OneOpen(alerts[f])
    }

    function Of(f: Fingerprint): seq<Alert>
      reads this
    {
      if f in alerts then alerts[f] else []
    }

    constructor ()
      ensures Valid() && alerts == map[]
    {
      alerts := map[];
    }

    method OpenRow(f: Fingerprint) returns (row: Option<nat>)
      requires Valid()
      ensures row.Some? <==> HasOpen(Of(f))
      ensures row.Some? ==> row.value == |Of(f)| - 1 && Of(f)[row.value].status == OPEN
    {
      var rows := Of(f);
      row := None;
      for i := 0 to |rows|
        invariant row.Some? <==> exists k :: 0 <= k < i && rows[k].status == OPEN
        invariant row.Some? ==> row.value < i && rows[row.value].status == OPEN
      {
        if rows[i].status == OPEN { row := Some(i); }
      }
    }

    // Alerts of other fingerprints stay as they are.
    method Apply(d: Decision, now: int)
      requires Valid()
      modifies this
      ensures Valid()
      ensures Of(d.fingerprint) == Applied(old(Of(d.fingerprint)), d, now)
      ensures forall f :: f != d.fingerprint ==> Of(f) == old(Of(f))
    {
      var row := OpenRow(d.fingerprint);
      var rows := Of(d.fingerprint);
      assert row.None? ==> forall i :: 0 <= i < |rows| ==> rows[i].status != OPEN;
      if d.verdict == UNKNOWN {
        if row.Some? {
          rows := rows[row.value := rows[row.value].(evaluatedAt := now, evaluation := UNKNOWN)];
        }
      } else if d.verdict == TRUE {
        if row.None? && d.observedAt.Some? && rows != [] {
          var previous := rows[|rows| - 1];
          if previous.status == RECOVERED && previous.observedAt.Some? && d.observedAt.value <= previous.observedAt.value
             && !(d.kind in {SOURCE_HEARTBEAT, FRESHNESS} && d.observedAt == previous.observedAt && d.evidence == previous.evidence
                  && now > previous.recoveredAt) {
            return;
          }
        }
        if row.Some? && d.observedAt.Some? && rows[row.value].observedAt.Some? && d.observedAt.value < rows[row.value].observedAt.value {
          return;
        }
        if row.Some? {
          rows := rows[row.value := rows[row.value].(observedAt := d.observedAt, evidence := d.evidence, evaluatedAt := now, evaluation := TRUE)];
        } else {
          rows := rows + [Alert(OPEN, d.observedAt, d.evidence, 0, now, TRUE)];
        }
      } else if row.Some? {
        var open := rows[row.value];
        if d.kind != INCOMING_STALE && d.observedAt.Some? && open.observedAt.Some?
           && d.observedAt.value <= open.observedAt.value && d.evidence != open.evidence {
          return;
        }
        rows := rows[row.value := Alert(RECOVERED, d.observedAt, d.evidence, now, now, FALSE)];
      }
      alerts := alerts[d.fingerprint := rows];
    }

    method DisableAll(now: int)
      requires Valid()
      modifies this
      ensures Valid() && forall f :: Of(f) == Reset(old(Of(f)), now) && !HasOpen(Of(f))
    {
      alerts := map f | f in alerts :: Reset(alerts[f], now);
    }
  }

  // --- Histories ---

  datatype Event = DECIDE(decision: Decision, at: int) | RESET(at: int)

  function After(alerts: seq<Alert>, event: Event): seq<Alert> {
    match event
    case DECIDE(d, now) => Applied(alerts, d, now)
    case RESET(now) => Reset(alerts, now)
  }

  function Play(events: seq<Event>): seq<Alert> {
    if events == [] then [] else After(Play(events[..|events| - 1]), events[|events| - 1])
  }

  // Whatever is decided, at most one alert of a fingerprint is open: the newest.
  lemma {:induction false} AtMostOneOpen(events: seq<Event>)
    ensures OneOpen(Play(events))
  {
    if events != [] {
      AtMostOneOpen(events[..|events| - 1]);
    }
  }

  // A decision without an answer opens nothing and closes nothing.
  lemma UnknownKeepsEpisodes(alerts: seq<Alert>, d: Decision, now: int)
    requires d.verdict == UNKNOWN
    ensures var r := Applied(alerts, d, now);
            |r| == |alerts| && forall i :: 0 <= i < |r| ==>
              r[i].status == alerts[i].status && r[i].observedAt == alerts[i].observedAt && r[i].evidence == alerts[i].evidence
  {
  }

  // Every decision is dated, and its date is that of its evidence.
  predicate Dated(d: Decision, dates: Option<Key> -> int) {
    d.kind != INCOMING_STALE && d.observedAt == Some(dates(d.evidence))
  }

  predicate DatedEvent(event: Event, dates: Option<Key> -> int) {
    event.DECIDE? && event.decision.verdict != UNKNOWN ==> Dated(event.decision, dates)
  }

  predicate DatedEvents(events: seq<Event>, dates: Option<Key> -> int) {
    forall i :: 0 <= i < |events| ==> DatedEvent(events[i], dates)
  }

  // Every alert has the date of its evidence.
  predicate AllDated(alerts: seq<Alert>, dates: Option<Key> -> int) {
    forall i :: 0 <= i < |alerts| ==> alerts[i].observedAt == Some(dates(alerts[i].evidence))
  }

  // No alert has an earlier date than those before it.
  predicate InOrder(alerts: seq<Alert>, dates: Option<Key> -> int) {
    forall i, j :: 0 <= i <= j < |alerts| ==> dates(alerts[i].evidence) <= dates(alerts[j].evidence)
  }

  predicate IsDisabled(alerts: seq<Alert>) {
    alerts != [] && alerts[|alerts| - 1].status == DISABLED
  }

  predicate Older(alerts: seq<Alert>, d: Decision, dates: Option<Key> -> int) {
    alerts != [] && dates(d.evidence) < dates(alerts[|alerts| - 1].evidence)
  }

  // What a dated decision can do: nothing to the evidence, refresh the newest alert with evidence
  // that is not older, or open one; after a recovery only with newer evidence, or with the same
  // evidence of a kind that ages; after a reset with any evidence.
  predicate Forward(before: seq<Alert>, after: seq<Alert>, d: Decision, now: int, dates: Option<Key> -> int) {
    var n := |before| - 1;
    || (|after| == |before| && forall i :: 0 <= i < |after| ==> after[i].evidence == before[i].evidence && after[i].status == before[i].status)
    || (&& |after| == |before| > 0 && after[..n] == before[..n] && before[n].status == OPEN
        && after[n].evidence == d.evidence && dates(before[n].evidence) <= dates(d.evidence))
    || (&& |after| == |before| + 1 && after[..|before|] == before && after[|before|].evidence == d.evidence
        && after[|before|].status == OPEN
        && (before != [] && before[n].status != DISABLED ==>
              before[n].status == RECOVERED && (dates(before[n].evidence) < dates(d.evidence) || Aged(d, before[n], now))))
  }

  // A decision breaks the order in one case only: it opens an alert with evidence older than that
  // of an alert which a reset had closed.
  lemma DecisionGoesForward(alerts: seq<Alert>, d: Decision, now: int, dates: Option<Key> -> int)
    requires OneOpen(alerts) && AllDated(alerts, dates) && (d.verdict != UNKNOWN ==> Dated(d, dates))
    ensures AllDated(Applied(alerts, d, now), dates)
    ensures Forward(alerts, Applied(alerts, d, now), d, now, dates)
    ensures InOrder(alerts, dates) ==>
      (InOrder(Applied(alerts, d, now), dates) <==> !(IsDisabled(alerts) && d.verdict == TRUE && Older(alerts, d, dates)))
  {
    var r, n := Applied(alerts, d, now), |alerts| - 1;
    if IsDisabled(alerts) && d.verdict == TRUE {
      assert r[n].evidence == alerts[n].evidence && r[n + 1].evidence == d.evidence;
    }
  }

  lemma ResetKeepsEvidence(alerts: seq<Alert>, now: int, dates: Option<Key> -> int)
    ensures AllDated(alerts, dates) ==> AllDated(Reset(alerts, now), dates)
    ensures InOrder(Reset(alerts, now), dates) <==> InOrder(alerts, dates)
  {
    var r := Reset(alerts, now);
    assert forall i :: 0 <= i < |r| ==> r[i].evidence == alerts[i].evidence && r[i].observedAt == alerts[i].observedAt;
  }

  lemma {:induction false} HistoryIsDated(events: seq<Event>, dates: Option<Key> -> int)
    requires DatedEvents(events, dates)
    ensures AllDated(Play(events), dates)
  {
    if events != [] {
      var n := |events| - 1;
      HistoryIsDated(events[..n], dates);
      AtMostOneOpen(events[..n]);
      assert DatedEvent(events[n], dates);
      match events[n]
      case DECIDE(d, now) => DecisionGoesForward(Play(events[..n]), d, now, dates);
      case RESET(now) => ResetKeepsEvidence(Play(events[..n]), now, dates);
    }
  }

  // The event at this place opens an alert with older evidence, behind a reset.
  predicate GoesBack(events: seq<Event>, k: nat, dates: Option<Key> -> int)
    requires k < |events|
  {
    var alerts := Play(events[..k]);
    events[k].DECIDE? && events[k].decision.verdict == TRUE && IsDisabled(alerts) && Older(alerts, events[k].decision, dates)
  }

  // The alerts are in the order of their evidence at every point of a history, exactly if no event
  // of it goes back behind a reset.
  lemma {:induction false} InOrderExactly(events: seq<Event>, dates: Option<Key> -> int)
    requires DatedEvents(events, dates)
    ensures (forall k :: 0 <= k <= |events| ==> InOrder(Play(events[..k]), dates)) <==>
              (forall k :: 0 <= k < |events| ==> !GoesBack(events, k, dates))
  {
    if events == [] {
      assert events[..0] == [];
    } else {
      var n := |events| - 1;
      var before, after := Play(events[..n]), Play(events);
      InOrderExactly(events[..n], dates);
      HistoryIsDated(events[..n], dates);
      AtMostOneOpen(events[..n]);
      assert DatedEvent(events[n], dates);
      match events[n] {
        case DECIDE(d, now) => DecisionGoesForward(before, d, now, dates);
        case RESET(now) => ResetKeepsEvidence(before, now, dates);
      }
      assert InOrder(before, dates) ==> (InOrder(after, dates) <==> !GoesBack(events, n, dates));
      Prefixes(events, dates);
    }
  }

  // Points of a history and of the same history without its last event.
  lemma Prefixes(events: seq<Event>, dates: Option<Key> -> int)
    requires events != []
    ensures var n := |events| - 1;
            && events[..|events|] == events
            && (forall k :: 0 <= k <= n ==> events[..n][..k] == events[..k])
            && (forall k :: 0 <= k < n ==> (GoesBack(events[..n], k, dates) <==> GoesBack(events, k, dates)))
  {
    var n := |events| - 1;
    forall k | 0 <= k <= n
      ensures events[..n][..k] == events[..k]
    {
    }
  }

  // The event at this place closes an open alert without an answer.
  predicate Closes(events: seq<Event>, k: nat)
    requires k < |events|
  {
    events[k].RESET? && HasOpen(Play(events[..k]))
  }

  // DISABLED alerts are there exactly if a reset closed an open one.
  lemma {:induction false} DisabledExactlyByResets(events: seq<Event>)
    ensures AnyDisabled(Play(events)) <==> AnyCloses(events)
  {
    if events != [] {
      var n := |events| - 1;
      DisabledExactlyByResets(events[..n]);
      AtMostOneOpen(events[..n]);
      EventDisables(Play(events[..n]), events[n]);
      EarlierCloses(events);
    }
  }

  lemma EarlierCloses(events: seq<Event>)
    requires events != []
    ensures AnyCloses(events) <==> AnyCloses(events[..|events| - 1]) || Closes(events, |events| - 1)
  {
    var n := |events| - 1;
    assert forall k :: 0 <= k <= n ==> events[..n][..k] == events[..k];
    assert forall k :: 0 <= k < n ==> (Closes(events[..n], k) <==> Closes(events, k));
  }

  predicate AnyDisabled(alerts: seq<Alert>) {
    exists i :: 0 <= i < |alerts| && alerts[i].status == DISABLED
  }

  predicate AnyCloses(events: seq<Event>) {
    exists k :: 0 <= k < |events| && Closes(events, k)
  }

  lemma EventDisables(alerts: seq<Alert>, event: Event)
    requires OneOpen(alerts)
    ensures AnyDisabled(After(alerts, event)) <==> AnyDisabled(alerts) || (event.RESET? && HasOpen(alerts))
  {
    var after := After(alerts, event);
    if i :| 0 <= i < |alerts| && (alerts[i].status == DISABLED || (event.RESET? && alerts[i].status == OPEN)) {
      assert after[i].status == DISABLED;
    }
    if i :| 0 <= i < |after| && after[i].status == DISABLED {
      assert i < |alerts| && (alerts[i].status == DISABLED || (event.RESET? && alerts[i].status == OPEN));
    }
  }

  // With dated decisions the evidence of a fingerprint never goes back, over its whole history,
  // as long as no reset closes an open alert.
  lemma EvidenceNeverGoesBack(events: seq<Event>, dates: Option<Key> -> int)
    requires DatedEvents(events, dates) && !AnyCloses(events)
    ensures InOrder(Play(events), dates)
  {
    forall k | 0 <= k < |events|
      ensures !GoesBack(events, k, dates)
    {
      var before := events[..k];
      assert forall j :: 0 <= j < k ==> before[..j] == events[..j];
      assert forall j :: 0 <= j < k ==> (Closes(before, j) <==> Closes(events, j));
      DisabledExactlyByResets(before);
    }
    InOrderExactly(events, dates);
    assert events[..|events|] == events;
  }

  // Older evidence than what is stored has no effect at all, unless it asks for an alert and a
  // reset closed the newest one.
  lemma OlderEvidenceHasNoEffect(events: seq<Event>, dates: Option<Key> -> int, d: Decision, now: int)
    requires DatedEvents(events, dates) && Dated(d, dates) && d.verdict != UNKNOWN
    requires Older(Play(events), d, dates)
    ensures Applied(Play(events), d, now) == Play(events) <==> !(IsDisabled(Play(events)) && d.verdict == TRUE)
  {
    HistoryIsDated(events, dates);
    AtMostOneOpen(events);
  }

  // Behind a reset every decision that asks for an alert opens one, however old its evidence is,
  // and older evidence then stands behind newer.
  lemma ResetForgetsOrder(events: seq<Event>, at: int, d: Decision, now: int, dates: Option<Key> -> int)
    requires HasOpen(Play(events)) && d.verdict == TRUE
    ensures var before, after := Play(events), Play(events + [RESET(at), DECIDE(d, now)]);
            && |after| == |before| + 1 && after[|before|] == Alert(OPEN, d.observedAt, d.evidence, 0, now, TRUE)
            && (Older(before, d, dates) ==> !InOrder(after, dates))
  {
    AtMostOneOpen(events);
    var before, more := Play(events), events + [RESET(at), DECIDE(d, now)];
    assert more[..|events| + 1] == events + [RESET(at)];
    assert (events + [RESET(at)])[..|events|] == events;
    var closed, after := Reset(before, at), Play(more);
    assert after == Applied(closed, d, now) == closed + [Alert(OPEN, d.observedAt, d.evidence, 0, now, TRUE)];
    var n := |before| - 1;
    assert after[n].evidence == before[n].evidence && after[n + 1].evidence == d.evidence;
  }
}
