/** What the loop makes of one message, told outright: the path of steps its fate prescribes, and what
    that path leaves behind. */
module Outcomes {
  import opened Events
  import opened Folds
  import opened Histories
  import opened LocalStore
  import opened Runtime
  import Loop = AtLeastOnce

  lemma {:induction false} ExecSplit(
    s: Loop.State, acts: seq<Loop.Action>, more: seq<Loop.Action>, u: Loop.State)
    returns (t: Loop.State)
    requires Loop.Exec(s, acts + more) == Some(u)
    ensures Loop.Exec(s, acts) == Some(t) && Loop.Exec(t, more) == Some(u)
  {
    if more == [] {
      assert acts + more == acts;
      t := u;
    } else {
      var all, init := acts + more, more[..|more| - 1];
      assert all[..|all| - 1] == acts + init;
      t := ExecSplit(s, acts, init, Loop.Exec(s, all[..|all| - 1]).value);
    }
  }

  /** Reports move records out of the queue and nothing else. */
  lemma {:induction false} ReportsOnlyReport(w: Loop.State, acts: seq<Loop.Action>, t: Loop.State)
    requires Loop.Exec(w, acts) == Some(t) && forall a :: a in acts ==> a.Land? || a.LoseRecord?
    ensures OnlyReported(w, t) && t.moved == w.moved && |acts| <= |w.inFlight| && t.inFlight == w.inFlight[|acts|..]
  {
    if acts != [] {
      var init, a := acts[..|acts| - 1], acts[|acts| - 1];
      var before := Loop.Exec(w, init).value;
      assert a in acts && forall b :: b in init ==> b in acts;
      ReportsOnlyReport(w, init, before);
    }
  }

  lemma {:induction false} ReportStepsReport(reports: seq<Report>)
    ensures |ReportSteps(reports)| == |reports|
    ensures forall a :: a in ReportSteps(reports) ==> a.Land? || a.LoseRecord?
  {
    if reports != [] { ReportStepsReport(reports[1..]); }
  }

  lemma {:induction false} OneStep(w: Loop.State, a: Loop.Action, t: Loop.State)
    requires Loop.Exec(w, [a]) == Some(t)
    ensures Loop.Enabled(w, a) && t == Loop.Do(w, a)
  {
    assert [a][..0] == [];
  }

  lemma {:induction false} TwoSteps(w: Loop.State, a: Loop.Action, b: Loop.Action, t: Loop.State)
    requires Loop.Exec(w, [a, b]) == Some(t)
    ensures Loop.Enabled(w, a) && Loop.Enabled(Loop.Do(w, a), b) && t == Loop.Do(Loop.Do(w, a), b)
  {
    assert [a, b] == [a] + [b];
    var u := ExecSplit(w, [a], [b], t);
    OneStep(w, a, u);
    OneStep(u, b, t);
  }

  /** The offset a settled message leaves committed. */
  predicate OffsetSettled(w: Loop.State, fate: Fate, t: Loop.State) {
    t.committed == if fate.commitAccepted then w.position + 1 else w.committed
  }

  /** A message not folded: read past and its offset settled, with nothing of the store touched. */
  predicate ReadPast(w: Loop.State, fate: Fate, t: Loop.State) {
    t.phase.Ready? && t.position == w.position + 1 && t.store == w.store && OffsetSettled(w, fate, t)
  }

  /** Too few reports and the process is down with its offset where it was; enough, and the fold is stored,
      nothing is left in flight, and the offset is settled. */
  lemma {:induction false} SaveOutcome(w: Loop.State, fate: Fate, t: Loop.State)
    requires w.phase.Ran? && w.order.StateFirst? && Loop.Exec(w, SavePath(|w.inFlight|, fate)) == Some(t)
    ensures t.alarms == w.alarms && t.moved == w.moved
    ensures if |w.inFlight| < |fate.reports|
            then t.phase.Ready? && t.store == Handled(w.store, w.phase.d.event) && t.inFlight == [] &&
                 t.committed == if fate.commitAccepted then w.phase.d.offset + 1 else w.committed
            else t.phase.Down? && t.committed == w.committed
  {
    var due := |w.inFlight| + 1;
    if due <= |fate.reports| {
      var reported := ReportSteps(fate.reports[..due]);
      ReportStepsReport(fate.reports[..due]);
      var u := ExecSplit(w, [Loop.Save] + reported, [Loop.Flush, Settles(fate)], t);
      var v := ExecSplit(w, [Loop.Save], reported, u);
      OneStep(w, Loop.Save, v);
      ReportsOnlyReport(v, reported, u);
      TwoSteps(u, Loop.Flush, Settles(fate), t);
    } else {
      StopOutcome(w, fate, t);
    }
  }

  lemma {:induction false} StopOutcome(w: Loop.State, fate: Fate, t: Loop.State)
    requires w.phase.Ran? && w.order.StateFirst? && |fate.reports| <= |w.inFlight|
    requires Loop.Exec(w, SavePath(|w.inFlight|, fate)) == Some(t)
    ensures t.alarms == w.alarms && t.moved == w.moved && t.phase.Down? && t.committed == w.committed
  {
    var last := Least(|w.inFlight| + 1 - |fate.reports|, |fate.closing|);
    var reported, closing := ReportSteps(fate.reports), ReportSteps(fate.closing[..last]);
    ReportStepsReport(fate.reports);
    ReportStepsReport(fate.closing[..last]);
    var u := ExecSplit(w, [Loop.Save] + reported + closing, [Loop.Crash], t);
    OneStep(u, Loop.Crash, t);
    var x := ExecSplit(w, [Loop.Save] + reported, closing, u);
    ReportsOnlyReport(x, closing, u);
    var v := ExecSplit(w, [Loop.Save], reported, x);
    ReportsOnlyReport(v, reported, x);
    OneStep(w, Loop.Save, v);
  }

  /** One message and its fate, told outright. An event is folded exactly when its handler succeeds; a failed
      or unreadable one is moved elsewhere and read past when its copy is acknowledged, and otherwise stays
      to be read again; another service's retry is read past; a tombstone erases its order. What is
      reported is reported whatever becomes of the message. */
  lemma {:induction false} MessageOutcome(w: Loop.State, fate: Fate, t: Loop.State)
    requires w.phase.Ready? && w.order.StateFirst? && w.position < |w.log|
    requires Loop.Exec(w, Path(w, fate)) == Some(t)
    ensures var m := w.log[w.position];
            && t.alarms == w.alarms + (if m.Decoded? then Alarms(Get(w.store, m.event.orderId), m.event) else [])
            && (m.NotOurs? ==> ReadPast(w, fate, t) && t.moved == w.moved)
            && (m.Tombstone? ==>
                  && t.store == w.store - {m.orderId} && t.position == w.position + 1
                  && t.inFlight == w.inFlight + [Write(m.orderId, None)] && OffsetSettled(w, fate, t))
            && (m.Undecodable? || (m.Decoded? && !fate.handlerSucceeds) ==>
                  if fate.copyAcknowledged then ReadPast(w, fate, t) && t.moved == w.moved + {w.position}
                  else t == w.(alarms := t.alarms))
            && (m.Decoded? && fate.handlerSucceeds ==>
                  && t.moved == w.moved
                  && if |w.inFlight| < |fate.reports|
                     then t.phase.Ready? && t.store == Handled(w.store, m.event) && t.inFlight == [] &&
                          OffsetSettled(w, fate, t)
                     else t.phase.Down? && t.committed == w.committed)
  {
    var m := w.log[w.position];
    if m.Decoded? && fate.handlerSucceeds {
      var u := ExecSplit(w, [Loop.Handle], SavePath(|w.inFlight|, fate), t);
      OneStep(w, Loop.Handle, u);
      SaveOutcome(u, fate, t);
    } else if m.NotOurs? {
      TwoSteps(w, Loop.PassOver, Settles(fate), t);
    } else if m.Tombstone? {
      TwoSteps(w, Loop.Erase, Settles(fate), t);
    } else if fate.copyAcknowledged {
      TwoSteps(w, Loop.RouteAway, Settles(fate), t);
    } else {
      OneStep(w, Loop.RouteFailed, t);
    }
  }
}
