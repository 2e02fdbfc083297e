/** The reconciliation as the service runs it: two loops over sorted codes, each changing one state row and the log in place. */
module AlertStore {
  import opened Ordering
  import opened Alerts
  import O = AlertOutcomes

  class AlertBoard {
    var table: map<Id, State>
    var log: seq<Note>
    var next: nat
    var head: Option<Seal>

    function View(): Board
      reads this
    {
      Board(table, log, next, head)
    }

    ghost predicate Valid()
      reads this
    {
      Inv(View())
    }

    constructor ()
      ensures Valid() && View() == Empty()
    {
      table, log, next, head := map[], [], 1, None;
      new;
      assert Table(Empty()) == map[];
    }

    /** Checks the head against the last notification before linking a new one to it. */
    method AppendNotification(code: Id, transition: Transition, now: int) returns (accepted: bool)
      requires code in table && next == |log| + 1
      modifies this`log, this`next, this`head
      ensures accepted == HeadAgrees(old(View()))
      ensures !accepted ==> View() == old(View())
      ensures accepted ==> HeadAgrees(View()) && View() == Store(old(View()), code, table[code], Some(transition), now)
    {
      if next == 1 {
        if head != None { return false; }
      } else {
        var previous := log[next - 2];
        if head != Some(previous.seal) { return false; }
        if previous.facts.sequence != next - 1 || previous.seal != Seal(previous.facts, previous.previous) { return false; }
      }
      var s := table[code];
      var facts := Facts(next, code, transition, s.severity, s.domain, s.count, s.revision, now);
      var record := Note(facts, head, Seal(facts, head));
      assert table[code := s] == table;
      log := log + [record];
      next := next + 1;
      head := Some(record.seal);
      accepted := true;
    }

    method ObserveAlert(code: Id, alert: Alert, now: int)
      requires HeadAgrees(View())
      modifies this
      ensures HeadAgrees(View()) && View() == Observe(old(View()), code, alert, now)
    {
      var transition := None;
      if code !in table {
        table := table[code := State(alert.domain, alert.severity, true, alert.count, 1, now, now, None)];
        transition := Some(Opened);
      } else if !table[code].active {
        var state := table[code];
        state := state.(active := true);
        state := state.(count := alert.count, domain := alert.domain, severity := alert.severity);
        state := state.(revision := state.revision + 1);
        state := state.(lastSeen := now, resolvedAt := None);
        table := table[code := state];
        transition := Some(Opened);
      } else {
        var state := table[code];
        var changed := state.count != alert.count || state.domain != alert.domain || state.severity != alert.severity;
        state := state.(count := alert.count, domain := alert.domain, severity := alert.severity, lastSeen := now);
        if changed {
          state := state.(revision := state.revision + 1);
          transition := Some(Updated);
        }
        table := table[code := state];
      }
      if transition != None {
        var accepted := AppendNotification(code, transition.value, now);
        assert accepted;
      }
    }

    method ResolveAlert(code: Id, now: int)
      requires code in table && HeadAgrees(View())
      modifies this
      ensures HeadAgrees(View()) && View() == Resolve(old(View()), code, now)
    {
      var state := table[code];
      if !state.active { return; }
      table := table[code := state.(active := false, count := 0, revision := state.revision + 1, resolvedAt := Some(now))];
      var accepted := AppendNotification(code, Resolved, now);
      assert accepted;
    }

    method ObserveReported(current: map<Id, Alert>, codes: seq<Id>, now: int)
      requires (forall c | c in codes :: c in current) && HeadAgrees(View())
      modifies this
      ensures HeadAgrees(View())
      ensures View() == ObserveAll(old(View()), current, codes, now) && old(table.Keys) <= table.Keys
    {
      hide Inv, Observe;
      ghost var b := View();
      assert codes[0..] == codes;
      for k := 0 to |codes|
        invariant ObserveAll(View(), current, codes[k..], now) == ObserveAll(b, current, codes, now)
        invariant b.table.Keys <= table.Keys && HeadAgrees(View())
      {
        KnownStaysKnown(View(), codes[k], current[codes[k]], now);
        assert codes[k..][0] == codes[k] && codes[k..][1..] == codes[k + 1..];
        ObserveAlert(codes[k], current[codes[k]], now);
      }
      assert codes[|codes|..] == [];
    }

    method ResolveMissing(codes: seq<Id>, now: int)
      requires (forall c | c in codes :: c in table) && HeadAgrees(View())
      modifies this
      ensures HeadAgrees(View())
      ensures View() == ResolveAll(old(View()), codes, now)
    {
      hide Inv, Resolve;
      ghost var b := View();
      assert codes[0..] == codes;
      for k := 0 to |codes|
        invariant ResolveAll(View(), codes[k..], now) == ResolveAll(b, codes, now)
        invariant b.table.Keys == table.Keys && HeadAgrees(View())
      {
        ResolvedStaysKnown(View(), codes[k], now);
        assert codes[k..][0] == codes[k] && codes[k..][1..] == codes[k + 1..];
        ResolveAlert(codes[k], now);
      }
      assert codes[|codes|..] == [];
    }

    method ReconcileAlerts(current: map<Id, Alert>, now: int) returns (ghost snapshot: Snapshot)
      requires Valid()
      modifies this
      ensures snapshot.alerts == current && snapshot.at == now && Suits(old(View()), snapshot)
      ensures Valid() && View() == Reconcile(old(View()), current, snapshot.reported, snapshot.missing, now)
      ensures O.TableLaw(old(View()), current, now, View()) && O.LogLaw(old(View()), current, now, View())
    {
      hide Inv, ObserveAll, ResolveAll, O.TableLaw, O.LogLaw;
      var known := table.Keys;
      var reported := OrderBy(CodeKeys(current.Keys));
      var missing := OrderBy(CodeKeys(known - current.Keys));
      snapshot := Snapshot(current, reported, missing, now);
      O.ReconcileIsLawful(View(), current, reported, missing, now);
      ReconcileKeepsInv(View(), current, reported, missing, now);
      HeadHolds(View());
      ObserveReported(current, reported, now);
      ResolveMissing(missing, now);
    }
  }

  lemma {:induction false} HeadHolds(b: Board)
    requires Inv(b)
    ensures HeadAgrees(b)
  {
  }

  lemma {:induction false} KnownStaysKnown(b: Board, code: Id, alert: Alert, now: int)
    ensures b.table.Keys <= Observe(b, code, alert, now).table.Keys
  {
  }

  lemma {:induction false} ResolvedStaysKnown(b: Board, code: Id, now: int)
    ensures Resolve(b, code, now).table.Keys == b.table.Keys
  {
  }
}
