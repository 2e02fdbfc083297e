/** What a reconciliation does to each alert, field by field, and which notifications it writes, in which order. */
module AlertOutcomes {
  import opened Ordering
  import opened Alerts

  // ---------- the terms ----------

  /** The state of a reported alert after it was looked at. */
  predicate Reported(before: map<Id, State>, c: Id, a: Alert, now: int, s: State) {
    && s.active && s.domain == a.domain && s.severity == a.severity && s.count == a.count && s.lastSeen == now
    && (c !in before ==> s.revision == 1 && s.firstSeen == now && s.resolvedAt == None)
    && (c in before ==> s.firstSeen == before[c].firstSeen)
    && (c in before && !before[c].active ==> s.revision == before[c].revision + 1 && s.resolvedAt == None)
    && (c in before && before[c].active ==>
          && s.resolvedAt == before[c].resolvedAt
          && s.revision == before[c].revision + if Altered(before[c], a) then 1 else 0)
  }

  predicate Altered(s: State, a: Alert) {
    !(s.count == a.count && s.domain == a.domain && s.severity == a.severity)
  }

  /** The state of an alert that the snapshot does not report. */
  predicate Missing(before: State, now: int, s: State) {
    if before.active then
      && !s.active && s.count == 0 && s.revision == before.revision + 1 && s.resolvedAt == Some(now)
      && s.domain == before.domain && s.severity == before.severity && s.firstSeen == before.firstSeen && s.lastSeen == before.lastSeen
    else s == before
  }

  /** The transition a code is notified of, if it is. */
  function Announcement(before: map<Id, State>, current: map<Id, Alert>, c: Id): Option<Transition> {
    if c in current then
      if c !in before || !before[c].active then Some(Opened)
      else if Altered(before[c], current[c]) then Some(Updated) else None
    else if c in before && before[c].active then Some(Resolved) else None
  }

  /** The notification carries the code's new state, its transition, the next sequence and the time. */
  predicate Tells(before: map<Id, State>, current: map<Id, Alert>, after: map<Id, State>, n: Note, sequence: int, now: int) {
    && var f := n.facts;
       && f.code in after && Announcement(before, current, f.code) == Some(f.transition)
       && f.severity == after[f.code].severity && f.domain == after[f.code].domain && f.count == after[f.code].count
       && f.revision == after[f.code].revision && f.sequence == sequence && f.occurredAt == now
  }

  /** Reported codes before missing ones, each group in code order. */
  predicate ToldBefore(current: map<Id, Alert>, c: Id, d: Id) {
    if c in current && d in current then c < d
    else if c !in current && d !in current then c < d
    else c in current
  }

  /** The log gained one notification for each code that has something to tell, in order. */
  ghost predicate LogLaw(before: Board, current: map<Id, Alert>, now: int, after: Board) {
    var n := |before.log|;
    && n <= |after.log| && after.log[..n] == before.log
    && (forall k | n <= k < |after.log| :: Tells(before.table, current, after.table, after.log[k], k + 1, now))
    && (forall i, j | n <= i < j < |after.log| :: ToldBefore(current, after.log[i].facts.code, after.log[j].facts.code))
    && (forall c | c in after.table && Announcement(before.table, current, c).Some? ::
          exists k :: n <= k < |after.log| && after.log[k].facts.code == c)
  }

  ghost predicate TableLaw(before: Board, current: map<Id, Alert>, now: int, after: Board) {
    && after.table.Keys == before.table.Keys + current.Keys
    && (forall c | c in current :: Reported(before.table, c, current[c], now, after.table[c]))
    && (forall c | c in before.table && c !in current :: Missing(before.table[c], now, after.table[c]))
  }

  // ---------- the table ----------

  lemma {:induction false} TableIsLawful(b: Board, current: map<Id, Alert>, reported: seq<Id>, missing: seq<Id>, now: int)
    requires InOrder(reported, current.Keys) && InOrder(missing, b.table.Keys - current.Keys)
    ensures TableLaw(b, current, now, Reconcile(b, current, reported, missing, now))
  {
    hide ObserveAll, ResolveAll;
    var t := Reconcile(b, current, reported, missing, now);
    forall c ensures (c in t.table <==> c in b.table || c in current)
                     && (c in current ==> Reported(b.table, c, current[c], now, t.table[c]))
                     && (c in b.table && c !in current ==> Missing(b.table[c], now, t.table[c]))
    {
      ObservedOnce(b, current, reported, now, c);
      ResolvedOnce(ObserveAll(b, current, reported, now), missing, now, c);
    }
  }

  // ---------- the log ----------

  /** Every code of the sequence is smaller than those after it. */
  predicate Increasing(codes: seq<Id>) {
    forall i, j | 0 <= i < j < |codes| :: codes[i] < codes[j]
  }

  lemma {:induction false} OrderedCodes(codes: seq<Id>, all: set<Id>)
    requires InOrder(codes, all)
    ensures Increasing(codes) && NoDuplicates(codes)
  {
  }

  /** The log gained, for codes of the sequence, notifications in its order that carry the states of the table. */
  ghost predicate Gained(b: Board, t: Board, codes: seq<Id>, now: int) {
    var n := |b.log|;
    && n <= |t.log| && t.log[..n] == b.log && t.next == b.next + (|t.log| - n)
    && (forall k | n <= k < |t.log| :: Carries(t, t.log[k], b.next + (k - n), now) && t.log[k].facts.code in codes)
    && (forall i, j | n <= i < j < |t.log| :: t.log[i].facts.code < t.log[j].facts.code)
  }

  predicate Carries(t: Board, n: Note, sequence: int, now: int) {
    && n.facts.code in t.table && n.facts.sequence == sequence && n.facts.occurredAt == now
    && n.facts.severity == t.table[n.facts.code].severity && n.facts.domain == t.table[n.facts.code].domain
    && n.facts.count == t.table[n.facts.code].count && n.facts.revision == t.table[n.facts.code].revision
  }

  /** No notification, or one of the code, with its state in the final table. */
  predicate AtMostOne(b: Board, m: Board, t: Board, code: Id, now: int) {
    || (m.log == b.log && m.next == b.next)
    || (&& |m.log| == |b.log| + 1 && m.log[..|b.log|] == b.log && m.next == b.next + 1
        && m.log[|b.log|].facts.code == code && Carries(t, m.log[|b.log|], b.next, now))
  }

  /** One look at a code, or one resolution, and then the rest. */
  lemma {:induction false} GainedAfter(b: Board, m: Board, t: Board, codes: seq<Id>, now: int)
    requires codes != [] && Increasing(codes) && Gained(m, t, codes[1..], now)
    requires AtMostOne(b, m, t, codes[0], now)
    ensures Gained(b, t, codes, now)
  {
    hide Carries;
    var n := |b.log|;
    assert forall k | 0 <= k < |codes[1..]| :: codes[1..][k] == codes[k + 1] && codes[k + 1] > codes[0];
    if m.log != b.log {
      assert t.log[n] == m.log[n];
      assert t.log[..n] == t.log[..n + 1][..n];
    }
  }

  lemma {:induction false} NothingGained(b: Board, now: int)
    ensures Gained(b, b, [], now)
  {
  }

  lemma {:induction false} ObservedLog(b: Board, current: map<Id, Alert>, codes: seq<Id>, now: int)
    requires Increasing(codes) && NoDuplicates(codes) && forall x | x in codes :: x in current
    ensures Gained(b, ObserveAll(b, current, codes, now), codes, now)
    decreases |codes|
  {
    hide Gained, Increasing, Carries;
    if codes == [] {
      NothingGained(b, now);
    } else {
      var m := Observe(b, codes[0], current[codes[0]], now);
      TailIncreases(codes);
      ObservedLog(m, current, codes[1..], now);
      ObservedOnce(m, current, codes[1..], now, codes[0]);
      var t := ObserveAll(b, current, codes, now);
      ObserveNotes(b, codes[0], current[codes[0]], now, t);
      hide Observe, ObserveAll;
      GainedAfter(b, m, t, codes, now);
    }
  }

  lemma {:induction false} TailIncreases(codes: seq<Id>)
    requires codes != [] && Increasing(codes)
    ensures Increasing(codes[1..]) && codes[0] !in codes[1..]
  {
  }

  lemma {:induction false} ObserveNotes(b: Board, code: Id, a: Alert, now: int, t: Board)
    requires code in t.table && t.table[code] == Observe(b, code, a, now).table[code]
    ensures AtMostOne(b, Observe(b, code, a, now), t, code, now)
  {
  }

  lemma {:induction false} ResolvedLog(b: Board, codes: seq<Id>, now: int)
    requires Increasing(codes) && NoDuplicates(codes)
    ensures Gained(b, ResolveAll(b, codes, now), codes, now)
    decreases |codes|
  {
    hide Gained, Increasing, Carries;
    if codes == [] {
      NothingGained(b, now);
    } else {
      var m := Resolve(b, codes[0], now);
      TailIncreases(codes);
      ResolvedLog(m, codes[1..], now);
      ResolvedOnce(m, codes[1..], now, codes[0]);
      var t := ResolveAll(b, codes, now);
      ResolveNotes(b, codes[0], now, t);
      hide Resolve, ResolveAll;
      GainedAfter(b, m, t, codes, now);
    }
  }

  lemma {:induction false} ResolveNotes(b: Board, code: Id, now: int, t: Board)
    requires code in b.table ==> code in t.table && t.table[code] == Resolve(b, code, now).table[code]
    ensures AtMostOne(b, Resolve(b, code, now), t, code, now)
  {
  }

  // ---------- which codes are told, and as what ----------

  /** The transitions written for one code by a look or a resolution. */
  lemma {:induction false} ObserveTells(b: Board, current: map<Id, Alert>, code: Id, now: int, c: Id)
    requires code in current
    ensures History(Observe(b, code, current[code], now).log, c)
         == History(b.log, c) + if c == code && Announcement(b.table, current, c).Some? then [Announcement(b.table, current, c).value] else []
  {
    hide History, Replay;
    var t := Observe(b, code, current[code], now);
    if t.log != b.log { HistoryAfter(b.log, t.log[|t.log| - 1], c); }
  }

  lemma {:induction false} ResolveTells(b: Board, current: map<Id, Alert>, code: Id, now: int, c: Id)
    requires code !in current
    ensures History(Resolve(b, code, now).log, c)
         == History(b.log, c) + if c == code && Announcement(b.table, current, c).Some? then [Announcement(b.table, current, c).value] else []
  {
    hide History, Replay;
    var t := Resolve(b, code, now);
    if t.log != b.log { HistoryAfter(b.log, t.log[|t.log| - 1], c); }
  }

  function Told(before: map<Id, State>, current: map<Id, Alert>, c: Id, looked: bool): seq<Transition> {
    if looked && Announcement(before, current, c).Some? then [Announcement(before, current, c).value] else []
  }

  lemma {:induction false} AppendNone<T>(q: seq<T>)
    ensures q + [] == q
  {
  }

  lemma {:induction false} ObserveAllTells(b: Board, current: map<Id, Alert>, codes: seq<Id>, now: int, c: Id)
    requires NoDuplicates(codes) && forall x | x in codes :: x in current
    ensures History(ObserveAll(b, current, codes, now).log, c) == History(b.log, c) + Told(b.table, current, c, c in codes)
    decreases |codes|
  {
    AppendNone(History(b.log, c));
    if codes != [] {
      var m := Observe(b, codes[0], current[codes[0]], now);
      ObserveTells(b, current, codes[0], now, c);
      ObserveAllTells(m, current, codes[1..], now, c);
      AppendNone(History(m.log, c));
      assert codes[0] !in codes[1..];
      if c != codes[0] { SameAnnouncement(b, m, current, codes[0], now, c); }
      hide History, ObserveAll, Announcement, Observe;
    }
  }

  /** A look at one code leaves what there is to tell of another. */
  lemma {:induction false} SameAnnouncement(b: Board, m: Board, current: map<Id, Alert>, code: Id, now: int, c: Id)
    requires code in current && m == Observe(b, code, current[code], now) && c != code
    ensures Announcement(m.table, current, c) == Announcement(b.table, current, c)
  {
  }

  lemma {:induction false} ResolveAllTells(b: Board, current: map<Id, Alert>, codes: seq<Id>, now: int, c: Id)
    requires NoDuplicates(codes) && forall x | x in codes :: x !in current
    ensures History(ResolveAll(b, codes, now).log, c) == History(b.log, c) + Told(b.table, current, c, c in codes)
    decreases |codes|
  {
    AppendNone(History(b.log, c));
    if codes != [] {
      var m := Resolve(b, codes[0], now);
      ResolveTells(b, current, codes[0], now, c);
      ResolveAllTells(m, current, codes[1..], now, c);
      AppendNone(History(m.log, c));
      assert codes[0] !in codes[1..];
      if c != codes[0] { SameAfterResolve(b, m, current, codes[0], now, c); }
      hide History, ResolveAll, Announcement, Resolve;
    }
  }

  lemma {:induction false} SameAfterResolve(b: Board, m: Board, current: map<Id, Alert>, code: Id, now: int, c: Id)
    requires m == Resolve(b, code, now) && c != code
    ensures Announcement(m.table, current, c) == Announcement(b.table, current, c)
  {
  }

  /** A reconciliation tells of a code exactly the transition that its states before and in the snapshot give. */
  lemma {:induction false} ReconcileTells(b: Board, current: map<Id, Alert>, reported: seq<Id>, missing: seq<Id>, now: int, c: Id)
    requires InOrder(reported, current.Keys) && InOrder(missing, b.table.Keys - current.Keys)
    ensures History(Reconcile(b, current, reported, missing, now).log, c) == History(b.log, c) + Told(b.table, current, c, true)
  {
    OrderedCodes(reported, current.Keys);
    OrderedCodes(missing, b.table.Keys - current.Keys);
    var m := ObserveAll(b, current, reported, now);
    ObserveAllTells(b, current, reported, now, c);
    ResolveAllTells(m, current, missing, now, c);
    AppendNone(History(m.log, c));
    AppendNone(History(b.log, c));
    ObservedOnce(b, current, reported, now, c);
    hide History, ObserveAll, ResolveAll, Observe;
  }

  /** In a stretch without repeated codes, a code's transitions are its one notification. */
  lemma {:induction false} OneNote(log: seq<Note>, n: nat, c: Id, told: seq<Transition>)
    requires n <= |log| && History(log, c) == History(log[..n], c) + told
    requires forall i, j | n <= i < j < |log| :: log[i].facts.code != log[j].facts.code
    ensures told == [] ==> forall k | n <= k < |log| :: log[k].facts.code != c
    ensures told != [] ==> exists k :: n <= k < |log| && log[k].facts.code == c
    ensures forall k | n <= k < |log| && log[k].facts.code == c :: told == [log[k].facts.transition]
    decreases |log| - n
  {
    if n == |log| {
      assert log[..n] == log;
    } else {
      var last := |log| - 1;
      var shorter := log[..last];
      assert shorter[..n] == log[..n];
      AppendNone(History(log[..n], c));
      if log[last].facts.code == c {
        StretchWithout(log, n, last, c);
        assert History(log, c) == History(log[..n], c) + [log[last].facts.transition];
        SamePrefix(History(log[..n], c), told, [log[last].facts.transition]);
      } else {
        OneNote(shorter, n, c, told);
        if k :| n <= k < |shorter| && shorter[k].facts.code == c { assert log[k].facts.code == c; }
        forall k | n <= k < |log| && log[k].facts.code == c ensures told == [log[k].facts.transition] { assert shorter[k] == log[k]; }
        forall k | n <= k < |log| && told == [] ensures log[k].facts.code != c { if k < last { assert shorter[k] == log[k]; } }
      }
    }
  }

  lemma {:induction false} SamePrefix<T>(p: seq<T>, a: seq<T>, b: seq<T>)
    requires p + a == p + b
    ensures a == b
  {
    assert a == (p + a)[|p|..];
    assert b == (p + b)[|p|..];
  }

  lemma {:induction false} StretchWithout(log: seq<Note>, n: nat, m: nat, c: Id)
    requires n <= m < |log| && forall k | n <= k < m :: log[k].facts.code != c
    ensures History(log[..m], c) == History(log[..n], c)
    decreases m - n
  {
    if n < m {
      StretchWithout(log, n, m - 1, c);
      assert log[..m][..m - 1] == log[..m - 1];
    }
  }

  // ---------- the law ----------

  /** The reported codes' notifications come first and keep their states; the missing codes' follow. */
  lemma {:induction false} LogIsLawful(b: Board, current: map<Id, Alert>, reported: seq<Id>, missing: seq<Id>, now: int)
    requires HeadAgrees(b) && InOrder(reported, current.Keys) && InOrder(missing, b.table.Keys - current.Keys)
    ensures LogLaw(b, current, now, Reconcile(b, current, reported, missing, now))
  {
    OrderedCodes(reported, current.Keys);
    OrderedCodes(missing, b.table.Keys - current.Keys);
    var m := ObserveAll(b, current, reported, now);
    var t := ResolveAll(m, missing, now);
    ObservedLog(b, current, reported, now);
    ResolvedLog(m, missing, now);
    var n := |b.log|;
    hide ObserveAll, ResolveAll, Tells, Announcement, Carries;
    PrefixOf(b.log, m.log, t.log);
    forall i, j | n <= i < j < |t.log| ensures ToldBefore(current, t.log[i].facts.code, t.log[j].facts.code) {
      if i < |m.log| { assert t.log[i] == m.log[i]; }
      if j < |m.log| { assert t.log[j] == m.log[j]; }
    }
    forall k | n <= k < |t.log| ensures Tells(b.table, current, t.table, t.log[k], k + 1, now) {
      NoteTells(b, m, t, current, reported, missing, now, k);
    }
    forall c | c in t.table && Announcement(b.table, current, c).Some? ensures exists k :: n <= k < |t.log| && t.log[k].facts.code == c {
      ReconcileTells(b, current, reported, missing, now, c);
      OneNote(t.log, n, c, Told(b.table, current, c, true));
    }
  }

  lemma {:induction false} PrefixOf(a: seq<Note>, b: seq<Note>, c: seq<Note>)
    requires |a| <= |b| <= |c| && b[..|a|] == a && c[..|b|] == b
    ensures c[..|a|] == a
  {
    assert c[..|a|] == c[..|b|][..|a|];
  }

  lemma {:induction false} NoteTells(b: Board, m: Board, t: Board, current: map<Id, Alert>, reported: seq<Id>, missing: seq<Id>, now: int, k: nat)
    requires HeadAgrees(b) && InOrder(reported, current.Keys) && InOrder(missing, b.table.Keys - current.Keys)
    requires m == ObserveAll(b, current, reported, now) && t == ResolveAll(m, missing, now)
    requires Gained(b, m, reported, now) && Gained(m, t, missing, now) && |b.log| <= k < |t.log|
    requires t.log[..|b.log|] == b.log
    requires forall i, j | |b.log| <= i < j < |t.log| :: ToldBefore(current, t.log[i].facts.code, t.log[j].facts.code)
    ensures Tells(b.table, current, t.table, t.log[k], k + 1, now)
  {
    var c := t.log[k].facts.code;
    OrderedCodes(missing, b.table.Keys - current.Keys);
    ResolvedOnce(m, missing, now, c);
    ReconcileTells(b, current, reported, missing, now, c);
    hide ObserveAll, ResolveAll, Announcement, Resolve;
    OneNote(t.log, |b.log|, c, Told(b.table, current, c, true));
    if k < |m.log| { assert t.log[k] == m.log[k]; }
  }

  /** A reconciliation, told in the table and in the log. */
  lemma {:induction false} ReconcileIsLawful(b: Board, current: map<Id, Alert>, reported: seq<Id>, missing: seq<Id>, now: int)
    requires Inv(b) && InOrder(reported, current.Keys) && InOrder(missing, b.table.Keys - current.Keys)
    ensures var t := Reconcile(b, current, reported, missing, now); TableLaw(b, current, now, t) && LogLaw(b, current, now, t)
  {
    hide TableLaw, LogLaw;
    TableIsLawful(b, current, reported, missing, now);
    LogIsLawful(b, current, reported, missing, now);
  }

  /** Every reconciliation of every run. */
  lemma {:induction false} RunIsLawful(boards: seq<Board>, snapshots: seq<Snapshot>, k: nat)
    requires Run(boards, snapshots) && k < |snapshots|
    ensures TableLaw(boards[k], snapshots[k].alerts, snapshots[k].at, boards[k + 1])
    ensures LogLaw(boards[k], snapshots[k].alerts, snapshots[k].at, boards[k + 1])
  {
    RunKeepsInv(boards, snapshots, k);
    assert Suits(boards[k], snapshots[k]);
    hide Inv, TableLaw, LogLaw, Reconcile;
    ReconcileIsLawful(boards[k], snapshots[k].alerts, snapshots[k].reported, snapshots[k].missing, snapshots[k].at);
  }
}
