/**
 The lifecycle of runtime alerts: a table of alert states and the notifications its changes
 emit, reconciled against one health snapshot at a time.

 Alert codes are ordered texts and stand as natural numbers. A seal is the digest of a
 notification and of the one before it; it contains what it covers.
 */
module Alerts {
  import opened Ordering

  datatype Alert = Alert(domain: string, severity: string, count: nat)

  datatype State = State(domain: string, severity: string, active: bool, count: nat, revision: nat,
                         firstSeen: int, lastSeen: int, resolvedAt: Option<int>)

  datatype Transition = Opened | Updated | Resolved

  datatype Facts = Facts(sequence: nat, code: Id, transition: Transition, severity: string, domain: string, count: nat, revision: nat,
                         occurredAt: int)

  datatype Seal = Seal(facts: Facts, previous: Option<Seal>)

  datatype Note = Note(facts: Facts, previous: Option<Seal>, seal: Seal)

  /** The state table, the notifications, and the head row: the next sequence and the last seal. */
  datatype Board = Board(table: map<Id, State>, log: seq<Note>, next: nat, head: Option<Seal>)

  function Empty(): Board {
    Board(map[], [], 1, None)
  }

  function NoteOf(b: Board, code: Id, s: State, transition: Transition, now: int): Note {
    var facts := Facts(b.next, code, transition, s.severity, s.domain, s.count, s.revision, now);
    Note(facts, b.head, Seal(facts, b.head))
  }

  /** Stores a state; with a transition it is also announced under the next sequence and sealed to the head. */
  function Store(b: Board, code: Id, s: State, transition: Option<Transition>, now: int): Board {
    if transition == None then b.(table := b.table[code := s])
    else
      var note := NoteOf(b, code, s, transition.value, now);
      Board(b.table[code := s], b.log + [note], b.next + 1, Some(note.seal))
  }

  /** What appending checks first: the head names the last notification, and that one is whole in itself. */
  predicate HeadAgrees(b: Board) {
    && b.next == |b.log| + 1
    && if b.log == [] then b.head == None
       else
         var last := b.log[|b.log| - 1];
         b.head == Some(last.seal) && last.facts.sequence == b.next - 1 && last.seal == Seal(last.facts, last.previous)
  }

  predicate Changed(s: State, a: Alert) {
    s.count != a.count || s.domain != a.domain || s.severity != a.severity
  }

  /** An alert the snapshot reports: first seen, back again, changed, or as before. */
  function Observe(b: Board, code: Id, a: Alert, now: int): Board {
    if code !in b.table then Store(b, code, State(a.domain, a.severity, true, a.count, 1, now, now, None), Some(Opened), now)
    else
      var s := b.table[code];
      if !s.active then
        Store(b, code, s.(active := true, count := a.count, domain := a.domain, severity := a.severity, revision := s.revision + 1,
                          lastSeen := now, resolvedAt := None), Some(Opened), now)
      else
        var seen := s.(count := a.count, domain := a.domain, severity := a.severity, lastSeen := now);
        if Changed(s, a) then Store(b, code, seen.(revision := s.revision + 1), Some(Updated), now)
        else Store(b, code, seen, None, now)
  }

  /** An alert the snapshot no longer reports. */
  function Resolve(b: Board, code: Id, now: int): Board {
    if code !in b.table || !b.table[code].active then b
    else
      var s := b.table[code];
      Store(b, code, s.(active := false, count := 0, revision := s.revision + 1, resolvedAt := Some(now)), Some(Resolved), now)
  }

  function ObserveAll(b: Board, current: map<Id, Alert>, codes: seq<Id>, now: int): Board
    requires forall c | c in codes :: c in current
    decreases |codes|
  {
    if codes == [] then b else ObserveAll(Observe(b, codes[0], current[codes[0]], now), current, codes[1..], now)
  }

  function ResolveAll(b: Board, codes: seq<Id>, now: int): Board
    decreases |codes|
  {
    if codes == [] then b else ResolveAll(Resolve(b, codes[0], now), codes[1..], now)
  }

  function CodeKeys(codes: set<Id>): map<Id, Key> {
    map c | c in codes :: Key(c, 0, 0)
  }

  /** All of the codes, once each, in code order. */
  ghost predicate InOrder(codes: seq<Id>, all: set<Id>) {
    Sorted(CodeKeys(all), codes) && forall c :: c in codes <==> c in all
  }

  /** Reported codes first, then the ones no longer reported, both in code order. */
  function Reconcile(b: Board, current: map<Id, Alert>, reported: seq<Id>, missing: seq<Id>, now: int): Board
    requires forall c | c in reported :: c in current
  {
    ResolveAll(ObserveAll(b, current, reported, now), missing, now)
  }

  // ---------- what a reader of the log knows ----------

  /** The part of a state that notifications carry. */
  datatype Visible = Visible(domain: string, severity: string, active: bool, count: nat, revision: nat)

  function VisibleOf(s: State): Visible {
    Visible(s.domain, s.severity, s.active, s.count, s.revision)
  }

  function Announced(n: Note): Visible {
    Visible(n.facts.domain, n.facts.severity, n.facts.transition != Resolved, n.facts.count, n.facts.revision)
  }

  /** The table rebuilt from the notifications alone. */
  function Replay(log: seq<Note>): map<Id, Visible>
    decreases |log|
  {
    if log == [] then map[]
    else Replay(log[..|log| - 1])[log[|log| - 1].facts.code := Announced(log[|log| - 1])]
  }

  function Table(b: Board): map<Id, Visible> {
    map c | c in b.table :: VisibleOf(b.table[c])
  }

  /** The transitions announced for one code. */
  function History(log: seq<Note>, code: Id): seq<Transition>
    decreases |log|
  {
    if log == [] then []
    else
      var earlier := History(log[..|log| - 1], code);
      if log[|log| - 1].facts.code == code then earlier + [log[|log| - 1].facts.transition] else earlier
  }

  /** Opened, updated any number of times, resolved, and again. */
  predicate Lifecycle(h: seq<Transition>) {
    forall k | 0 <= k < |h| :: MayFollow(h, k)
  }

  predicate MayFollow(h: seq<Transition>, k: nat)
    requires k < |h|
  {
    h[k] == Opened <==> k == 0 || h[k - 1] == Resolved
  }

  ghost predicate CodeOk(b: Board, c: Id) {
    var h := History(b.log, c);
    && Lifecycle(h)
    && (c in b.table <==> h != [])
    && (c in b.table ==> |h| == b.table[c].revision && (b.table[c].active <==> h[|h| - 1] != Resolved))
  }

  /** The k-th notification carries sequence k + 1, its own seal, and the seal of the one before. */
  predicate Sealed(log: seq<Note>, k: nat)
    requires k < |log|
  {
    && log[k].facts.sequence == k + 1
    && log[k].previous == (if k == 0 then None else Some(log[k - 1].seal))
    && log[k].seal == Seal(log[k].facts, log[k].previous)
  }

  ghost predicate Inv(b: Board) {
    && HeadAgrees(b)
    && (forall k | 0 <= k < |b.log| :: Sealed(b.log, k))
    && Replay(b.log) == Table(b)
    && (forall c: Id :: CodeOk(b, c))
  }

  // ---------- one change ----------

  /** A transition fits the state it leaves: opening what is not active, updating or resolving what is. */
  predicate Fits(b: Board, code: Id, s: State, transition: Transition) {
    && s.active == (transition != Resolved)
    && s.revision == (if code in b.table then b.table[code].revision + 1 else 1)
    && (transition == Opened <==> code !in b.table || !b.table[code].active)
  }

  lemma {:induction false} HistoryAfter(log: seq<Note>, n: Note, c: Id)
    ensures History(log + [n], c) == History(log, c) + if n.facts.code == c then [n.facts.transition] else []
    ensures Replay(log + [n]) == Replay(log)[n.facts.code := Announced(n)]
  {
    assert (log + [n])[..|log|] == log;
  }

  lemma {:induction false} CodeAfter(b: Board, code: Id, s: State, transition: Transition, now: int, c: Id)
    requires CodeOk(b, c) && Fits(b, code, s, transition)
    ensures CodeOk(Store(b, code, s, Some(transition), now), c)
  {
    hide History, Replay, Lifecycle;
    HistoryAfter(b.log, NoteOf(b, code, s, transition, now), c);
    var h := History(b.log, c);
    if c == code {
      LifecycleGrows(h, transition);
    } else {
      assert h + [] == h;
    }
  }

  lemma {:induction false} LifecycleGrows(h: seq<Transition>, transition: Transition)
    requires Lifecycle(h) && (transition == Opened <==> h == [] || h[|h| - 1] == Resolved)
    ensures Lifecycle(h + [transition])
  {
    var g := h + [transition];
    forall k | 0 <= k < |g| ensures MayFollow(g, k) {
      if k < |h| { assert MayFollow(h, k); }
    }
  }

  lemma {:induction false} AnnouncedKeepsInv(b: Board, code: Id, s: State, transition: Transition, now: int)
    requires Inv(b) && Fits(b, code, s, transition)
    ensures Inv(Store(b, code, s, Some(transition), now))
  {
    var t := Store(b, code, s, Some(transition), now);
    var n := NoteOf(b, code, s, transition, now);
    forall k | 0 <= k < |t.log| ensures Sealed(t.log, k) {
      if k < |b.log| { assert Sealed(b.log, k); }
    }
    forall c: Id ensures CodeOk(t, c) { CodeAfter(b, code, s, transition, now, c); }
    HistoryAfter(b.log, n, code);
    hide CodeOk, Replay;
    assert Announced(n) == VisibleOf(s);
    assert Table(t) == Table(b)[code := VisibleOf(s)];
  }

  lemma {:induction false} SilentKeepsInv(b: Board, code: Id, s: State, now: int)
    requires Inv(b) && code in b.table && VisibleOf(s) == VisibleOf(b.table[code])
    ensures Inv(Store(b, code, s, None, now))
  {
    var t := Store(b, code, s, None, now);
    forall c: Id ensures CodeOk(t, c) { assert CodeOk(b, c); }
    assert Table(t) == Table(b);
  }

  lemma {:induction false} ObserveKeepsInv(b: Board, code: Id, a: Alert, now: int)
    requires Inv(b)
    ensures Inv(Observe(b, code, a, now))
  {
    hide Inv;
    var t := Observe(b, code, a, now);
    if code in b.table && b.table[code].active && !Changed(b.table[code], a) {
      SilentKeepsInv(b, code, t.table[code], now);
    } else if code in b.table && b.table[code].active {
      AnnouncedKeepsInv(b, code, t.table[code], Updated, now);
    } else {
      AnnouncedKeepsInv(b, code, t.table[code], Opened, now);
    }
  }

  lemma {:induction false} ResolveKeepsInv(b: Board, code: Id, now: int)
    requires Inv(b)
    ensures Inv(Resolve(b, code, now))
  {
    hide Inv;
    if code in b.table && b.table[code].active {
      AnnouncedKeepsInv(b, code, Resolve(b, code, now).table[code], Resolved, now);
    }
  }

  // ---------- one reconciliation ----------

  lemma {:induction false} ObserveAllKeepsInv(b: Board, current: map<Id, Alert>, codes: seq<Id>, now: int)
    requires Inv(b) && forall c | c in codes :: c in current
    ensures Inv(ObserveAll(b, current, codes, now))
    decreases |codes|
  {
    hide Inv, Observe;
    if codes != [] {
      ObserveKeepsInv(b, codes[0], current[codes[0]], now);
      ObserveAllKeepsInv(Observe(b, codes[0], current[codes[0]], now), current, codes[1..], now);
    }
  }

  lemma {:induction false} ResolveAllKeepsInv(b: Board, codes: seq<Id>, now: int)
    requires Inv(b)
    ensures Inv(ResolveAll(b, codes, now))
    decreases |codes|
  {
    hide Inv, Resolve;
    if codes != [] {
      ResolveKeepsInv(b, codes[0], now);
      ResolveAllKeepsInv(Resolve(b, codes[0], now), codes[1..], now);
    }
  }

  lemma {:induction false} ReconcileKeepsInv(b: Board, current: map<Id, Alert>, reported: seq<Id>, missing: seq<Id>, now: int)
    requires Inv(b) && forall c | c in reported :: c in current
    ensures Inv(Reconcile(b, current, reported, missing, now))
  {
    hide Inv;
    ObserveAllKeepsInv(b, current, reported, now);
    ResolveAllKeepsInv(ObserveAll(b, current, reported, now), missing, now);
  }

  predicate NoDuplicates(codes: seq<Id>) {
    forall i, j | 0 <= i < j < |codes| :: codes[i] != codes[j]
  }

  /** Each code is looked at once, and its outcome depends on its own state alone. */
  lemma {:induction false} ObservedOnce(b: Board, current: map<Id, Alert>, codes: seq<Id>, now: int, c: Id)
    requires NoDuplicates(codes) && forall x | x in codes :: x in current
    ensures var t := ObserveAll(b, current, codes, now);
            if c in codes then c in t.table && t.table[c] == Observe(b, c, current[c], now).table[c]
            else (c in t.table <==> c in b.table) && (c in b.table ==> t.table[c] == b.table[c])
    decreases |codes|
  {
    if codes != [] {
      ObservedOnce(Observe(b, codes[0], current[codes[0]], now), current, codes[1..], now, c);
      assert c in codes <==> c == codes[0] || c in codes[1..];
      assert codes[0] !in codes[1..];
    }
  }

  lemma {:induction false} ResolvedOnce(b: Board, codes: seq<Id>, now: int, c: Id)
    requires NoDuplicates(codes)
    ensures var t := ResolveAll(b, codes, now);
            && (c in t.table <==> c in b.table)
            && (c in b.table ==> t.table[c] == (if c in codes then Resolve(b, c, now).table[c] else b.table[c]))
    decreases |codes|
  {
    if codes != [] {
      ResolvedOnce(Resolve(b, codes[0], now), codes[1..], now, c);
      assert c in codes <==> c == codes[0] || c in codes[1..];
      assert codes[0] !in codes[1..];
    }
  }

  /**
   After a reconciliation the active alerts are exactly the snapshot's, as the snapshot reports
   them; a code that was known and is not reported is inactive; nothing known is forgotten.
   */
  lemma {:induction false} ActiveIsReported(b: Board, current: map<Id, Alert>, reported: seq<Id>, missing: seq<Id>, now: int, c: Id)
    requires InOrder(reported, current.Keys) && InOrder(missing, b.table.Keys - current.Keys)
    ensures var t := Reconcile(b, current, reported, missing, now);
            && (c in t.table <==> c in b.table || c in current)
            && (c in current ==> t.table[c].active && !Changed(t.table[c], current[c]) && t.table[c].lastSeen == now)
            && (c in t.table && c !in current ==> !t.table[c].active)
  {
    ObservedOnce(b, current, reported, now, c);
    ResolvedOnce(ObserveAll(b, current, reported, now), missing, now, c);
  }

  /** Whether a code's visible state, revision aside, differs between two moments. */
  predicate Differs(b: Board, t: Board, c: Id) {
    if c in b.table && c in t.table then
      VisibleOf(b.table[c]).(revision := 0) != VisibleOf(t.table[c]).(revision := 0)
    else c in t.table
  }

  lemma {:induction false} ObserveAnnounces(b: Board, code: Id, a: Alert, now: int, c: Id)
    ensures var t := Observe(b, code, a, now);
            |History(t.log, c)| == |History(b.log, c)| + if c == code && Differs(b, t, c) then 1 else 0
  {
    hide History, Replay;
    var t := Observe(b, code, a, now);
    if t.log != b.log {
      HistoryAfter(b.log, t.log[|t.log| - 1], c);
    }
  }

  lemma {:induction false} ResolveAnnounces(b: Board, code: Id, now: int, c: Id)
    ensures var t := Resolve(b, code, now);
            |History(t.log, c)| == |History(b.log, c)| + if c == code && Differs(b, t, c) then 1 else 0
  {
    hide History, Replay;
    var t := Resolve(b, code, now);
    if t.log != b.log {
      HistoryAfter(b.log, t.log[|t.log| - 1], c);
    }
  }

  lemma {:induction false} ObserveAllAnnounces(b: Board, current: map<Id, Alert>, codes: seq<Id>, now: int, c: Id)
    requires NoDuplicates(codes) && forall x | x in codes :: x in current
    ensures var t := ObserveAll(b, current, codes, now);
            |History(t.log, c)| == |History(b.log, c)| + if Differs(b, t, c) then 1 else 0
    decreases |codes|
  {
    if codes != [] {
      var m := Observe(b, codes[0], current[codes[0]], now);
      ObserveAnnounces(b, codes[0], current[codes[0]], now, c);
      ObserveAllAnnounces(m, current, codes[1..], now, c);
      ObservedOnce(m, current, codes[1..], now, c);
      assert codes[0] !in codes[1..];
      hide History, ObserveAll;
    }
  }

  lemma {:induction false} ResolveAllAnnounces(b: Board, codes: seq<Id>, now: int, c: Id)
    requires NoDuplicates(codes)
    ensures var t := ResolveAll(b, codes, now);
            |History(t.log, c)| == |History(b.log, c)| + if Differs(b, t, c) then 1 else 0
    decreases |codes|
  {
    if codes != [] {
      var m := Resolve(b, codes[0], now);
      ResolveAnnounces(b, codes[0], now, c);
      ResolveAllAnnounces(m, codes[1..], now, c);
      ResolvedOnce(m, codes[1..], now, c);
      assert codes[0] !in codes[1..];
      hide History, ResolveAll;
    }
  }

  /** A reconciliation notifies of a code exactly when its visible state changed, and then once. */
  lemma {:induction false} NotifiedIffChanged(b: Board, current: map<Id, Alert>, reported: seq<Id>, missing: seq<Id>, now: int, c: Id)
    requires InOrder(reported, current.Keys) && InOrder(missing, b.table.Keys - current.Keys)
    ensures var t := Reconcile(b, current, reported, missing, now);
            |History(t.log, c)| == |History(b.log, c)| + if Differs(b, t, c) then 1 else 0
  {
    var m := ObserveAll(b, current, reported, now);
    ObserveAllAnnounces(b, current, reported, now, c);
    ResolveAllAnnounces(m, missing, now, c);
    ObservedOnce(b, current, reported, now, c);
    ResolvedOnce(m, missing, now, c);
    hide History, ObserveAll, ResolveAll, Observe;
  }

  // ---------- runs ----------

  /** The snapshots reconciled one after another, each at its own time. */
  datatype Snapshot = Snapshot(alerts: map<Id, Alert>, reported: seq<Id>, missing: seq<Id>, at: int)

  ghost predicate Suits(b: Board, s: Snapshot) {
    InOrder(s.reported, s.alerts.Keys) && InOrder(s.missing, b.table.Keys - s.alerts.Keys)
  }

  ghost predicate Run(boards: seq<Board>, snapshots: seq<Snapshot>) {
    && |boards| == |snapshots| + 1 && boards[0] == Empty()
    && forall k | 0 <= k < |snapshots| ::
         Suits(boards[k], snapshots[k])
         && boards[k + 1] == Reconcile(boards[k], snapshots[k].alerts, snapshots[k].reported, snapshots[k].missing, snapshots[k].at)
  }

  lemma {:induction false} RunKeepsInv(boards: seq<Board>, snapshots: seq<Snapshot>, n: nat)
    requires Run(boards, snapshots) && n < |boards|
    ensures Inv(boards[n])
  {
    if n == 0 {
      assert Table(Empty()) == map[];
    } else {
      RunKeepsInv(boards, snapshots, n - 1);
      assert Suits(boards[n - 1], snapshots[n - 1]) && boards[n - 1 + 1] == boards[n];
      hide Inv;
      ReconcileKeepsInv(boards[n - 1], snapshots[n - 1].alerts, snapshots[n - 1].reported, snapshots[n - 1].missing, snapshots[n - 1].at);
    }
  }

  /**
   The log replays to the table: folding all notifications in sequence order gives exactly each
   alert's domain, severity, activity, count and revision.
   */
  lemma {:induction false} LogReplaysToTable(boards: seq<Board>, snapshots: seq<Snapshot>, n: nat)
    requires Run(boards, snapshots) && n < |boards|
    ensures Replay(boards[n].log) == Table(boards[n])
    ensures forall k | 0 <= k < |boards[n].log| :: Sealed(boards[n].log, k)
  {
    RunKeepsInv(boards, snapshots, n);
  }

  lemma {:induction false} SealsDetermineNotes(one: seq<Note>, two: seq<Note>, k: nat)
    requires k < |one| && k < |two| && forall j | 0 <= j < |one| :: Sealed(one, j)
    requires (forall j | 0 <= j < |two| :: Sealed(two, j)) && one[k].seal == two[k].seal
    ensures one[..k + 1] == two[..k + 1]
  {
    assert Sealed(one, k) && Sealed(two, k);
    if k > 0 { SealsDetermineNotes(one, two, k - 1); }
    assert one[..k + 1] == one[..k] + [one[k]] && two[..k + 1] == two[..k] + [two[k]];
  }

  /** The head of the notification chain determines the whole log, and with it everything visible in the alert table. */
  lemma {:induction false} HeadDeterminesTable(boards: seq<Board>, snapshots: seq<Snapshot>, n: nat,
                                               others: seq<Board>, otherSnapshots: seq<Snapshot>, m: nat)
    requires Run(boards, snapshots) && n < |boards| && Run(others, otherSnapshots) && m < |others|
    requires boards[n].head == others[m].head
    ensures boards[n].log == others[m].log && Table(boards[n]) == Table(others[m])
  {
    RunKeepsInv(boards, snapshots, n);
    RunKeepsInv(others, otherSnapshots, m);
    var one, two := boards[n].log, others[m].log;
    if one != [] && two != [] {
      assert Sealed(one, |one| - 1) && Sealed(two, |two| - 1);
      SealsDetermineNotes(one, two, |one| - 1);
      assert one[..|one|] == one && two[..|two|] == two;
    }
  }

  /** Per code the transitions read opened, updated*, resolved, repeated; the revision counts them. */
  lemma {:induction false} CodeLifecycle(boards: seq<Board>, snapshots: seq<Snapshot>, n: nat, c: Id)
    requires Run(boards, snapshots) && n < |boards| && c in boards[n].table
    ensures var h := History(boards[n].log, c);
            && Lifecycle(h) && |h| == boards[n].table[c].revision >= 1
            && (boards[n].table[c].active <==> h[|h| - 1] != Resolved)
  {
    RunKeepsInv(boards, snapshots, n);
    assert CodeOk(boards[n], c);
  }
}
