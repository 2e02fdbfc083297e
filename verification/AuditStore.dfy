/** The audit table and its head row as the service runs them: locked appends, keyed mutations and validated export pages. */
module AuditStore {
  import opened Ordering
  import opened AuditExport
  import opened AuditLog
  import opened AuditProofs
  import Codec = CursorCodec

  class OperationsAudit {
    var now: int
    var rows: map<int, Event>
    var next: int
    var head: Option<Digest>

    function View(): Log
      reads this
    {
      Log(rows, next, head)
    }

    /** What the service relies on once it starts from an empty table: an honest chain, each key used once per action. */
    ghost predicate Valid()
      reads this
    {
      Honest(View()) && KeysUnique(rows)
    }

    constructor (start: int)
      ensures Valid() && View() == Empty() && now == start
    {
      now, rows, next, head := start, map[], 1, None;
    }

    /** Checks the head against the record it names before linking a new record to it; a head that disagrees stops every append. */
    method AppendAudit(id: Id, action: string, actor: string, request: string, result: string, details: string, key: Option<string>)
      returns (event: Option<Event>)
      modifies this`rows, this`next, this`head
      ensures var content := Content(action, actor, request, result, details, now);
              var appended := Append(old(View()), id, content, key);
              && (event == None <==> appended == None)
              && (event == None ==> View() == old(View()))
              && (event.Some? ==> View() == appended.value && event.value == NewEvent(old(View()), id, content, key))
      ensures event == None <==> BadHead(old(View()))
      ensures event.Some? ==> Gains(old(View()), id, Content(action, actor, request, result, details, now), key, View())
      ensures old(Valid()) ==> event.Some? && Extends(old(View()), View())
      ensures old(Valid()) && (key.Some? ==> !Used(old(rows), action, key.value)) ==> Valid()
    {
      hide Gains, BadHead;
      ghost var before := View();
      ghost var content := Content(action, actor, request, result, details, now);
      AppendGains(before, id, content, key);
      if Honest(before) { AppendExtends(before, id, content, key); }
      if next == 1 {
        if head != None { return None; }
      } else {
        if next - 1 !in rows || Some(rows[next - 1].digest) != head { return None; }
        var previous := rows[next - 1];
        if !ValidRecord(previous, next - 1, previous.previous) { return None; }
      }
      var covered := Content(action, actor, request, result, details, now);
      var record := Event(id, next, covered, key, head, Digest(next, covered, head));
      if Valid() && (key.Some? ==> !Used(rows, action, key.value)) { KeysStayUnique(before, record); }
      rows := rows[next := record];
      next := next + 1;
      head := Some(record.digest);
      event := Some(record);
    }

    /** The earlier request under this action and key, if any: it must be the same request and a whole record. */
    method IdempotentEvent(action: string, request: string, key: string) returns (found: Lookup)
      requires KeysUnique(rows)
      ensures found == LookUp(rows, action, request, key)
    {
      if k :| k in rows && Names(rows[k], action, key) {
        ChosenIsUnique(View(), action, key, k);
        if rows[k].content.request != request { return Clash; }
        if !ValidRecord(rows[k], rows[k].sequence, rows[k].previous) { return Broken; }
        return Recalled(rows[k]);
      }
      found := Absent;
    }

    /** A mutation under an idempotency key: a second request returns the first event, or is a conflict. */
    method RecordOnce(id: Id, action: string, actor: string, request: string, result: string, details: string, key: string)
      returns (outcome: Mutation)
      requires Valid()
      modifies this`rows, this`next, this`head
      ensures Valid() && Extends(old(View()), View())
      ensures outcome == Mutate(old(View()), id, Content(action, actor, request, result, details, now), key)
      ensures View() == if outcome.Recorded? then outcome.log else old(View())
    {
      hide Append, Extends, Honest, KeysUnique, ValidRecord;
      ghost var content := Content(action, actor, request, result, details, now);
      MutationKeepsKeysUnique(View(), id, content, key);
      StaysHonest(View());
      var found := IdempotentEvent(action, request, key);
      match found {
        case Clash => return Conflict;
        case Broken => return Rejected;
        case Recalled(e) => return Replayed(e);
        case Absent =>
      }
      var event := AppendAudit(id, action, actor, request, result, details, Some(key));
      outcome := Recorded(View(), event.value);
    }

    method ValidateRecords(page: seq<Event>, sequence: int, previous: Option<Digest>) returns (linked: bool)
      ensures linked == Follows(page, sequence, previous)
    {
      var expectedSequence, expectedPrevious := sequence, previous;
      var k := 0;
      while k < |page|
        invariant k <= |page| && expectedSequence == sequence + k
        invariant Follows(page, sequence, previous) <==> Follows(page[k..], expectedSequence, expectedPrevious)
      {
        assert page[k..][0] == page[k] && page[k..][1..] == page[k + 1..];
        if !ValidRecord(page[k], expectedSequence, expectedPrevious) { return false; }
        expectedSequence := expectedSequence + 1;
        expectedPrevious := Some(page[k].digest);
        k := k + 1;
      }
      linked := true;
    }

    method ValidateExportPage(tx: Texts, records: seq<Event>, p: Position, limit: nat) returns (accepted: bool)
      ensures accepted == ValidTextPage(tx, rows, records, p, limit)
    {
      hide Follows;
      if p.through == 0 {
        return !(p.throughText != None || p.after != 0 || p.afterText != None || records != []);
      }
      if p.throughText == None || p.after < 0 || p.after > p.through || (p.after == 0) != (p.afterText == None) { return false; }
      var expectedPrevious := None;
      if p.after != 0 {
        if p.after !in rows || Some(tx.digest(rows[p.after].digest)) != p.afterText { return false; }
        if !ValidRecord(rows[p.after], p.after, rows[p.after].previous) { return false; }
        expectedPrevious := Some(rows[p.after].digest);
      }
      var page := Page(records, limit);
      var linked := ValidateRecords(page, p.after + 1, expectedPrevious);
      if !linked { return false; }
      if p.through !in rows || Some(tx.digest(rows[p.through].digest)) != p.throughText { return false; }
      if !ValidRecord(rows[p.through], p.through, rows[p.through].previous) { return false; }
      accepted := true;
      if |records| <= limit {
        var tailSequence := if page != [] then page[|page| - 1].sequence else p.after;
        var tailText := if page != [] then Some(tx.digest(page[|page| - 1].digest)) else p.afterText;
        accepted := tailSequence == p.through && tailText == p.throughText;
      }
    }

    /** One page of an export: the first freezes the head and the time, the others take them from their cursor. */
    method ExportAudit(tx: Texts, cursor: Option<string>, limit: nat) returns (page: Option<TextPage>)
      ensures page == ExportText(tx, View(), now, cursor, limit)
    {
      hide ValidTextPage, PositionIn, Follows, Select, Codec.Decode, Codec.Encode, Codec.GoodValues;
      if limit < 1 || limit > 500 { return None; }
      var p;
      if cursor == None {
        var throughText := DigestText(tx, head);
        p := Position(tx.exportId(now, next - 1, throughText), now, next - 1, throughText, 0, None);
      } else {
        var fields := Codec.Decode(tx.lib, cursor.value);
        Codec.DecodedIsGood(tx.lib, cursor.value);
        if fields == None { return None; }
        p := PositionIn(tx.lib, fields.value);
        if p.exportId != tx.exportId(p.time, p.through, p.throughText) { return None; }
      }
      var records := Select(rows, p.after, p.through, limit + 1);
      var accepted := ValidateExportPage(tx, records, p, limit);
      if !accepted { return None; }
      var hasMore := |records| > limit;
      var events := Page(records, limit);
      var following := None;
      if hasMore {
        var last := events[|events| - 1];
        following := Some(Codec.Encode(tx.lib, Codec.Material(p.exportId, tx.time(p.time), p.through, p.throughText,
                                                              last.sequence, tx.digest(last.digest))));
      }
      var material := PageMaterial(p.exportId, tx.time(p.time), p.through, p.throughText, p.after, p.afterText, events, hasMore, following);
      page := Some(TextPage(p.exportId, p.time, p.through, p.throughText, events, tx.page(material), following, hasMore));
    }
  }

  lemma {:induction false} KeysStayUnique(l: Log, e: Event)
    requires Honest(l) && KeysUnique(l.rows) && (e.key.Some? ==> !Used(l.rows, e.content.action, e.key.value))
    ensures KeysUnique(l.rows[l.next := e])
  {
    forall k | k in l.rows ensures e.key.Some? ==> !Names(l.rows[k], e.content.action, e.key.value) { }
  }

  lemma {:induction false} ChosenIsUnique(l: Log, action: string, key: string, k: int)
    requires KeysUnique(l.rows) && k in l.rows && Names(l.rows[k], action, key)
    ensures Used(l.rows, action, key)
    ensures forall o | o in l.rows && Names(l.rows[o], action, key) :: o == k
  {
  }
}
