/** The `messages` table of the SQLite message store (mahilo/message_store.py), kept as a map
    from `message_id` (the primary key) to the row. */
module Store {
  import opened Common
  import opened Protocol

  /** `MessageState`: the values the code writes to the `state` column. The column itself
      accepts any text, and so does `update_message_state`. */
  const Pending: string := "pending"
  const Processed: string := "processed"
  const Failed: string := "failed"

  /** The largest magnitude of `days` that `timedelta` accepts; beyond it the constructor
      raises `OverflowError`. */
  const MaxTimedeltaDays: int := 999999999

  /** One row, in column order. `messageType` holds the enum's text value. */
  datatype Row = Row(
    messageId: string,
    sender: string,
    recipient: string,
    messageType: string,
    payload: string,
    timestamp: real,
    correlationId: Option<string>,
    replyTo: Option<string>,
    signature: Option<Token>,
    state: string,
    retryCount: int,
    lastRetry: Option<real>,
    createdAt: real)

  /** The row `save_message` inserts: `retry_count` takes its default 0 and `last_retry` stays NULL. */
  function NewRow(e: Envelope, state: string, createdAt: real): Row {
    Row(e.messageId, e.sender, e.recipient, TypeValue(e.messageType), e.payload, e.timestamp,
        e.correlationId, e.replyTo, e.signature, state, 0, None, createdAt)
  }

  /** The row's type column names a message type, so `_row_to_envelope` does not raise. */
  predicate WellTyped(r: Row) {
    ParseType(r.messageType).Some?
  }

  /** `_row_to_envelope`: rebuilds an envelope from the first nine columns. */
  function RowToEnvelope(r: Row): Envelope
    requires WellTyped(r)
  {
    Envelope(r.messageId, r.sender, r.recipient, ParseType(r.messageType).value, r.payload,
             r.timestamp, r.correlationId, r.replyTo, r.signature)
  }

  /** Storing an envelope and reading its row back gives the same envelope. */
  lemma RowRoundTrip(e: Envelope, state: string, createdAt: real)
    ensures WellTyped(NewRow(e, state, createdAt))
    ensures RowToEnvelope(NewRow(e, state, createdAt)) == e
  {
    ParseTypeValue(e.messageType);
  }

  /** The two SELECTs that return lists of envelopes. */
  datatype Query =
    | PendingQuery(recipient: string)
    | HistoryQuery(agent: string, start: Option<real>, end: Option<real>)

  /** The WHERE clause of each query. */
  predicate Selects(q: Query, r: Row) {
    match q
    case PendingQuery(recipient) => r.recipient == recipient && r.state == Pending
    case HistoryQuery(agent, start, end) =>
      (r.sender == agent || r.recipient == agent) &&
      (start.None? || r.timestamp >= start.value) &&
      (end.None? || r.timestamp <= end.value)
  }

  predicate SortedByTimeDesc(s: seq<Envelope>) {
    forall i, j :: 0 <= i < j < |s| ==> s[i].timestamp >= s[j].timestamp
  }

  /** Places `e` before the first entry that is strictly older. */
  function InsertByTime(s: seq<Envelope>, e: Envelope): (r: seq<Envelope>)
    requires SortedByTimeDesc(s)
    ensures SortedByTimeDesc(r)
    ensures multiset(r) == multiset(s) + multiset{e}
    decreases |s|
  {
    if s == [] || e.timestamp >= s[0].timestamp then
      [e] + s
    else
      var rest := InsertByTime(s[1..], e);
      NoneNewerThanHead(s, e, rest);
      ConsSorted(s[0], rest);
      assert s == [s[0]] + s[1..];
      [s[0]] + rest
  }

  /** Nothing in a reordering of the tail of a newest-first list, plus an older entry, is newer
      than the head. */
  lemma NoneNewerThanHead(s: seq<Envelope>, e: Envelope, rest: seq<Envelope>)
    requires SortedByTimeDesc(s) && s != [] && e.timestamp < s[0].timestamp
    requires multiset(rest) == multiset(s[1..]) + multiset{e}
    ensures forall x :: x in rest ==> x.timestamp <= s[0].timestamp
  {
    forall x | x in rest
      ensures x.timestamp <= s[0].timestamp
    {
      assert x in multiset(rest);
      if x != e {
        assert x in multiset(s[1..]);
        var k :| 0 <= k < |s[1..]| && s[1..][k] == x;
        assert s[k + 1] == x;
      }
    }
  }

  /** An entry no older than anything in a newest-first list can go in front of it. */
  lemma ConsSorted(x: Envelope, rest: seq<Envelope>)
    requires SortedByTimeDesc(rest)
    requires forall y :: y in rest ==> y.timestamp <= x.timestamp
    ensures SortedByTimeDesc([x] + rest)
  {
    var r := [x] + rest;
    forall i, j | 0 <= i < j < |r|
      ensures r[i].timestamp >= r[j].timestamp
    {
      assert r[j] == rest[j - 1];
      if i > 0 {
        assert r[i] == rest[i - 1];
      } else {
        assert rest[j - 1] in rest;
      }
    }
  }

  /** `ORDER BY timestamp DESC`: a reordering of `s`, newest first (ties in any order). */
  function SortByTimeDesc(s: seq<Envelope>): (r: seq<Envelope>)
    ensures SortedByTimeDesc(r)
    ensures multiset(r) == multiset(s)
    decreases |s|
  {
    if s == [] then []
    else
      assert s == s[..|s| - 1] + [s[|s| - 1]];
      InsertByTime(SortByTimeDesc(s[..|s| - 1]), s[|s| - 1])
  }

  class MessageStore {
    var rows: map<string, Row>

    /** The key of every row is its `message_id` column, and every type column parses. */
    ghost predicate Valid()
      reads this
    {
      forall id :: id in rows ==> rows[id].messageId == id && WellTyped(rows[id])
    }

    /** `result` holds the envelopes of exactly the rows the query selects, each once. */
    ghost predicate IsSelection(result: seq<Envelope>, q: Query)
      reads this
      requires Valid()
    {
      (forall e :: e in result ==>
        e.messageId in rows && Selects(q, rows[e.messageId]) && e == RowToEnvelope(rows[e.messageId])) &&
      (forall id :: id in rows && Selects(q, rows[id]) ==> multiset(result)[RowToEnvelope(rows[id])] == 1)
    }

    constructor ()
      ensures Valid() && rows == map[]
    {
      rows := map[];
    }

    /** `get_message`: the stored envelope, or None for an unknown id. */
    function GetMessage(messageId: string): (r: Option<Envelope>)
      reads this
      requires Valid()
      ensures r.Some? <==> messageId in rows
      ensures r.Some? ==> r.value.messageId == messageId && r.value == RowToEnvelope(rows[messageId])
    {
      if messageId in rows then Some(RowToEnvelope(rows[messageId])) else None
    }

    /** `get_retry_count`: the stored count, 0 for an unknown id. */
    function GetRetryCount(messageId: string): (n: int)
      reads this
      ensures messageId !in rows ==> n == 0
      ensures messageId in rows ==> n == rows[messageId].retryCount
    {
      if messageId in rows then rows[messageId].retryCount else 0
    }

    /** `save_message`: inserts one row; a duplicate id violates the primary key (ok == false)
        and leaves the table unchanged. `now` is `datetime.now().timestamp()`. */
    method SaveMessage(message: Envelope, state: string, now: real) returns (ok: bool)
      requires Valid()
      modifies this
      ensures Valid()
      ensures ok <==> message.messageId !in old(rows)
      ensures rows == if ok then old(rows)[message.messageId := NewRow(message, state, now)] else old(rows)
      ensures ok ==> GetMessage(message.messageId) == Some(message)
      ensures ok ==> GetRetryCount(message.messageId) == 0 && rows[message.messageId].state == state
    {
      ok := message.messageId !in rows;
      if ok {
        RowRoundTrip(message, state, now);
        rows := rows[message.messageId := NewRow(message, state, now)];
      }
    }

    /** Runs one of the SELECTs; the order of the rows is whatever the table yields. */
    method Select(q: Query) returns (result: seq<Envelope>)
      requires Valid()
      ensures IsSelection(result, q)
    {
      result := [];
      var remaining := rows.Keys;
      while remaining != {}
        invariant remaining <= rows.Keys
        invariant forall e :: e in result ==>
          e.messageId in rows.Keys - remaining && Selects(q, rows[e.messageId]) && e == RowToEnvelope(rows[e.messageId])
        invariant forall id :: id in rows.Keys - remaining && Selects(q, rows[id]) ==>
          multiset(result)[RowToEnvelope(rows[id])] == 1
        decreases remaining
      {
        var id :| id in remaining;
        if Selects(q, rows[id]) {
          var e := RowToEnvelope(rows[id]);
          assert e !in result;
          forall other | other in rows.Keys - remaining && Selects(q, rows[other])
            ensures multiset(result + [e])[RowToEnvelope(rows[other])] == 1
          {
            assert RowToEnvelope(rows[other]).messageId == other != id;
          }
          result := result + [e];
        }
        remaining := remaining - {id};
      }
    }

    /** `get_pending_messages`: the pending rows addressed to the recipient (no order promised). */
    method GetPendingMessages(recipient: string) returns (result: seq<Envelope>)
      requires Valid()
      ensures IsSelection(result, PendingQuery(recipient))
      ensures forall e :: e in result ==> e.recipient == recipient && rows[e.messageId].state == Pending
    {
      result := Select(PendingQuery(recipient));
    }

    /** `get_message_history`: the rows sent or received by the agent, within the optional
        inclusive time bounds, newest first. */
    method GetMessageHistory(agent: string, start: Option<real>, end: Option<real>) returns (result: seq<Envelope>)
      requires Valid()
      ensures IsSelection(result, HistoryQuery(agent, start, end))
      ensures SortedByTimeDesc(result)
      ensures forall e :: e in result ==> e.sender == agent || e.recipient == agent
    {
      var selected := Select(HistoryQuery(agent, start, end));
      result := SortByTimeDesc(selected);
      SelectionReordered(selected, result, HistoryQuery(agent, start, end));
    }

    /** A reordering of a selection is still the same selection. */
    lemma SelectionReordered(a: seq<Envelope>, b: seq<Envelope>, q: Query)
      requires Valid() && IsSelection(a, q)
      requires multiset(a) == multiset(b)
      ensures IsSelection(b, q)
    {
      forall e | e in b
        ensures e.messageId in rows && Selects(q, rows[e.messageId]) && e == RowToEnvelope(rows[e.messageId])
      {
        assert e in multiset(b);
        assert e in a;
      }
    }

    /** `update_message_state`: sets the state and `last_retry`, and the retry count only when
        one is given; an unknown id changes nothing. No transition is refused. */
    method UpdateMessageState(messageId: string, state: string, retryCount: Option<int>, now: real)
      requires Valid()
      modifies this
      ensures Valid()
      ensures messageId !in old(rows) ==> rows == old(rows)
      ensures messageId in old(rows) ==>
        rows == old(rows)[messageId := old(rows)[messageId].(
          state := state,
          lastRetry := Some(now),
          retryCount := retryCount.GetOr(old(rows)[messageId].retryCount))]
      ensures GetMessage(messageId) == old(GetMessage(messageId))
    {
      if messageId in rows {
        var r := rows[messageId];
        rows := rows[messageId := r.(state := state, lastRetry := Some(now), retryCount := retryCount.GetOr(r.retryCount))];
      }
    }

    /** `cleanup_old_messages`: deletes the processed rows stamped before the cutoff; every
        other row stays as it was. `cutoff` is what
        `(datetime.now() - timedelta(days=max_age_days)).timestamp()` gives on the host's
        local clock (the days are taken off the local wall-clock date, so a daylight-saving
        change in between moves it by an hour), or the `OverflowError` it raises. It raises for
        a magnitude of days above `MaxTimedeltaDays`, and for a date outside the calendar.
        A cutoff that raises deletes nothing. */
    method CleanupOldMessages(maxAgeDays: int, cutoff: Result<real>) returns (failure: Option<Failure>)
      requires Valid()
      requires maxAgeDays < -MaxTimedeltaDays || MaxTimedeltaDays < maxAgeDays ==>
        cutoff.Err? && cutoff.failure.OverflowError?
      modifies this
      ensures Valid()
      ensures failure.Some? <==> cutoff.Err?
      ensures failure.Some? ==> failure.value == cutoff.failure && rows == old(rows)
      ensures failure.None? ==>
        rows == map id | id in old(rows) && !(old(rows)[id].state == Processed && old(rows)[id].timestamp < cutoff.value) :: old(rows)[id]
      ensures forall id :: id in old(rows) && old(rows)[id].state != Processed ==> id in rows && rows[id] == old(rows)[id]
      ensures forall id :: id in rows ==> id in old(rows) && rows[id] == old(rows)[id]
    {
      match cutoff
      case Err(f) =>
        failure := Some(f);
      case Ok(t) =>
        rows := map id | id in rows && !(rows[id].state == Processed && rows[id].timestamp < t) :: rows[id];
        failure := None;
    }
  }
}
