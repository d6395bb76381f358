/** Saving a conversation in SQLite (qi_agent/storage/sqlite_store.py). The database is a value
    that a transaction replaces as a whole or not at all; encoding a message is injective. */
module Store {
  import opened Basics
  import opened Transcript
  import Repair

  /** One row of `messages`; the rows stand in insertion order. The columns other than `data`
      are what rows from before `data` existed are read back from. */
  datatype Row = Row(
    session: string, seqNo: int, role: Role, content: Option<string>, calls: seq<ToolRequest>,
    data: Option<Message>)

  datatype SessionRow = SessionRow(
    title: string, turn: nat, usage: string, status: string, phase: string)

  datatype Db = Db(sessions: map<string, SessionRow>, messages: seq<Row>)

  // ---- Queries and statements --------------------------------------------------------------

  function InSession(sid: string): Row -> bool { (r: Row) => r.session == sid }

  function NotInSession(sid: string): Row -> bool { (r: Row) => r.session != sid }

  /** ORDER BY seq; rows with equal seq keep their insertion order. */
  function Placed(rows: seq<Row>, r: Row): seq<Row> {
    if rows == [] || rows[|rows| - 1].seqNo <= r.seqNo then rows + [r]
    else Placed(rows[..|rows| - 1], r) + [rows[|rows| - 1]]
  }

  function Ordered(rows: seq<Row>): seq<Row> {
    if rows == [] then [] else Placed(Ordered(rows[..|rows| - 1]), rows[|rows| - 1])
  }

  /** SELECT ... WHERE session_id = sid ORDER BY seq. */
  function RowsOf(table: seq<Row>, sid: string): seq<Row> { Ordered(Filter(table, InSession(sid))) }

  function RowFor(sid: string, n: int, m: Message): Row {
    Row(sid, n, m.role, m.content, m.calls, Some(m))
  }

  /** INSERT, one message after the other, from number `n` on. */
  function Inserted(table: seq<Row>, sid: string, n: int, ms: seq<Message>): seq<Row> {
    if ms == [] then table
    else Inserted(table, sid, n, ms[..|ms| - 1]) + [RowFor(sid, n + |ms| - 1, ms[|ms| - 1])]
  }

  /** DELETE FROM messages WHERE session_id = sid. */
  function Deleted(table: seq<Row>, sid: string): seq<Row> { Filter(table, NotInSession(sid)) }

  function MaxSeq(rows: seq<Row>): int {
    if rows == [] then 0
    else if |rows| == 1 then rows[0].seqNo
    else Max(MaxSeq(rows[..|rows| - 1]), rows[|rows| - 1].seqNo)
  }

  /** The encoded messages of a session as `save_context` reads them; a row without data never
      equals an encoded message. */
  function Persisted(rows: seq<Row>): seq<Option<Message>> { Map(rows, (r: Row) => r.data) }

  function Encoded(ms: seq<Message>): seq<Option<Message>> { Map(ms, (m: Message) => Some(m)) }

  // ---- Numbering ---------------------------------------------------------------------------

  ghost predicate Numbered(rows: seq<Row>) {
    forall i :: 0 <= i < |rows| ==> rows[i].seqNo == i + 1
  }

  /** Each session's rows are numbered from 1 without gaps. */
  ghost predicate Valid(table: seq<Row>) { forall sid :: Numbered(RowsOf(table, sid)) }

  lemma {:induction false} FilterTwice(table: seq<Row>, sid: string, other: string)
    requires sid != other
    ensures Filter(Deleted(table, sid), InSession(other)) == Filter(table, InSession(other))
    ensures Filter(Deleted(table, sid), InSession(sid)) == []
  {
    if table != [] {
      FilterTwice(table[1..], sid, other);
      var kept := if NotInSession(sid)(table[0]) then [table[0]] else [];
      assert Deleted(table, sid) == kept + Deleted(table[1..], sid);
      FilterConcat(kept, Deleted(table[1..], sid), InSession(other));
      FilterConcat(kept, Deleted(table[1..], sid), InSession(sid));
    }
  }

  /** A row with the next number goes to the end of its session and to no other. */
  lemma {:induction false} InsertOne(table: seq<Row>, r: Row)
    requires Numbered(RowsOf(table, r.session)) && r.seqNo == |RowsOf(table, r.session)| + 1
    ensures RowsOf(table + [r], r.session) == RowsOf(table, r.session) + [r]
    ensures forall other :: other != r.session ==> RowsOf(table + [r], other) == RowsOf(table, other)
  {
    FilterConcat(table, [r], InSession(r.session));
    var mine := Filter(table, InSession(r.session));
    assert (mine + [r])[..|mine|] == mine;
    forall other | other != r.session
      ensures RowsOf(table + [r], other) == RowsOf(table, other)
    {
      FilterConcat(table, [r], InSession(other));
      assert Filter([r], InSession(other)) == [];
      assert Filter(table, InSession(other)) + [] == Filter(table, InSession(other));
    }
  }

  /** These messages were added to the session, numbered on; every other session is as before. */
  ghost predicate Extends(after: seq<Row>, before: seq<Row>, sid: string, ms: seq<Message>) {
    && Numbered(RowsOf(after, sid))
    && Persisted(RowsOf(after, sid)) == Persisted(RowsOf(before, sid)) + Encoded(ms)
    && forall other :: other != sid ==> RowsOf(after, other) == RowsOf(before, other)
  }

  lemma {:induction false} ExtendOne(
    after: seq<Row>, before: seq<Row>, sid: string, ms: seq<Message>, m: Message)
    requires Extends(after, before, sid, ms)
    ensures Extends(after + [RowFor(sid, |RowsOf(before, sid)| + |ms| + 1, m)], before, sid, ms + [m])
  {
    assert |RowsOf(after, sid)| == |Persisted(RowsOf(after, sid))| == |RowsOf(before, sid)| + |ms|;
    var r := RowFor(sid, |RowsOf(before, sid)| + |ms| + 1, m);
    InsertOne(after, r);
    ConcatThree(Persisted(RowsOf(before, sid)), Encoded(ms), [Some(m)]);
  }

  /** What inserting from the next number on gives. */
  lemma {:induction false} InsertMany(table: seq<Row>, sid: string, ms: seq<Message>)
    requires Numbered(RowsOf(table, sid))
    ensures Extends(Inserted(table, sid, |RowsOf(table, sid)| + 1, ms), table, sid, ms)
  {
    if ms == [] {
    } else {
      var k := |ms| - 1;
      InsertMany(table, sid, ms[..k]);
      ExtendOne(Inserted(table, sid, |RowsOf(table, sid)| + 1, ms[..k]), table, sid, ms[..k], ms[k]);
      assert ms[..k] + [ms[k]] == ms;
    }
  }

  /** Exactly these messages, numbered from 1; every other session as before. */
  ghost predicate HoldsExactly(
    after: seq<Row>, before: seq<Row>, sid: string, ms: seq<Message>)
  {
    && Numbered(RowsOf(after, sid))
    && Persisted(RowsOf(after, sid)) == Encoded(ms)
    && forall other :: other != sid ==> RowsOf(after, other) == RowsOf(before, other)
  }

  /** The incremental save: nothing to do, append the tail, or rewrite. */
  function SavedMessages(table: seq<Row>, sid: string, ms: seq<Message>): seq<Row> {
    var persisted := Persisted(RowsOf(table, sid));
    var n := |persisted|;
    if persisted == Encoded(ms) then table
    else if n < |ms| && persisted == Encoded(ms[..n]) then Inserted(table, sid, n + 1, ms[n..])
    else Inserted(Deleted(table, sid), sid, 1, ms)
  }

  lemma {:induction false} AppendTail(table: seq<Row>, sid: string, ms: seq<Message>, n: nat)
    requires Numbered(RowsOf(table, sid)) && n < |ms| && n == |RowsOf(table, sid)|
    requires Persisted(RowsOf(table, sid)) == Encoded(ms[..n])
    ensures HoldsExactly(Inserted(table, sid, n + 1, ms[n..]), table, sid, ms)
  {
    InsertMany(table, sid, ms[n..]);
  }

  lemma {:induction false} Rewrite(table: seq<Row>, sid: string, ms: seq<Message>)
    ensures HoldsExactly(Inserted(Deleted(table, sid), sid, 1, ms), table, sid, ms)
  {
    DeleteLeavesOthers(table, sid);
    var cleared := Deleted(table, sid);
    InsertMany(cleared, sid, ms);
  }

  /** Whichever branch is taken, the save is a replacement of the whole list. */
  lemma {:induction false} SaveReplacesAll(table: seq<Row>, sid: string, ms: seq<Message>)
    requires Valid(table)
    ensures HoldsExactly(SavedMessages(table, sid, ms), table, sid, ms)
    ensures Valid(SavedMessages(table, sid, ms))
  {
    var persisted := Persisted(RowsOf(table, sid));
    var n := |persisted|;
    assert Numbered(RowsOf(table, sid));
    if persisted != Encoded(ms) {
      if n < |ms| && persisted == Encoded(ms[..n]) {
        AppendTail(table, sid, ms, n);
      } else {
        Rewrite(table, sid, ms);
      }
    }
  }

  lemma {:induction false} DeleteLeavesOthers(table: seq<Row>, sid: string)
    ensures RowsOf(Deleted(table, sid), sid) == []
    ensures forall other :: other != sid ==> RowsOf(Deleted(table, sid), other) == RowsOf(table, other)
  {
    FilterTwice(table, sid, sid + "x");
    forall other | other != sid
      ensures RowsOf(Deleted(table, sid), other) == RowsOf(table, other)
    {
      FilterTwice(table, sid, other);
    }
  }

  /** Appending one message keeps the numbering of every session. */
  lemma {:induction false} AppendKeepsNumbering(table: seq<Row>, sid: string, m: Message)
    requires Valid(table)
    ensures var rows := RowsOf(table, sid);
            var after := table + [RowFor(sid, MaxSeq(rows) + 1, m)];
            && Valid(after)
            && Persisted(RowsOf(after, sid)) == Persisted(rows) + [Some(m)]
            && forall other :: other != sid ==> RowsOf(after, other) == RowsOf(table, other)
  {
    var rows := RowsOf(table, sid);
    assert Numbered(rows);
    MaxOfNumbered(rows);
    ExtendOne(table, table, sid, [], m);
    assert [] + [m] == [m] && Encoded([m]) == [Some(m)];
  }

  lemma {:induction false} MaxOfNumbered(rows: seq<Row>)
    requires Numbered(rows)
    ensures MaxSeq(rows) == |rows|
  {
    if |rows| > 1 {
      MaxOfNumbered(rows[..|rows| - 1]);
    }
  }

  /** Deleting a session keeps the numbering of all the others. */
  lemma {:induction false} DeleteKeepsNumbering(table: seq<Row>, sid: string)
    requires Valid(table)
    ensures Valid(Deleted(table, sid)) && RowsOf(Deleted(table, sid), sid) == []
  {
    DeleteLeavesOthers(table, sid);
  }

  // ---- Transactions ---------------------------------------------------------------------------

  /** What one attempt meets: nothing, or an error at its `n`-th statement. */
  datatype Fault = NoFault | Busy(at: nat) | OtherError(at: nat)

  predicate Hits(fault: Fault, n: nat) { !fault.NoFault? && fault.at == n }

  function Titled(row: SessionRow, title: string, turn: nat, usage: string, status: string,
                  phase: string): SessionRow
  {
    SessionRow(if title != "" then title else row.title, turn, usage, status, phase)
  }

  /** The whole save as one change of the database. */
  function Saved(db: Db, sid: string, ms: seq<Message>, meta: SessionRow): Db {
    var row := if sid in db.sessions then db.sessions[sid]
               else SessionRow(meta.title, 0, "{}", "", "");
    Db(db.sessions[sid := Titled(row, meta.title, meta.turn, meta.usage, meta.status, meta.phase)],
       SavedMessages(db.messages, sid, ms))
  }

  // ---- Loading ------------------------------------------------------------------------------

  /** The message of a row: what was encoded, or what the columns from before hold. */
  function MessageOf(r: Row): Message {
    if r.data.Some? then r.data.value else Message(r.role, r.content, r.calls, None)
  }

  function ReadRows(rows: seq<Row>): (ms: seq<Message>)
    ensures |ms| == |rows| && forall i :: 0 <= i < |ms| ==> ms[i] == MessageOf(rows[i])
  {
    Map(rows, (r: Row) => MessageOf(r))
  }

  datatype Session = Session(row: SessionRow, messages: seq<Message>)

  /** `load_session`: the rows in order, with lost tool-call ids filled in. */
  function Loaded(db: Db, sid: string): Option<Session> {
    if sid !in db.sessions then None
    else
      var ms := ReadRows(RowsOf(db.messages, sid));
      Some(Session(db.sessions[sid], Repair.Repaired(ms, [], |ms|)))
  }

  /** Every tool message has an id. */
  predicate HasIds(ms: seq<Message>) { forall m :: m in ms ==> !Repair.Lacks(m) }

  /** Loading a saved session gives the repair of what was saved, which is what was saved exactly
      when every tool message had its id. */
  lemma {:induction false} LoadAfterSave(
    after: Db, before: Db, sid: string, ms: seq<Message>, meta: SessionRow)
    requires Valid(before.messages) && after == Saved(before, sid, ms, meta)
    ensures Loaded(after, sid).Some?
    ensures Loaded(after, sid).value.messages == Repair.Repaired(ms, [], |ms|)
    ensures Loaded(after, sid).value.messages == ms <==> HasIds(ms)
    ensures forall other :: other != sid ==> Loaded(after, other) == Loaded(before, other)
  {
    SaveReplacesAll(before.messages, sid, ms);
    LoadsWhatIsHeld(after, before, sid, ms);
    forall other | other != sid
      ensures Loaded(after, other) == Loaded(before, other)
    {
    }
  }

  lemma {:induction false} LoadsWhatIsHeld(after: Db, before: Db, sid: string, ms: seq<Message>)
    requires HoldsExactly(after.messages, before.messages, sid, ms) && sid in after.sessions
    ensures Loaded(after, sid).value.messages == Repair.Repaired(ms, [], |ms|)
    ensures Loaded(after, sid).value.messages == ms <==> HasIds(ms)
  {
    ReadsWhatWasEncoded(RowsOf(after.messages, sid), ms);
    RepairIsNothingExactlyWhen(ms);
  }

  lemma {:induction false} ReadsWhatWasEncoded(rows: seq<Row>, ms: seq<Message>)
    requires Persisted(rows) == Encoded(ms)
    ensures ReadRows(rows) == ms
  {
    assert |Persisted(rows)| == |Encoded(ms)|;
    forall i | 0 <= i < |rows|
      ensures rows[i].data == Some(ms[i])
    {
      assert Persisted(rows)[i] == Encoded(ms)[i];
    }
  }

  lemma {:induction false} RepairIsNothingExactlyWhen(ms: seq<Message>)
    ensures Repair.Repaired(ms, [], |ms|) == ms <==> HasIds(ms)
  {
    Repair.RepairOnlyFillsIn(ms, [], |ms|);
    if HasIds(ms) {
      Repair.NothingToFill(ms, [], |ms|);
    }
  }

  /** Saving what was loaded and loading it again changes nothing any more. */
  lemma {:induction false} LoadIsStable(before: Db, sid: string, meta: SessionRow)
    requires Valid(before.messages) && Loaded(before, sid).Some?
    ensures var ms := Loaded(before, sid).value.messages;
            Loaded(Saved(before, sid, ms, meta), sid).Some?
            && Loaded(Saved(before, sid, ms, meta), sid).value.messages == ms
  {
    var stored := ReadRows(RowsOf(before.messages, sid));
    var ms := Loaded(before, sid).value.messages;
    Repair.RepairOnlyFillsIn(stored, [], |stored|);
    LoadAfterSave(Saved(before, sid, ms, meta), before, sid, ms, meta);
  }

  /** The transcripts that the chat loop can leave have all their ids, so saving and loading them is
      the identity, stopped chats included. */
  lemma {:induction false} SettledSurvivesRestart(
    before: Db, sid: string, ms: seq<Message>, meta: SessionRow)
    requires Valid(before.messages) && AllGroups(Rest(ms), Settled)
    ensures Loaded(Saved(before, sid, ms, meta), sid).Some?
    ensures Loaded(Saved(before, sid, ms, meta), sid).value.messages == ms
  {
    SettledHasIds(Rest(ms));
    FilterHolds(ms, NotSystem);
    LoadAfterSave(Saved(before, sid, ms, meta), before, sid, ms, meta);
  }

  lemma {:induction false} SettledHasIds(ms: seq<Message>)
    requires AllGroups(ms, Settled)
    ensures HasIds(ms)
    decreases |ms|
  {
    if ms != [] {
      var n := GroupLength(ms);
      FirstGroup(ms, Settled);
      SettledHasIds(ms[n..]);
      assert ms == ms[..n] + ms[n..];
    }
  }

  class SQLiteStore {
    var db: Db

    constructor ()
      ensures db == Db(map[], []) && Valid(db.messages)
    {
      db := Db(map[], []);
      assert forall sid :: RowsOf([], sid) == [];
    }

    /** INSERTs in a transaction; `statement` counts the statements executed so far. */
    static method InsertAll(
      start: seq<Row>, sid: string, first: int, ms: seq<Message>, fault: Fault, count: nat)
      returns (table: seq<Row>, failed: bool, statement: nat)
      ensures !failed ==> table == Inserted(start, sid, first, ms) && statement == count + |ms|
      ensures failed ==> !fault.NoFault?
      ensures failed <==> !fault.NoFault? && count <= fault.at < count + |ms|
    {
      table, failed, statement := start, false, count;
      for i := 0 to |ms|
        invariant table == Inserted(start, sid, first, ms[..i]) && statement == count + i
        invariant !fault.NoFault? && count <= fault.at ==> fault.at >= count + i
        invariant !failed
      {
        if Hits(fault, statement) {
          return table, true, statement;
        }
        assert ms[..i + 1][..i] == ms[..i];
        table := table + [RowFor(sid, first + i, ms[i])];
        statement := statement + 1;
      }
      assert ms[..|ms|] == ms;
    }

    /** One attempt, on a working copy that only a commit makes the database. */
    method Attempt(sid: string, ms: seq<Message>, meta: SessionRow, fault: Fault)
      returns (committed: bool)
      modifies this
      ensures committed ==> db == Saved(old(db), sid, ms, meta)
      ensures !committed ==> db == old(db) && !fault.NoFault?
    {
      var work := db;
      if Hits(fault, 0) || Hits(fault, 1) {
        return false;
      }
      if sid !in work.sessions {
        if Hits(fault, 2) {
          return false;
        }
        work := work.(sessions := work.sessions[sid := SessionRow(meta.title, 0, "{}", "", "")]);
      }
      if Hits(fault, 3) {
        return false;
      }
      var persisted := Persisted(RowsOf(work.messages, sid));
      var n := |persisted|;
      var table, failed, statement := work.messages, false, 4;
      if persisted == Encoded(ms) {
      } else if n < |ms| && persisted == Encoded(ms[..n]) {
        table, failed, statement := InsertAll(table, sid, n + 1, ms[n..], fault, 4);
      } else {
        if Hits(fault, 4) {
          return false;
        }
        table, failed, statement := InsertAll(Deleted(table, sid), sid, 1, ms, fault, 5);
      }
      if failed || Hits(fault, statement) || Hits(fault, statement + 1) {
        return false;
      }
      var row := work.sessions[sid];
      db := Db(work.sessions[sid := Titled(row, meta.title, meta.turn, meta.usage, meta.status,
                                           meta.phase)], table);
      committed := true;
    }

    /** `save_context`: at most three attempts, the next one only after a busy database. The
        store is as a replacement of the whole list leaves it, or unchanged with an error. */
    method SaveContext(
      sid: string, ms: seq<Message>, meta: SessionRow, serializable: bool, faults: nat -> Fault)
      returns (result: Result<(), string>, attempts: nat)
      requires Valid(db.messages)
      modifies this
      ensures Valid(db.messages)
      ensures attempts <= 3
      ensures result.Ok? ==> db == Saved(old(db), sid, ms, meta)
      ensures result.Ok? ==> HoldsExactly(db.messages, old(db.messages), sid, ms)
      ensures result.Err? ==> db == old(db)
      ensures result.Err? && serializable ==>
                attempts > 0 && !faults(attempts - 1).NoFault?
                && (attempts == 3 || !faults(attempts - 1).Busy?)
      ensures !serializable ==> result.Err? && attempts == 0
    {
      if !serializable {
        return Err("会话保存序列化失败"), 0;
      }
      attempts := 0;
      while true
        invariant attempts < 3 && db == old(db)
        decreases 3 - attempts
      {
        var committed := Attempt(sid, ms, meta, faults(attempts));
        attempts := attempts + 1;
        if committed {
          SaveReplacesAll(old(db.messages), sid, ms);
          return Ok(()), attempts;
        }
        if !(faults(attempts - 1).Busy? && attempts - 1 < 2) {
          return Err("SQLite 会话保存失败"), attempts;
        }
      }
    }

    method AppendMessage(sid: string, m: Message)
      requires Valid(db.messages)
      modifies this
      ensures Valid(db.messages)
      ensures db.sessions == old(db.sessions)
      ensures Persisted(RowsOf(db.messages, sid)) == Persisted(RowsOf(old(db.messages), sid)) + [Some(m)]
      ensures forall other :: other != sid ==>
                RowsOf(db.messages, other) == RowsOf(old(db.messages), other)
    {
      AppendKeepsNumbering(db.messages, sid, m);
      var seqNo := MaxSeq(RowsOf(db.messages, sid)) + 1;
      db := db.(messages := db.messages + [RowFor(sid, seqNo, m)]);
    }

    method DeleteSession(sid: string)
      requires Valid(db.messages)
      modifies this
      ensures Valid(db.messages) && RowsOf(db.messages, sid) == []
      ensures db.sessions == old(db.sessions) - {sid}
      ensures forall other :: other != sid ==>
                RowsOf(db.messages, other) == RowsOf(old(db.messages), other)
    {
      DeleteKeepsNumbering(db.messages, sid);
      DeleteLeavesOthers(db.messages, sid);
      db := Db(db.sessions - {sid}, Deleted(db.messages, sid));
    }

    method LoadSession(sid: string) returns (loaded: Option<Session>)
      ensures loaded == Loaded(db, sid)
    {
      if sid !in db.sessions {
        return None;
      }
      var rows := RowsOf(db.messages, sid);
      var messages: seq<Message> := [];
      for i := 0 to |rows|
        invariant messages == ReadRows(rows[..i])
      {
        messages := messages + [if rows[i].data.Some? then rows[i].data.value
                                else Message(rows[i].role, rows[i].content, rows[i].calls, None)];
      }
      assert rows[..|rows|] == rows;
      var repaired := new Message[|messages|](i requires 0 <= i < |messages| => messages[i]);
      assert repaired[..] == messages;
      Repair.RepairToolCallIds(repaired);
      loaded := Some(Session(db.sessions[sid], repaired[..]));
    }
  }
}
