/** Conversation tables and their full-text index, which is written but never cleaned. */
module Sessions {
  import opened Wrappers

  type SessionId = string
  type MessageId = nat
  type Subject = (string, string)

  datatype Status = Active | Stale | Archived

  datatype Session = Session(created: int, updated: int, status: Status)

  datatype Message = Message(session: SessionId, ts: int, role: string, content: string)

  datatype Db = Db(
    sessions: map<SessionId, Session>, messages: map<MessageId, Message>, nextId: MessageId,
    index: map<MessageId, string>, links: map<Subject, SessionId>)

  const EMPTY := Db(map[], map[], 1, map[], map[])

  const STALE_AFTER := 30 * 86400
  const ARCHIVE_AFTER := 90 * 86400

  /** Each is one committed transaction; an append is an Ensure and then an Insert. */
  datatype Op =
    | Ensure(id: SessionId, now: int)
    | Insert(session: SessionId, role: string, content: string, now: int)
    | Delete(id: SessionId)
    | Bind(subject: Subject, id: SessionId, now: int)
    | Sweep(now: int)

  function Ensured(sessions: map<SessionId, Session>, id: SessionId, now: int): map<SessionId, Session> {
    if id in sessions then sessions else sessions[id := Session(now, now, Active)]
  }

  function Aged(s: Session, now: int): Session {
    var stale := if s.status.Active? && s.updated < now - STALE_AFTER then s.(status := Stale) else s;
    if !stale.status.Archived? && s.updated < now - ARCHIVE_AFTER then stale.(status := Archived) else stale
  }

  /** Ninety idle days archive a session, thirty make an active one stale, and nothing else about
      it changes. */
  lemma AgedMeans(s: Session, now: int)
    ensures var idle := now - s.updated;
            Aged(s, now) == if idle > 90 * 24 * 3600 then s.(status := Archived)
                            else if idle > 30 * 24 * 3600 && s.status == Active then s.(status := Stale) else s
  {
  }

  function Next(db: Db, op: Op): Db {
    match op
    case Ensure(id, now) => db.(sessions := Ensured(db.sessions, id, now))
    case Insert(session, role, content, now) =>
      Db(if session in db.sessions then db.sessions[session := db.sessions[session].(updated := now)] else db.sessions,
         db.messages[db.nextId := Message(session, now, role, content)], db.nextId + 1,
         db.index[db.nextId := content], db.links)
    case Delete(id) =>
      Db(db.sessions - {id}, map m | m in db.messages && db.messages[m].session != id :: db.messages[m], db.nextId, db.index,
         map l | l in db.links && db.links[l] != id :: db.links[l])
    case Bind(subject, id, now) => db.(sessions := Ensured(db.sessions, id, now), links := db.links[subject := id])
    case Sweep(now) => db.(sessions := map s | s in db.sessions :: Aged(db.sessions[s], now))
  }

  function Run(db: Db, ops: seq<Op>): Db
    decreases |ops|
  {
    if ops == [] then db else Run(Next(db, ops[0]), ops[1..])
  }

  // ---- search ----

  /** The index joined with the message table on the row id. */
  function Joined(db: Db, matches: string -> bool, only: Option<SessionId>): set<MessageId> {
    set m | m in db.index && matches(db.index[m]) && m in db.messages && (only.None? || db.messages[m].session == only.value)
  }

  /** What reading every message would find. */
  function Scanned(db: Db, matches: string -> bool, only: Option<SessionId>): set<MessageId> {
    set m | m in db.messages && matches(db.messages[m].content) && (only.None? || db.messages[m].session == only.value)
  }

  /** Stale index rows keep ids that no later message takes. */
  ghost predicate IndexOk(db: Db) {
    && (forall m | m in db.index :: m < db.nextId)
    && (forall m | m in db.messages :: m in db.index && db.index[m] == db.messages[m].content)
  }

  lemma {:induction false} RunKeepsIndex(db: Db, ops: seq<Op>)
    requires IndexOk(db)
    ensures IndexOk(Run(db, ops))
    decreases |ops|
  {
    if ops != [] {
      RunKeepsIndex(Next(db, ops[0]), ops[1..]);
    }
  }

  /** After any appends and deletions, by any number of writers, search through the index
      finds what a scan of the live messages finds. */
  lemma SearchIsScan(ops: seq<Op>, matches: string -> bool, only: Option<SessionId>)
    ensures var db := Run(EMPTY, ops); Joined(db, matches, only) == Scanned(db, matches, only)
  {
    RunKeepsIndex(EMPTY, ops);
  }

  // ---- references ----

  predicate LinksResolve(db: Db) {
    forall l | l in db.links :: db.links[l] in db.sessions
  }

  predicate MessagesBelong(db: Db) {
    forall m | m in db.messages :: db.messages[m].session in db.sessions
  }

  lemma {:induction false} LinksAlwaysResolve(db: Db, ops: seq<Op>)
    requires LinksResolve(db)
    ensures LinksResolve(Run(db, ops))
    decreases |ops|
  {
    if ops != [] {
      LinksAlwaysResolve(Next(db, ops[0]), ops[1..]);
    }
  }

  /** No insert finds its session gone. */
  predicate NoneDeletedMidAppend(db: Db, ops: seq<Op>)
    decreases |ops|
  {
    ops == [] || ((ops[0].Insert? ==> ops[0].session in db.sessions) && NoneDeletedMidAppend(Next(db, ops[0]), ops[1..]))
  }

  lemma {:induction false} MessagesStillBelong(db: Db, ops: seq<Op>)
    requires MessagesBelong(db) && NoneDeletedMidAppend(db, ops)
    ensures MessagesBelong(Run(db, ops))
    decreases |ops|
  {
    if ops != [] {
      MessagesStillBelong(Next(db, ops[0]), ops[1..]);
    }
  }

  /** Every message belongs to a session just after an insert exactly when nobody deleted
      the session since the append ensured it. */
  lemma InsertBelongsIff(db: Db, session: SessionId, role: string, content: string, now: int)
    requires MessagesBelong(db) && IndexOk(db)
    ensures MessagesBelong(Next(db, Insert(session, role, content, now))) <==> session in db.sessions
  {
    var after := Next(db, Insert(session, role, content, now));
    assert after.messages[db.nextId].session == session;
    forall m | m in db.messages ensures after.messages[m] == db.messages[m] {
    }
  }

  predicate AlwaysBelong(db: Db, ops: seq<Op>)
    decreases |ops|
  {
    MessagesBelong(db) && (ops == [] || AlwaysBelong(Next(db, ops[0]), ops[1..]))
  }

  lemma OthersKeepBelonging(db: Db, op: Op)
    requires MessagesBelong(db) && !op.Insert?
    ensures MessagesBelong(Next(db, op))
  {
  }

  lemma {:induction false} AlwaysBelongIff(db: Db, ops: seq<Op>)
    requires MessagesBelong(db) && IndexOk(db)
    ensures AlwaysBelong(db, ops) <==> NoneDeletedMidAppend(db, ops)
    decreases |ops|
  {
    if ops != [] {
      var op, next := ops[0], Next(db, ops[0]);
      if op.Insert? {
        InsertBelongsIff(db, op.session, op.role, op.content, op.now);
        assert MessagesBelong(next) <==> op.session in db.sessions;
      } else {
        OthersKeepBelonging(db, op);
      }
      if MessagesBelong(next) {
        AlwaysBelongIff(next, ops[1..]);
      } else {
        assert !AlwaysBelong(next, ops[1..]);
      }
    }
  }

  predicate Makes(op: Op, session: SessionId) {
    (op.Ensure? || op.Bind?) && op.id == session
  }

  /** The last of `ops` to make or delete the session, if any, makes it. */
  predicate LastMade(ops: seq<Op>, session: SessionId) {
    exists j | 0 <= j < |ops| :: Makes(ops[j], session) && forall k | j < k < |ops| :: ops[k] != Delete(session)
  }

  lemma LastMadeThen(ops: seq<Op>, op: Op, session: SessionId)
    ensures LastMade(ops + [op], session) <==> Makes(op, session) || (op != Delete(session) && LastMade(ops, session))
  {
    var all := ops + [op];
    if Makes(op, session) { assert Makes(all[|ops|], session); }
    if LastMade(ops, session) && op != Delete(session) {
      var j :| 0 <= j < |ops| && Makes(ops[j], session) && forall k | j < k < |ops| :: ops[k] != Delete(session);
      assert Makes(all[j], session);
    }
    if LastMade(all, session) && !Makes(op, session) {
      var j :| 0 <= j < |all| && Makes(all[j], session) && forall k | j < k < |all| :: all[k] != Delete(session);
      assert Makes(ops[j], session) && all[|ops|] == op;
      forall k | j < k < |ops| ensures ops[k] != Delete(session) { assert all[k] == ops[k]; }
    }
  }

  lemma {:induction false} RunThen(db: Db, ops: seq<Op>, op: Op)
    ensures Run(db, ops + [op]) == Next(Run(db, ops), op)
    decreases |ops|
  {
    if ops == [] {
      assert ops + [op] == [op];
      assert Run(Next(db, op), [op][1..]) == Next(db, op);
    } else {
      assert (ops + [op])[1..] == ops[1..] + [op];
      RunThen(Next(db, ops[0]), ops[1..], op);
    }
  }

  lemma {:induction false} LivesIff(ops: seq<Op>, session: SessionId)
    ensures session in Run(EMPTY, ops).sessions <==> LastMade(ops, session)
    decreases |ops|
  {
    if ops != [] {
      var n := |ops| - 1;
      assert ops == ops[..n] + [ops[n]];
      LivesIff(ops[..n], session);
      RunThen(EMPTY, ops[..n], ops[n]);
      LastMadeThen(ops[..n], ops[n], session);
    }
  }

  lemma {:induction false} InsertsFindIff(before: seq<Op>, ops: seq<Op>)
    ensures NoneDeletedMidAppend(Run(EMPTY, before), ops)
       <==> forall i | 0 <= i < |ops| && ops[i].Insert? :: LastMade(before + ops[..i], ops[i].session)
    decreases |ops|
  {
    if ops != [] {
      var db, rest, more := Run(EMPTY, before), ops[1..], before + [ops[0]];
      RunThen(EMPTY, before, ops[0]);
      InsertsFindIff(more, rest);
      forall i | 0 <= i < |rest| ensures more + rest[..i] == before + ops[..i + 1] && rest[i] == ops[i + 1] {
      }
      assert before + ops[..0] == before;
      if ops[0].Insert? { LivesIff(before, ops[0].session); }
      assert forall i | 1 <= i < |ops| :: ops[i] == rest[i - 1] && before + ops[..i] == more + rest[..i - 1];
    }
  }

  /** In a run of any writers' transactions from an empty database, every message belongs to
      a session at every point exactly when each insert comes after an operation that makes
      its session, with no deletion of that session since. */
  lemma MessagesAlwaysBelongIff(ops: seq<Op>)
    ensures AlwaysBelong(EMPTY, ops)
       <==> forall i | 0 <= i < |ops| && ops[i].Insert? :: LastMade(ops[..i], ops[i].session)
  {
    AlwaysBelongIff(EMPTY, ops);
    InsertsFindIff([], ops);
    forall i | 0 <= i < |ops| ensures [] + ops[..i] == ops[..i] { }
  }

  /** An append is Ensure, then Insert: another writer's deletion in between leaves a
      message of no session, from an empty database in three transactions. */
  lemma DeletionMidAppendOrphans(id: SessionId, role: string, content: string, now: int)
    ensures var db := Run(EMPTY, [Ensure(id, now), Delete(id), Insert(id, role, content, now)]);
            1 in db.messages && db.messages[1] == Message(id, now, role, content) && id !in db.sessions && !MessagesBelong(db)
  {
    var a := Next(EMPTY, Ensure(id, now));
    var b := Next(a, Delete(id));
    var c := Next(b, Insert(id, role, content, now));
    assert Run(EMPTY, [Ensure(id, now), Delete(id), Insert(id, role, content, now)]) == c by {
      assert [Ensure(id, now), Delete(id), Insert(id, role, content, now)][1..] == [Delete(id), Insert(id, role, content, now)];
      assert [Delete(id), Insert(id, role, content, now)][1..] == [Insert(id, role, content, now)];
      assert Run(b, [Insert(id, role, content, now)]) == Run(c, []) by { assert [Insert(id, role, content, now)][1..] == []; }
    }
    assert c.messages[1].session == id && id !in c.sessions;
  }

  // ---- transcripts ----

  predicate InSession(db: Db, m: MessageId, session: SessionId) {
    m in db.messages && db.messages[m].session == session
  }

  /** A session's messages below id `n`, oldest first. */
  function UpTo(db: Db, session: SessionId, n: nat): (ids: seq<MessageId>)
    ensures forall m: MessageId :: m in ids <==> m < n && InSession(db, m, session)
    ensures forall i, j | 0 <= i < j < |ids| :: ids[i] < ids[j]
  {
    if n == 0 then []
    else
      var rest := UpTo(db, session, n - 1);
      assert forall i | 0 <= i < |rest| :: rest[i] in rest;
      if InSession(db, n - 1, session) then rest + [n - 1] else rest
  }

  function Transcript(db: Db, session: SessionId): seq<MessageId> {
    UpTo(db, session, db.nextId)
  }

  function Newer(db: Db, session: SessionId, than: MessageId): set<MessageId> {
    set m | m in db.messages && InSession(db, m, session) && m > than
  }

  /** ORDER BY id DESC LIMIT `limit`, put back in order; a negative limit is no limit. */
  function Recent(db: Db, session: SessionId, limit: int, n: nat): seq<MessageId> {
    if n == 0 then []
    else
      var rest := Recent(db, session, limit, n - 1);
      if InSession(db, n - 1, session) && (limit < 0 || |Newer(db, session, n - 1)| < limit) then rest + [n - 1] else rest
  }

  /** The next message of a session is the only one between two neighbours. */
  lemma NewerNext(db: Db, session: SessionId, i: nat)
    requires forall m | m in db.messages :: m < db.nextId
    requires i + 1 < |Transcript(db, session)|
    ensures var ids := Transcript(db, session);
            Newer(db, session, ids[i]) == Newer(db, session, ids[i + 1]) + {ids[i + 1]} && ids[i + 1] !in Newer(db, session, ids[i + 1])
  {
    var ids := Transcript(db, session);
    assert ids[i + 1] in ids;
    forall m | m in Newer(db, session, ids[i]) ensures m in Newer(db, session, ids[i + 1]) + {ids[i + 1]} {
      assert m in ids;
      var k :| 0 <= k < |ids| && ids[k] == m;
      assert k > i;
    }
  }

  lemma NoneNewer(db: Db, session: SessionId)
    requires forall m | m in db.messages :: m < db.nextId
    requires Transcript(db, session) != []
    ensures var ids := Transcript(db, session); Newer(db, session, ids[|ids| - 1]) == {}
  {
    var ids := Transcript(db, session);
    assert forall m | m in db.messages && InSession(db, m, session) :: m in ids;
  }

  lemma {:induction false} NewerCount(db: Db, session: SessionId, i: nat)
    requires forall m | m in db.messages :: m < db.nextId
    requires i < |Transcript(db, session)|
    ensures var ids := Transcript(db, session);
            |Newer(db, session, ids[i])| == |ids| - 1 - i
    decreases |Transcript(db, session)| - i
  {
    if i == |Transcript(db, session)| - 1 {
      NoneNewer(db, session);
    } else {
      NewerNext(db, session, i);
      NewerCount(db, session, i + 1);
    }
  }

  lemma {:induction false} UpToIsPrefix(db: Db, session: SessionId, n: nat, top: nat)
    requires n <= top
    ensures UpTo(db, session, n) <= UpTo(db, session, top)
    decreases top
  {
    if n < top { UpToIsPrefix(db, session, n, top - 1); }
  }

  function Cut(length: nat, limit: int): nat {
    if limit < 0 || limit > length then 0 else length - limit
  }

  /** A message is within the limit exactly when its position is past the cut. */
  lemma WithinLimit(db: Db, session: SessionId, limit: int, n: nat)
    requires 1 <= n <= db.nextId && InSession(db, n - 1, session)
    requires forall m | m in db.messages :: m < db.nextId
    ensures limit < 0 || |Newer(db, session, n - 1)| < limit
       <==> Cut(|Transcript(db, session)|, limit) <= |UpTo(db, session, n - 1)|
  {
    UpToIsPrefix(db, session, n, db.nextId);
    var i := |UpTo(db, session, n - 1)|;
    assert UpTo(db, session, n)[i] == n - 1;
    NewerCount(db, session, i);
  }

  function Tail<T>(s: seq<T>, cut: nat): seq<T> {
    if |s| <= cut then [] else s[cut..]
  }

  lemma TailGrows<T>(s: seq<T>, x: T, cut: nat)
    ensures Tail(s + [x], cut) == if cut <= |s| then Tail(s, cut) + [x] else Tail(s, cut)
  {
  }

  lemma {:induction false} RecentIsTail(db: Db, session: SessionId, limit: int, n: nat)
    requires n <= db.nextId && forall m | m in db.messages :: m < db.nextId
    ensures Recent(db, session, limit, n) == Tail(UpTo(db, session, n), Cut(|Transcript(db, session)|, limit))
    decreases n
  {
    if n > 0 {
      RecentIsTail(db, session, limit, n - 1);
      if InSession(db, n - 1, session) {
        WithinLimit(db, session, limit, n);
        TailGrows(UpTo(db, session, n - 1), n - 1, Cut(|Transcript(db, session)|, limit));
      }
    }
  }

  /** A limited read is the end of the full transcript, in the same order. */
  lemma LimitIsSuffix(db: Db, session: SessionId, limit: int)
    requires forall m | m in db.messages :: m < db.nextId
    ensures var all := Transcript(db, session);
            Recent(db, session, limit, db.nextId) == all[Cut(|all|, limit)..]
  {
    RecentIsTail(db, session, limit, db.nextId);
  }

  lemma {:induction false} SameBelow(a: Db, b: Db, session: SessionId, n: nat)
    requires forall m: MessageId | m < n :: InSession(a, m, session) <==> InSession(b, m, session)
    ensures UpTo(a, session, n) == UpTo(b, session, n)
    decreases n
  {
    if n > 0 { SameBelow(a, b, session, n - 1); }
  }

  /** An append puts one message at the end of its own transcript and leaves the others. */
  lemma AppendExtends(db: Db, session: SessionId, role: string, content: string, now: int, other: SessionId)
    requires IndexOk(db) && other != session
    ensures var after := Next(db, Insert(session, role, content, now));
            && Transcript(after, session) == Transcript(db, session) + [db.nextId]
            && after.messages[db.nextId] == Message(session, now, role, content)
            && Transcript(after, other) == Transcript(db, other)
  {
    var after := Next(db, Insert(session, role, content, now));
    SameBelow(db, after, session, db.nextId);
    SameBelow(db, after, other, db.nextId);
  }

  /** A deletion erases one transcript, all its links and search hits, and nothing else. */
  lemma DeleteErases(db: Db, session: SessionId, other: SessionId, matches: string -> bool)
    requires IndexOk(db) && other != session
    ensures var after := Next(db, Delete(session));
            && session !in after.sessions && Transcript(after, session) == []
            && Transcript(after, other) == Transcript(db, other)
            && Joined(after, matches, Some(session)) == {}
            && Joined(after, matches, Some(other)) == Joined(db, matches, Some(other))
  {
    var after := Next(db, Delete(session));
    SameBelow(db, after, other, db.nextId);
    SameBelow(EMPTY, after, session, db.nextId);
    NoMessages(session, db.nextId);
  }

  lemma {:induction false} NoMessages(session: SessionId, n: nat)
    ensures UpTo(EMPTY, session, n) == []
    decreases n
  {
    if n > 0 { NoMessages(session, n - 1); }
  }
}
