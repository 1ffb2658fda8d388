/** The store object: its methods are the transactions of the model, run by one writer. */
module SessionStore {
  import opened Wrappers
  import opened Sessions

  predicate Deletable(s: Session, cutoff: int) {
    s.status.Archived? && s.updated < cutoff
  }

  /** The tables with every session in `gone` erased. */
  function Erased(db: Db, gone: set<SessionId>): Db {
    Db(db.sessions - gone, map m | m in db.messages && db.messages[m].session !in gone :: db.messages[m], db.nextId, db.index,
       map l | l in db.links && db.links[l] !in gone :: db.links[l])
  }

  lemma ErasedOne(db: Db, gone: set<SessionId>, id: SessionId)
    ensures Next(Erased(db, gone), Delete(id)) == Erased(db, gone + {id})
  {
    var a, b := Next(Erased(db, gone), Delete(id)), Erased(db, gone + {id});
    assert a.sessions == b.sessions;
    assert a.messages == b.messages;
    assert a.links == b.links;
  }

  function Owned(db: Db, id: SessionId): set<MessageId> {
    set m | m in db.messages && db.messages[m].session == id
  }

  /** Two updates in a row age every session as one step does. */
  lemma TwoUpdates(before: map<SessionId, Session>, quiet: set<SessionId>, idle: set<SessionId>, now: int, after: map<SessionId, Session>)
    requires quiet == set s | s in before && before[s].status.Active? && before[s].updated < now - STALE_AFTER
    requires idle == set s | s in before && !before[s].status.Archived? && before[s].updated < now - ARCHIVE_AFTER
    requires after.Keys == before.Keys
    requires forall s | s in before ::
               after[s] == before[s].(status := if s in idle then Archived else if s in quiet then Stale else before[s].status)
    ensures after == map s | s in before :: Aged(before[s], now)
    ensures idle == set s | s in before && !before[s].status.Archived? && s in after && after[s].status.Archived?
  {
  }

  class SessionStore {
    const matches: (string, string) -> bool
    const like: (string, string) -> bool
    const wellFormed: string -> bool
    var sessions: map<SessionId, Session>
    var messages: map<MessageId, Message>
    var nextId: MessageId
    var index: map<MessageId, string>
    var links: map<Subject, SessionId>

    ghost function Current(): Db
      reads this
    {
      Db(sessions, messages, nextId, index, links)
    }

    constructor (matches: (string, string) -> bool, like: (string, string) -> bool, wellFormed: string -> bool)
      ensures Current() == Sessions.EMPTY
    {
      this.matches, this.like, this.wellFormed := matches, like, wellFormed;
      sessions, messages, nextId, index, links := map[], map[], 1, map[], map[];
    }

    /** An empty session id is an error. */
    method Ensure(id: SessionId, now: int) returns (ok: bool)
      modifies this`sessions
      ensures ok <==> id != ""
      ensures Current() == if ok then Next(old(Current()), Op.Ensure(id, now)) else old(Current())
    {
      if id == "" { return false; }
      if id !in sessions { sessions := sessions[id := Session(now, now, Active)]; }
      return true;
    }

    method Append(session: SessionId, role: string, content: string, now: int) returns (id: Option<MessageId>)
      modifies this
      ensures id == if session == "" then None else Some(old(nextId))
      ensures Current() == if session == "" then old(Current())
                           else Next(Next(old(Current()), Op.Ensure(session, now)), Insert(session, role, content, now))
      ensures id.Some? ==> session in sessions && sessions[session].updated == now
    {
      var ok := Ensure(session, now);
      if !ok { return None; }
      messages := messages[nextId := Message(session, now, role, content)];
      index := index[nextId := content];
      sessions := sessions[session := sessions[session].(updated := now)];
      nextId := nextId + 1;
      return Some(nextId - 1);
    }

    /** Moves a subject to a session, creating it if need be. */
    method BindLink(subject: Subject, id: SessionId, valid: bool, now: int) returns (ok: bool)
      modifies this`sessions, this`links
      ensures ok == valid
      ensures Current() == if ok then Next(old(Current()), Bind(subject, id, now)) else old(Current())
    {
      if !valid { return false; }
      if id !in sessions { sessions := sessions[id := Session(now, now, Active)]; }
      links := links[subject := id];
      return true;
    }

    method ResolveLink(subject: Subject) returns (id: Option<SessionId>)
      ensures id == if subject in links then Some(links[subject]) else None
    {
      id := if subject in links then Some(links[subject]) else None;
    }

    method DeleteSession(id: SessionId) returns (deleted: nat)
      modifies this`sessions, this`messages, this`links
      ensures Current() == Next(old(Current()), Delete(id))
      ensures deleted == |Owned(old(Current()), id)|
    {
      var own := set m | m in messages && messages[m].session == id;
      assert own == Owned(Current(), id);
      deleted := |own|;
      messages := map m | m in messages && messages[m].session != id :: messages[m];
      links := map l | l in links && links[l] != id :: links[l];
      sessions := sessions - {id};
    }

    /** Every archived session idle since before the cutoff goes, with all that is its own. */
    method DeleteArchived(cutoff: int) returns (deleted: nat)
      modifies this`sessions, this`messages, this`links
      ensures var gone := set s | s in old(sessions) && old(sessions)[s].status == Archived && old(sessions)[s].updated < cutoff;
              Current() == Erased(old(Current()), gone) && deleted == |gone|
    {
      ghost var db := Current();
      var ids := set s | s in sessions && Deletable(sessions[s], cutoff);
      var gone: set<SessionId> := {};
      assert Current() == Erased(db, {}) by {
        assert Erased(db, {}).messages == db.messages && Erased(db, {}).links == db.links;
      }
      while ids - gone != {}
        invariant gone <= ids && Current() == Erased(db, gone)
        decreases ids - gone
      {
        var id :| id in ids - gone;
        ErasedOne(db, gone, id);
        var _ := DeleteSession(id);
        gone := gone + {id};
      }
      assert forall s | s in ids :: s !in ids - gone;
      assert gone == ids;
      assert ids == set s | s in db.sessions && db.sessions[s].status == Archived && db.sessions[s].updated < cutoff;
      return |ids|;
    }

    /** Idle sessions go stale, then archived; a session idle long enough does both at once. */
    method Sweep(now: int) returns (stale: nat, archived: nat)
      modifies this`sessions
      ensures Current() == Next(old(Current()), Op.Sweep(now))
      ensures stale == |set s | s in old(sessions) && old(sessions)[s].status == Active && now - old(sessions)[s].updated > 30 * 24 * 3600|
      ensures archived == |set s | s in old(sessions) && !old(sessions)[s].status.Archived? && s in sessions && sessions[s].status.Archived?|
    {
      ghost var before := sessions;
      var quiet := set s | s in sessions && sessions[s].status.Active? && sessions[s].updated < now - STALE_AFTER;
      sessions := map s | s in sessions :: if s in quiet then sessions[s].(status := Stale) else sessions[s];
      var idle := set s | s in sessions && !sessions[s].status.Archived? && sessions[s].updated < now - ARCHIVE_AFTER;
      sessions := map s | s in sessions :: if s in idle then sessions[s].(status := Archived) else sessions[s];
      TwoUpdates(before, quiet, idle, now, sessions);
      assert quiet == set s | s in before && before[s].status == Active && now - before[s].updated > 30 * 24 * 3600;
      return |quiet|, |idle|;
    }

    /** Matches through the index, or, when the query is not valid syntax, by substring;
        at most `limit` of them. */
    method Search(query: string, only: Option<SessionId>, limit: int) returns (hits: set<MessageId>)
      requires IndexOk(Current())
      ensures var all := Scanned(Current(), c => if wellFormed(query) then matches(query, c) else like(query, c), only);
              hits <= all && |hits| == if limit < 0 || |all| <= limit then |all| else limit
    {
      var found;
      if wellFormed(query) {
        found := set m | m in index && matches(query, index[m]) && m in messages && (only.None? || messages[m].session == only.value);
      } else {
        found := set m | m in messages && like(query, messages[m].content) && (only.None? || messages[m].session == only.value);
      }
      assert found == Scanned(Current(), c => if wellFormed(query) then matches(query, c) else like(query, c), only);
      var count := if limit < 0 || |found| <= limit then |found| else limit;
      SomeOfThem(found, count);
      hits :| hits <= found && |hits| == count;
    }
  }

  lemma {:induction false} SomeOfThem(all: set<MessageId>, count: nat)
    requires count <= |all|
    ensures exists part :: part <= all && |part| == count
    decreases |all|
  {
    if count == |all| {
      assert all <= all;
    } else {
      var m :| m in all;
      SomeOfThem(all - {m}, count);
    }
  }
}
