/** The database seen through sessions, and the unit of work that commits or rolls them back. */
module Transactions {
  import opened Wrappers
  import opened Rows
  import opened Feeds

  /** What survives a transaction: the committed rows, the stored objects, and the uploaded feeds. */
  class Store {
    var db: Database
    var objects: map<string, nat>
    var feeds: map<Id, seq<Id>>

    constructor ()
      ensures db == EMPTY_DATABASE && objects == map[] && feeds == map[]
    {
      db := EMPTY_DATABASE;
      objects := map[];
      feeds := map[];
    }

    function Snapshot(): State
      reads this
    {
      State(db, objects, feeds)
    }
  }

  /** A session: the rows as its transaction sees them. Sessions do not overlap in this model. */
  class DbSession {
    const store: Store
    var rows: Database
    var active: bool

    constructor (store: Store)
      ensures this.store == store && rows == store.db && !active
    {
      this.store := store;
      rows := store.db;
      active := false;
    }

    /** The store, with the rows as this transaction sees them. */
    function View(): State
      reads this, store
    {
      State(rows, store.objects, store.feeds)
    }

    method Begin()
      modifies this
      ensures rows == store.db && active
    {
      rows := store.db;
      active := true;
    }

    method Commit()
      modifies this, store`db
      ensures store.db == old(rows) && rows == old(rows) && !active
    {
      store.db := rows;
      active := false;
    }

    /** Also what closing an open transaction does. */
    method Rollback()
      modifies this
      ensures rows == store.db && !active
    {
      rows := store.db;
      active := false;
    }
  }

  /** Whether the database accepts a flush, a commit and a rollback. */
  datatype Reactions = Reactions(flush: bool, commit: bool, rollback: bool)

  /** What leaving a unit of work means: the rows committed, and whether leaving raises. */
  function Leave(owned: bool, marked: bool, failed: bool, o: Reactions, rows: Database,
                 stored: Database): (Database, bool) {
    if !o.flush then (stored, true)
    else if failed then (stored, !o.rollback)
    else if !owned && !marked then (stored, false)
    else if o.commit then (rows, false)
    else (stored, true)
  }

  /** `SASessionUOW`. */
  class UnitOfWork {
    var needToCommit: bool
    const ownsSession: bool
    const session: DbSession

    /** Standalone: with a session of its own. */
    constructor Standalone(store: Store)
      ensures ownsSession && fresh(session) && session.store == store && !needToCommit
    {
      needToCommit := false;
      ownsSession := true;
      session := new DbSession(store);
    }

    /** Around a session that someone else provides. */
    constructor Around(session: DbSession)
      ensures !ownsSession && this.session == session && !needToCommit
    {
      needToCommit := false;
      ownsSession := false;
      this.session := session;
    }

    method Enter()
      modifies session
      ensures session.active
      ensures ownsSession || !old(session.active) ==> session.rows == session.store.db
      ensures !ownsSession && old(session.active) ==> session.rows == old(session.rows)
    {
      if ownsSession || !session.active {
        session.Begin();
      }
    }

    /** From here on, leaving without an exception commits the block's rows, whoever owns the session. */
    method MarkForCommit()
      modifies this
      ensures needToCommit
      ensures forall o: Reactions, rows: Database, stored: Database :: o.flush && o.commit ==>
                Leave(ownsSession, needToCommit, false, o, rows, stored) == (rows, false)
    {
      needToCommit := true;
    }

    method Commit(o: Reactions) returns (raised: bool)
      modifies this, session, session.store`db
      ensures raised == !o.commit
      ensures session.store.db == if o.commit then old(session.rows) else old(session.store.db)
      ensures o.commit || o.rollback ==> session.rows == session.store.db && !session.active && !needToCommit
    {
      if o.commit {
        session.Commit();
        needToCommit := false;
        return false;
      }
      var _ := Rollback(o);
      return true;
    }

    method Rollback(o: Reactions) returns (raised: bool)
      modifies this, session
      ensures raised == !o.rollback
      ensures o.rollback ==> session.rows == session.store.db && !session.active && !needToCommit
      ensures !o.rollback ==> session.rows == old(session.rows) && needToCommit == old(needToCommit)
    {
      if o.rollback {
        session.Rollback();
        needToCommit := false;
        return false;
      }
      return true;
    }

    /** `__aexit__`; `failed` says whether the block raised. An owned session is closed in every case. */
    method Exit(failed: bool, o: Reactions) returns (raised: bool)
      modifies this, session, session.store`db
      ensures (session.store.db, raised)
          == Leave(ownsSession, old(needToCommit), failed, o, old(session.rows), old(session.store.db))
      ensures ownsSession ==> session.rows == session.store.db && !session.active
    {
      raised := !o.flush;
      if o.flush {
        if ownsSession {
          if needToCommit && !failed {
            raised := Commit(o);
          } else if failed {
            raised := Rollback(o);
          } else {
            raised := Commit(o);
          }
        } else if needToCommit && !failed {
          raised := Commit(o);
        } else if failed {
          raised := Rollback(o);
        }
      }
      if ownsSession {
        session.Rollback();
      }
    }
  }

  /** Leaving a unit of work commits everything its block wrote or nothing, and everything exactly when the
      block did not raise, the database accepts it, and the session is owned or the unit was marked. A
      standalone unit commits marked or not. */
  lemma LeavingIsAtomic(owned: bool, marked: bool, failed: bool, o: Reactions, rows: Database, stored: Database)
    requires rows != stored
    ensures
      var (db, raised) := Leave(owned, marked, failed, o, rows, stored);
      && (db == rows <==> !failed && o.flush && o.commit && (owned || marked))
      && (db != rows ==> db == stored)
      && (raised ==> db == stored)
    ensures owned ==> Leave(owned, true, failed, o, rows, stored) == Leave(owned, false, failed, o, rows, stored)
  {
  }
}
