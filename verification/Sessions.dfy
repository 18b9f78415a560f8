/** A database session: the working copy the code reads and writes, and the copy a crash falls back to. */
module Sessions {
  import opened Tables

  class Session {
    var db: Db
    var committed: Db
    ghost var log: seq<Db>  // every copy committed so far: what a crash can fall back to

    constructor (initial: Db)
      ensures db == committed == initial && log == [initial]
    {
      db, committed := initial, initial;
      log := [initial];
    }

    method Commit()
      modifies this
      ensures db == committed == old(db) && log == old(log) + [db]
    {
      committed := db;
      log := log + [db];
    }

    /** A crash, or leaving the session without a commit. */
    method Rollback()
      modifies this
      ensures db == committed == old(committed) && log == old(log)
    {
      db := committed;
    }
  }
}
