/** The same requests over the two backends. */
module BothBackends {
  import opened Store
  import Tenancy
  import opened Handlers

  /** Two applications with one catalogue and nothing stored yet, one in memory and one over a database, get the
      same requests. Every status, code and record is the same, up to `profile_id` of analyses whose profile was
      deleted where the database clears it, and then exactly as the specification says. */
  method ServeBoth(inMemory: Extensions, sql: Extensions, calls: seq<Call>)
    returns (memoryReplies: seq<Reply>, sqlReplies: seq<Reply>)
    requires Valid(inMemory) && inMemory.backend.InMemory? && View(inMemory.backend) == EMPTY
    requires Valid(sql) && sql.backend.Sql? && View(sql.backend) == EMPTY
    requires Footprint(inMemory.backend) !! Footprint(sql.backend)
    requires sql.env == inMemory.env && sql.catalogue == inMemory.catalogue
    requires FreshRun(inMemory.env, false, EMPTY, calls)
    modifies Footprint(inMemory.backend), Footprint(sql.backend)
    ensures memoryReplies == Replies(inMemory.env, false, EMPTY, calls)
    ensures sqlReplies
            == if sql.backend.db.enforcesForeignKeys then Tenancy.ShownReplies(inMemory.env, EMPTY, calls) else memoryReplies
  {
    assert Tenancy.Nulled(EMPTY) == EMPTY;
    Tenancy.FreshRunNulled(inMemory.env, EMPTY, calls);
    Tenancy.BackendsAgree(inMemory.env, calls);
    memoryReplies := ServeAll(inMemory, calls);
    assert unchanged(Footprint(sql.backend));
    sqlReplies := ServeAll(sql, calls);
  }
}
