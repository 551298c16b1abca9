/** One thread taken step by step, with anything the other threads do in between. */
module Rounds {
  import opened Statements
  import opened Calls
  import opened Threads

  /** The thread neither steps nor stops in these actions. */
  predicate Rests(tid: nat, acts: seq<Act>) {
    forall a | a in acts :: !(a.Step? && a.tid == tid) && !(a.Stop? && a.tid == tid)
  }

  lemma {:induction false} RestingKept(digest: Digest, w: World, acts: seq<Act>, tid: nat)
    requires tid in w.threads && Rests(tid, acts)
    ensures tid in Execute(digest, w, acts).threads && Execute(digest, w, acts).threads[tid] == w.threads[tid]
  {
    if acts == [] {
    } else {
      assert acts[|acts| - 1] in acts;
      RestingKept(digest, w, acts[..|acts| - 1], tid);
    }
  }

  lemma {:induction false} ExecuteEvolves(digest: Digest, w: World, acts: seq<Act>)
    requires DbInv(w.db)
    ensures DbInv(Execute(digest, w, acts).db) && Evolves(w.db, Execute(digest, w, acts).db)
  {
    ThreadsRunStatements(digest, w, acts);
    RunKeepsDbInv(w.db, StmtsOf(digest, w, acts));
    RunEvolves(w.db, StmtsOf(digest, w, acts));
  }

  /** One step of the thread, then anything that is not the thread's. */
  ghost function Round(digest: Digest, w: World, tid: nat, c: Choice, others: seq<Act>): World {
    Execute(digest, Advance(digest, w, Step(tid, c)), others)
  }

  lemma RoundLeads(digest: Digest, w: World, tid: nat, c: Choice, others: seq<Act>)
    requires DbInv(w.db) && tid in w.threads && Rests(tid, others)
    ensures var w' := Round(digest, w, tid, c, others);
      && DbInv(w'.db) && Evolves(w.db, w'.db)
      && tid in w'.threads && w'.threads[tid] == Stepped(digest, w.db, w.threads[tid], c)
  {
    var w1 := Advance(digest, w, Step(tid, c));
    ExecKeepsDbInv(w.db, NextStmt(w, Step(tid, c)));
    ExecEvolves(w.db, NextStmt(w, Step(tid, c)));
    ExecuteEvolves(digest, w1, others);
    EvolvesTransitive(w.db, w1.db, Round(digest, w, tid, c, others).db);
    RestingKept(digest, w1, others, tid);
  }
}
