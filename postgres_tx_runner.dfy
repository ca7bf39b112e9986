/**
 * `TxRunner` of package postgres: query builders are added in order; `Execute`
 * builds every query first, then runs them in order inside the transaction,
 * rolling back at the first failure and committing when all succeed. The
 * transaction is a `Tx` object that records what was sent to the database and
 * follows `database/sql` in refusing everything once committed or rolled back.
 */
module PostgresTxRunner {
  import opened Wrappers
  import opened Postgres

  datatype Query = Query(statement: string, args: seq<string>)

  /** What a query builder's `BuildQuery` returns. */
  datatype QueryBuilder = Builds(query: Query) | FailsToBuild(err: DbError)

  /** The operations a transaction carried out, in order. */
  datatype TxOp = Exec(query: Query) | Commit | Rollback

  /**
   * How the database answers: a statement by its position in the
   * transaction's log and its text, so that the same statement may be
   * accepted once and rejected later; and rollback and commit.
   */
  datatype Faults = Faults(exec: (nat, Query) -> Option<DbError>, rollback: Option<DbError>, commit: Option<DbError>)

  datatype TxState = TxState(done: bool, log: seq<TxOp>)

  /** `Tx.ExecContext`: refused once the transaction is over, otherwise sent and answered. */
  function ExecStep(s: TxState, f: Faults, q: Query): (TxState, Option<DbError>)
  {
    if s.done then (s, Some(ErrTxDone)) else (s.(log := s.log + [Exec(q)]), f.exec(|s.log|, q))
  }

  /** `Tx.Rollback`: ends the transaction whatever the database answers. */
  function RollbackStep(s: TxState, f: Faults): (TxState, Option<DbError>)
  {
    if s.done then (s, Some(ErrTxDone)) else (TxState(true, s.log + [Rollback]), f.rollback)
  }

  /** `Tx.Commit`: ends the transaction whatever the database answers. */
  function CommitStep(s: TxState, f: Faults): (TxState, Option<DbError>)
  {
    if s.done then (s, Some(ErrTxDone)) else (TxState(true, s.log + [Commit]), f.commit)
  }

  /** Roll back after `err`; a failing rollback wraps `err` with the rollback's message. */
  function RollbackAfter(err: DbError, s: TxState, f: Faults): (TxState, Option<DbError>)
  {
    var (s1, rollbackErr) := RollbackStep(s, f);
    (s1, Some(if rollbackErr.Some? then Wrap(err, rollbackErr.value.Error()) else err))
  }

  datatype Built = AllBuilt(queries: seq<Query>) | BuildError(err: DbError)

  /** Builds queries in order, stopping at the first builder that fails. */
  function BuildAll(bs: seq<QueryBuilder>): Built
  {
    if |bs| == 0 then AllBuilt([])
    else match bs[0]
      case FailsToBuild(e) => BuildError(e)
      case Builds(q) => Prepend([q], BuildAll(bs[1..]))
  }

  function Prepend(qs: seq<Query>, b: Built): Built
  {
    match b
    case AllBuilt(rest) => AllBuilt(qs + rest)
    case BuildError(e) => b
  }

  lemma PrependTwice(qs: seq<Query>, q: Query, b: Built)
    ensures Prepend(qs, Prepend([q], b)) == Prepend(qs + [q], b)
  {
    if b.AllBuilt? {
      assert qs + ([q] + b.queries) == (qs + [q]) + b.queries;
    }
  }

  /** Runs queries in order; the first failure rolls back, success of all commits. */
  function ExecAll(qs: seq<Query>, s: TxState, f: Faults): (TxState, Option<DbError>)
  {
    if |qs| == 0 then CommitStep(s, f)
    else
      var (s1, err) := ExecStep(s, f, qs[0]);
      if err.Some? then RollbackAfter(err.value, s1, f) else ExecAll(qs[1..], s1, f)
  }

  /** The whole of `Execute`: the transaction's new state and the returned error. */
  function ExecutePlan(bs: seq<QueryBuilder>, s: TxState, f: Faults): (TxState, Option<DbError>)
  {
    match BuildAll(bs)
    case BuildError(e) => RollbackAfter(e, s, f)
    case AllBuilt(qs) => ExecAll(qs, s, f)
  }

  class Tx {
    var done: bool
    var log: seq<TxOp>
    const faults: Faults

    function State(): TxState
      reads this
    {
      TxState(done, log)
    }

    /** `BeginTx`: a transaction that has carried out nothing yet. */
    constructor (faults: Faults)
      ensures State() == TxState(false, []) && this.faults == faults
    {
      done, log := false, [];
      this.faults := faults;
    }

    method ExecContext(q: Query) returns (err: Option<DbError>)
      modifies this
      ensures (State(), err) == ExecStep(old(State()), faults, q)
    {
      if done {
        return Some(ErrTxDone);
      }
      err := faults.exec(|log|, q);
      log := log + [Exec(q)];
    }

    method Rollback() returns (err: Option<DbError>)
      modifies this
      ensures (State(), err) == RollbackStep(old(State()), faults)
    {
      if done {
        return Some(ErrTxDone);
      }
      done, log := true, log + [TxOp.Rollback];
      err := faults.rollback;
    }

    method Commit() returns (err: Option<DbError>)
      modifies this
      ensures (State(), err) == CommitStep(old(State()), faults)
    {
      if done {
        return Some(ErrTxDone);
      }
      done, log := true, log + [TxOp.Commit];
      err := faults.commit;
    }
  }

  class TxRunner {
    const tx: Tx
    var builders: seq<QueryBuilder>

    /** `NewTxRunner`'s successful path: a fresh transaction and no builders. */
    constructor (tx: Tx)
      ensures this.tx == tx && builders == []
    {
      this.tx := tx;
      builders := [];
    }

    /** `AddQueryBuilder`: builders run in the order they were added. */
    method AddQueryBuilder(b: QueryBuilder) returns (r: TxRunner)
      modifies this
      ensures r == this && builders == old(builders) + [b]
    {
      builders := builders + [b];
      r := this;
    }

    method Execute() returns (err: Option<DbError>)
      modifies tx
      ensures (tx.State(), err) == ExecutePlan(builders, old(tx.State()), tx.faults)
    {
      var queries: seq<Query> := [];
      var i := 0;
      while i < |builders|
        invariant 0 <= i <= |builders|
        invariant tx.State() == old(tx.State())
        invariant BuildAll(builders) == Prepend(queries, BuildAll(builders[i..]))
      {
        assert builders[i..][1..] == builders[i + 1..];
        match builders[i]
        case FailsToBuild(e) =>
          var rollbackErr := tx.Rollback();
          if rollbackErr.Some? {
            return Some(Wrap(e, rollbackErr.value.Error()));
          }
          return Some(e);
        case Builds(q) =>
          PrependTwice(queries, q, BuildAll(builders[i + 1..]));
          queries := queries + [q];
        i := i + 1;
      }
      assert builders[i..] == [];
      assert queries + [] == queries;
      var j := 0;
      while j < |queries|
        invariant 0 <= j <= |queries|
        invariant ExecutePlan(builders, old(tx.State()), tx.faults) == ExecAll(queries[j..], tx.State(), tx.faults)
      {
        assert queries[j..][1..] == queries[j + 1..];
        var execErr := tx.ExecContext(queries[j]);
        if execErr.Some? {
          var rollbackErr := tx.Rollback();
          if rollbackErr.Some? {
            return Some(Wrap(execErr.value, rollbackErr.value.Error()));
          }
          return execErr;
        }
        j := j + 1;
      }
      err := tx.Commit();
    }
  }

  /** `NewTxRunner`: a failing `BeginTx` yields no runner and its error. */
  method NewTxRunner(beginErr: Option<DbError>, faults: Faults) returns (runner: Option<TxRunner>, err: Option<DbError>)
    ensures beginErr.Some? ==> runner.None? && err == beginErr
    ensures beginErr.None? ==>
              err.None? && runner.Some? && fresh(runner.value) && fresh(runner.value.tx)
              && runner.value.builders == [] && runner.value.tx.State() == TxState(false, [])
              && runner.value.tx.faults == faults
  {
    if beginErr.Some? {
      return None, beginErr;
    }
    var tx := new Tx(faults);
    var r := new TxRunner(tx);
    return Some(r), None;
  }

  function ExecOps(qs: seq<Query>): (ops: seq<TxOp>)
    ensures |ops| == |qs|
    ensures Commit !in ops && Rollback !in ops
  {
    if |qs| == 0 then [] else [Exec(qs[0])] + ExecOps(qs[1..])
  }

  /**
   * Index of the first query the database rejects when they are sent from
   * log position `at` on, or `|qs|` when it rejects none.
   */
  function FirstRejected(qs: seq<Query>, f: Faults, at: nat): (k: nat)
    ensures k <= |qs|
    ensures forall i :: 0 <= i < k ==> f.exec(at + i, qs[i]).None?
    ensures k < |qs| ==> f.exec(at + k, qs[k]).Some?
  {
    if |qs| == 0 then 0 else if f.exec(at, qs[0]).Some? then 0 else 1 + FirstRejected(qs[1..], f, at + 1)
  }

  function ErrorAfterRollback(err: DbError, f: Faults): DbError
  {
    if f.rollback.Some? then Wrap(err, f.rollback.value.Error()) else err
  }

  /** On an open transaction with no statement rejected, every query is sent in order and then one commit. */
  lemma {:induction false} ExecAllCommits(qs: seq<Query>, s: TxState, f: Faults)
    requires !s.done && FirstRejected(qs, f, |s.log|) == |qs|
    ensures ExecAll(qs, s, f) == (TxState(true, s.log + ExecOps(qs) + [Commit]), f.commit)
  {
    if |qs| == 0 {
      assert s.log + ExecOps(qs) == s.log;
    } else {
      var s1 := s.(log := s.log + [Exec(qs[0])]);
      assert f.exec(|s.log| + 0, qs[0]).None?;
      assert |s1.log| == |s.log| + 1;
      assert FirstRejected(qs[1..], f, |s1.log|) == |qs| - 1;
      assert ExecAll(qs, s, f) == ExecAll(qs[1..], s1, f);
      ExecAllCommits(qs[1..], s1, f);
      assert s1.log + ExecOps(qs[1..]) == s.log + ExecOps(qs);
    }
  }

  /**
   * On an open transaction the queries are sent in order up to and including
   * the first rejected one, then one rollback carrying the rejection (wrapped
   * if the rollback failed).
   */
  lemma {:induction false} ExecAllRollsBack(qs: seq<Query>, s: TxState, f: Faults)
    requires !s.done && FirstRejected(qs, f, |s.log|) < |qs|
    ensures var k := FirstRejected(qs, f, |s.log|);
            ExecAll(qs, s, f) == (TxState(true, s.log + ExecOps(qs[..k + 1]) + [Rollback]),
                                  Some(ErrorAfterRollback(f.exec(|s.log| + k, qs[k]).value, f)))
  {
    var s1 := s.(log := s.log + [Exec(qs[0])]);
    if f.exec(|s.log|, qs[0]).None? {
      var rest := qs[1..];
      ExecAllRollsBack(rest, s1, f);
      var k := FirstRejected(rest, f, |s1.log|);
      assert FirstRejected(qs, f, |s.log|) == k + 1;
      assert |s1.log| + k == |s.log| + (k + 1);
      assert ExecAll(qs, s, f) == ExecAll(rest, s1, f);
      assert rest[k] == qs[k + 1];
      var prefix := qs[..k + 2];
      assert prefix[0] == qs[0] && prefix[1..] == rest[..k + 1];
      assert ExecOps(prefix) == [Exec(qs[0])] + ExecOps(rest[..k + 1]);
      assert s1.log + ExecOps(rest[..k + 1]) == s.log + ExecOps(prefix);
    } else {
      assert ExecOps(qs[..1]) == [Exec(qs[0])];
    }
  }

  /** All builders build exactly when `BuildAll` succeeds, and then it yields their queries in order. */
  lemma {:induction false} BuildAllQueries(bs: seq<QueryBuilder>)
    ensures BuildAll(bs).AllBuilt? <==> forall i :: 0 <= i < |bs| ==> bs[i].Builds?
    ensures BuildAll(bs).AllBuilt? ==>
      |BuildAll(bs).queries| == |bs| && forall i :: 0 <= i < |bs| ==> BuildAll(bs).queries[i] == bs[i].query
  {
    if |bs| > 0 {
      BuildAllQueries(bs[1..]);
      if bs[0].Builds? {
        assert forall i :: 1 <= i < |bs| ==> bs[i] == bs[1..][i - 1];
      }
    }
  }

  /** A builder failure rolls back before any statement reaches the database. */
  lemma NoStatementAfterBuildFailure(bs: seq<QueryBuilder>, s: TxState, f: Faults)
    requires !s.done && BuildAll(bs).BuildError?
    ensures var (t, err) := ExecutePlan(bs, s, f);
      t == TxState(true, s.log + [Rollback]) && err == Some(ErrorAfterRollback(BuildAll(bs).err, f))
  {
  }

  /** A transaction that commits had every query built and none rejected. */
  lemma CommitOnlyWithoutFailure(bs: seq<QueryBuilder>, s: TxState, f: Faults)
    requires !s.done && Commit !in s.log
    requires Commit in ExecutePlan(bs, s, f).0.log
    ensures BuildAll(bs).AllBuilt? && FirstRejected(BuildAll(bs).queries, f, |s.log|) == |BuildAll(bs).queries|
  {
    if BuildAll(bs).BuildError? {
      assert false;
    }
    var qs := BuildAll(bs).queries;
    if FirstRejected(qs, f, |s.log|) < |qs| {
      ExecAllRollsBack(qs, s, f);
      assert false;
    }
  }

  /** A committed transaction carried out every builder's statement, in order, with nothing rejected. */
  lemma CommitMeansEverythingRan(bs: seq<QueryBuilder>, s: TxState, f: Faults)
    requires !s.done && Commit !in s.log
    requires Commit in ExecutePlan(bs, s, f).0.log
    ensures forall i :: 0 <= i < |bs| ==> bs[i].Builds? && f.exec(|s.log| + i, bs[i].query).None?
    ensures ExecutePlan(bs, s, f).0.log == s.log + ExecOps(BuildAll(bs).queries) + [Commit]
  {
    CommitOnlyWithoutFailure(bs, s, f);
    BuildAllQueries(bs);
    ExecAllCommits(BuildAll(bs).queries, s, f);
  }

  /** Once the transaction is over, running again changes nothing and fails. */
  lemma {:induction false} FinishedTransactionRefusesExecute(bs: seq<QueryBuilder>, s: TxState, f: Faults)
    requires s.done
    ensures ExecutePlan(bs, s, f).0 == s && ExecutePlan(bs, s, f).1.Some?
  {
    match BuildAll(bs)
    case BuildError(e) =>
    case AllBuilt(qs) =>
      if |qs| > 0 {
        assert ExecStep(s, f, qs[0]) == (s, Some(ErrTxDone));
      }
  }
}
