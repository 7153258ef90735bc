/** mongotools/transaction.go: the lifetime of a multi-statement
    transaction, the `live` flag stepped by Begin, Commit, Rollback and
    Close. Whether the server is TokuMX (the IsTokuMX probe of
    mongotools/utils.go) and the server's reply to each command are
    parameters. */
module Transaction {
  import opened Runtime

  /** Transaction: whether a begun transaction is still open. */
  datatype Transaction = Transaction(live: bool)

  /** The commands a Transaction sends; a begin carries the isolation
      argument when one was given. */
  datatype Command = BeginTransaction(isolation: seq<seq<byte>>) | CommitTransaction | RollbackTransaction

  /** The server's reply to a command. */
  datatype Reply = Ack | Refused(err: string)

  /** What a call returns: the transaction afterwards, the error it
      returned (empty for nil), and the commands it sent. */
  datatype Step = Step(txn: Transaction, err: string, sent: seq<Command>)

  /** The isolation levels Begin accepts. */
  predicate Isolation(s: seq<byte>) {
    s == "serializable" || s == "mvcc" || s == "readUncommitted"
  }

  /** The isolation arguments Begin rejects: exactly one, and not a known
      level. Zero or several arguments are ignored. */
  predicate BadIsolation(isos: seq<seq<byte>>) {
    |isos| == 1 && !Isolation(isos[0])
  }

  /** Begin: a no-op on MongoDB; otherwise a beginTransaction command, with
      the isolation level when exactly one valid one was given. */
  function Begin(t: Transaction, isTokuMX: bool, isos: seq<seq<byte>>, reply: Reply): (s: Step)
    ensures !isTokuMX ==> s.txn == t && s.err == "" && s.sent == []
    ensures isTokuMX && BadIsolation(isos) ==> s.txn == t && s.err != "" && s.sent == []
    ensures isTokuMX && !BadIsolation(isos) ==>
      && s.sent == [BeginTransaction(if |isos| == 1 then isos else [])]
      && (s.err == "" <==> reply.Ack?)
    ensures s.txn.live <==> t.live || (isTokuMX && !BadIsolation(isos) && reply.Ack?)
  {
    if !isTokuMX then Step(t, "", [])
    else if BadIsolation(isos) then Step(t, "invalid isolation type", [])
    else
      var cmd := BeginTransaction(if |isos| == 1 then isos else []);
      match reply
      case Ack => Step(Transaction(true), "", [cmd])
      case Refused(err) => Step(t, err + ErrorSuffix(err), [cmd])
  }

  /** An error value is never nil, even when the server's message is
      empty. */
  function ErrorSuffix(err: string): (x: string)
    ensures |err + x| > 0
  {
    if err == "" then "error" else ""
  }

  /** Commit: a commitTransaction command; live is cleared only when the
      server accepts it. */
  function Commit(t: Transaction, reply: Reply): (s: Step)
    ensures s.sent == [CommitTransaction]
    ensures reply.Ack? ==> !s.txn.live && s.err == ""
    ensures reply.Refused? ==> s.txn == t && s.err != ""
  {
    End(t, CommitTransaction, reply)
  }

  /** Rollback: a rollbackTransaction command; live is cleared only when
      the server accepts it. */
  function Rollback(t: Transaction, reply: Reply): (s: Step)
    ensures s.sent == [RollbackTransaction]
    ensures reply.Ack? ==> !s.txn.live && s.err == ""
    ensures reply.Refused? ==> s.txn == t && s.err != ""
  {
    End(t, RollbackTransaction, reply)
  }

  function End(t: Transaction, cmd: Command, reply: Reply): Step {
    match reply
    case Ack => Step(Transaction(false), "", [cmd])
    case Refused(err) => Step(t, err + ErrorSuffix(err), [cmd])
  }

  /** Close: rolls back a live transaction (a refused rollback ends the
      program) and does nothing otherwise. */
  function Close(t: Transaction, reply: Reply): (r: Outcome<Step>)
    ensures r.Fatal? <==> t.live && reply.Refused?
    ensures !r.Panic?
    ensures r.Ok? ==> !r.value.txn.live && r.value.err == ""
    ensures r.Ok? ==> (r.value.sent == [RollbackTransaction] <==> t.live)
    ensures r.Ok? ==> (r.value.sent == [] <==> !t.live)
  {
    if t.live then
      var s := Rollback(t, reply);
      if s.err != "" then Fatal(s.err) else Ok(Step(Transaction(false), "", s.sent))
    else Ok(Step(t, "", []))
  }

  /** Close is idempotent: after a Close that returned, a second one sends
      nothing and changes nothing, whatever the server would reply. */
  lemma CloseIdempotent(t: Transaction, first: Reply, second: Reply)
    requires Close(t, first).Ok?
    ensures var s := Close(t, first).value;
      Close(s.txn, second) == Ok(Step(s.txn, "", []))
  {
  }

  // ---------------------------------------------------------------------
  // Histories

  /** A call on a Transaction, with the reply its command (if any) gets. */
  datatype Call = BeginCall(isos: seq<seq<byte>>, reply: Reply) | CommitCall(reply: Reply) | RollbackCall(reply: Reply) | CloseCall(reply: Reply)

  /** One call; a Close whose rollback is refused is fatal. */
  function Apply(t: Transaction, isTokuMX: bool, c: Call): (r: Outcome<Step>)
    ensures !r.Panic?
    ensures r.Fatal? <==> c.CloseCall? && t.live && c.reply.Refused?
  {
    match c
    case BeginCall(isos, reply) => Ok(Begin(t, isTokuMX, isos, reply))
    case CommitCall(reply) => Ok(Commit(t, reply))
    case RollbackCall(reply) => Ok(Rollback(t, reply))
    case CloseCall(reply) => Close(t, reply)
  }

  /** A sequence of calls from t: the transaction afterwards and every
      command sent, or the fatal error that ended the program. */
  function Replay(t: Transaction, isTokuMX: bool, calls: seq<Call>): (r: Outcome<(Transaction, seq<Command>)>)
    ensures !r.Panic?
  {
    if |calls| == 0 then Ok((t, []))
    else
      var before :- Replay(t, isTokuMX, calls[..|calls| - 1]);
      var s :- Apply(before.0, isTokuMX, calls[|calls| - 1]);
      Ok((s.txn, before.1 + s.sent))
  }

  /** The call opens a transaction: a Begin the server accepted on TokuMX. */
  predicate Opens(isTokuMX: bool, c: Call) {
    c.BeginCall? && isTokuMX && !BadIsolation(c.isos) && c.reply.Ack?
  }

  /** The call ends any transaction: an accepted Commit or Rollback, or a
      Close that returned. */
  predicate Shuts(c: Call) {
    ((c.CommitCall? || c.RollbackCall?) && c.reply.Ack?) || c.CloseCall?
  }

  /** After a history the transaction is live exactly when some call
      opened it and no later call shut it, or it was live at the start and
      no call shut it. */
  predicate LiveAfter(t: Transaction, isTokuMX: bool, calls: seq<Call>) {
    || (exists k | 0 <= k < |calls| :: Opens(isTokuMX, calls[k]) && forall m | k < m < |calls| :: !Shuts(calls[m]))
    || (t.live && forall m | 0 <= m < |calls| :: !Shuts(calls[m]))
  }

  /** How LiveAfter moves with one more call: an opening call makes it
      true, a shutting call false, any other call leaves it as it was. */
  lemma LiveAfterStep(t: Transaction, isTokuMX: bool, calls: seq<Call>)
    requires |calls| > 0
    ensures var c := calls[|calls| - 1];
      && (Opens(isTokuMX, c) ==> LiveAfter(t, isTokuMX, calls))
      && (Shuts(c) ==> !LiveAfter(t, isTokuMX, calls))
      && (!Opens(isTokuMX, c) && !Shuts(c) ==>
            (LiveAfter(t, isTokuMX, calls) <==> LiveAfter(t, isTokuMX, calls[..|calls| - 1])))
  {
    var n := |calls| - 1;
    var prefix := calls[..n];
    var c := calls[n];
    assert forall m | 0 <= m < n :: prefix[m] == calls[m];
    if Opens(isTokuMX, c) {
      assert Opens(isTokuMX, calls[n]);
    }
    if !Opens(isTokuMX, c) && !Shuts(c) {
      if LiveAfter(t, isTokuMX, calls) {
        if k :| 0 <= k < |calls| && Opens(isTokuMX, calls[k]) && forall m | k < m < |calls| :: !Shuts(calls[m]) {
          assert Opens(isTokuMX, prefix[k]);
        }
      }
      if LiveAfter(t, isTokuMX, prefix) {
        if k :| 0 <= k < n && Opens(isTokuMX, prefix[k]) && forall m | k < m < n :: !Shuts(prefix[m]) {
          assert Opens(isTokuMX, calls[k]);
        }
      }
    }
  }

  /** Replaying a history agrees with LiveAfter. */
  lemma {:induction false} ReplayLive(t: Transaction, isTokuMX: bool, calls: seq<Call>)
    requires Replay(t, isTokuMX, calls).Ok?
    ensures Replay(t, isTokuMX, calls).value.0.live <==> LiveAfter(t, isTokuMX, calls)
  {
    if |calls| > 0 {
      var n := |calls| - 1;
      ReplayLive(t, isTokuMX, calls[..n]);
      LiveAfterStep(t, isTokuMX, calls);
      var before := Replay(t, isTokuMX, calls[..n]).value;
      var s := Apply(before.0, isTokuMX, calls[n]).value;
      assert Replay(t, isTokuMX, calls).value.0 == s.txn;
    }
  }

  /** On MongoDB a transaction never comes alive: Begin sends nothing, so
      only Commit and Rollback reach the server, and every Close returns
      without a command. */
  lemma {:induction false} MongoNeverLive(isTokuMX: bool, calls: seq<Call>)
    requires !isTokuMX
    ensures Replay(Transaction(false), isTokuMX, calls).Ok?
    ensures !Replay(Transaction(false), isTokuMX, calls).value.0.live
    ensures forall k | 0 <= k < |Replay(Transaction(false), isTokuMX, calls).value.1| ::
      !Replay(Transaction(false), isTokuMX, calls).value.1[k].BeginTransaction?
  {
    if |calls| > 0 {
      var n := |calls| - 1;
      MongoNeverLive(isTokuMX, calls[..n]);
      var before := Replay(Transaction(false), isTokuMX, calls[..n]).value;
      var s := Apply(before.0, isTokuMX, calls[n]).value;
      assert Replay(Transaction(false), isTokuMX, calls).value == (s.txn, before.1 + s.sent);
      forall k | 0 <= k < |before.1 + s.sent|
        ensures !(before.1 + s.sent)[k].BeginTransaction?
      {
        if k < |before.1| {
          assert (before.1 + s.sent)[k] == before.1[k];
        }
      }
    }
  }
}
