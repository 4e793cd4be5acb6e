/** Who may write a projection, and what a write leaves alone. */
module ProjectionLeases {
  import opened Basics
  import opened Projection
  import opened ProjectionRuntime

  /** The token is the consumer's current live lease: same owner, same positive fence. */
  predicate Current(db: Database, token: Token) {
    && token.consumer in db.leases
    && db.leases[token.consumer].live
    && db.leases[token.consumer].owner == token.owner
    && db.leases[token.consumer].fence == token.fence
    && token.fence > 0
  }

  /** Only the holder of a consumer's live lease writes, and it always can, but for an event
      that cannot be applied; log, leases and every other consumer's cursor stay as they are. */
  lemma OnlyTheHolderWrites(db: Database, token: Token, size: nat)
    ensures ResetBy(db, token).Some? <==> Current(db, token)
    ensures Batch(db, token, size).Some? <==> Current(db, token) && Fold(db.rows, BatchEvents(db, token, size)).Ok?
    ensures ResetBy(db, token).Some? ==>
              var next := ResetBy(db, token).value;
              && next.rows == map[] && Cursor(next, token.consumer) == 0 && OthersAsTheyWere(db, next, token.consumer)
    ensures Batch(db, token, size).Some? ==> OthersAsTheyWere(db, Batch(db, token, size).value, token.consumer)
  {
    hide Fold, Passed;
  }

  ghost predicate OthersAsTheyWere(db: Database, next: Database, consumer: string) {
    && next.log == db.log && next.leases == db.leases
    && forall c :: c != consumer ==> Cursor(next, c) == Cursor(db, c)
  }

  /** The events of a batch are the next ones after the cursor, in log order, none left out. */
  lemma BatchReadsTheNextEvents(db: Database, token: Token, size: nat, i: nat)
    requires Increasing(db.log) && i < |db.log|
    ensures var events, cursor := BatchEvents(db, token, size), Cursor(db, token.consumer);
            && |events| <= size
            && (db.log[i] in events ==> db.log[i].sequence > cursor)
            && (db.log[i] in events && i > 0 && db.log[i - 1].sequence > cursor ==> db.log[i - 1] in events)
            && (db.log[i].sequence > cursor && |events| < size ==> db.log[i] in events)
  {
    var events, cursor := BatchEvents(db, token, size), Cursor(db, token.consumer);
    var k := Passed(db.log, cursor);
    PassedSplitsLog(db.log, cursor);
    hide Passed;
    var m := Min(k + size, |db.log|);
    assert forall j :: k <= j < m ==> db.log[j] == events[j - k];
    if db.log[i] in events {
      var j :| 0 <= j < |events| && events[j] == db.log[i];
      assert db.log[k + j] == db.log[i];
      assert k + j == i by { SequencesDiffer(db.log, k + j, i); }
    }
  }

  lemma SequencesDiffer(log: seq<Event>, i: nat, j: nat)
    requires Increasing(log) && i < |log| && j < |log| && log[i] == log[j]
    ensures i == j
  {
  }

  /** A lease is granted exactly when the consumer has none, when its lease has lapsed, or to
      its own holder; the fence rises with every change of hands and starts at one. */
  lemma LeasesAreGrantedExactly(db: Database, consumer: string, owner: string)
    ensures Acquire(db, consumer, owner).Some? <==>
              consumer in db.leases && db.leases[consumer].live ==> db.leases[consumer].owner == owner
    ensures Acquire(db, consumer, owner).Some? ==>
              var next := Acquire(db, consumer, owner).value;
              && next.log == db.log && next.rows == db.rows && next.cursors == db.cursors
              && next.leases.Keys == db.leases.Keys + {consumer}
              && (forall c :: c in db.leases && c != consumer ==> next.leases[c] == db.leases[c])
              && next.leases[consumer].owner == owner && next.leases[consumer].live
              && (consumer !in db.leases ==> next.leases[consumer].fence == 1)
              && (consumer in db.leases && db.leases[consumer].live ==> next.leases == db.leases)
              && (consumer in db.leases && !db.leases[consumer].live ==>
                    next.leases[consumer].fence == db.leases[consumer].fence + 1)
  {
  }
}
