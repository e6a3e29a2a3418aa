/**
 What each kind of statement does to the part of a transaction's state that does not
 depend on its request: its locks cover its writes, and its in-band count adds up.
 */
module Statements {
  import opened EventLog
  import opened Database
  import opened Protocol
  import opened Invariant
  import opened Shapes

  // A read, or a lock on rows.
  lemma Locked(db: Db, tx: Tx, pc: Pc, more: set<Key>)
    requires Guarded(db, tx) && forall k | k in more :: !k.Ticket? && !k.Fence?
    ensures Guarded(db, tx.(pc := pc, locks := tx.locks + more))
  {
  }

  lemma Stepped(db: Db, tx: Tx, pc: Pc)
    requires Guarded(db, tx)
    ensures Guarded(db, tx.(pc := pc))
  {
  }

  lemma Answered(db: Db, tx: Tx, pc: Pc, answer: Answer)
    requires Guarded(db, tx)
    ensures Guarded(db, tx.(pc := pc, answer := answer))
  {
  }

  // Back to the savepoint.
  lemma ResetGuarded(db: Db, tx: Tx, pc: Pc)
    requires Guarded(db, tx) && !tx.consumed
    ensures Guarded(db, Reset(tx, pc).tx)
  {
  }

  // A row deleted.
  lemma Removed(db: Db, held: set<Key>, tx: Tx, h: HookId, next: Pc)
    requires Guarded(db, tx) && h in db.hooks && tx.w.put == map[]
    ensures var o := Remove(db, held, tx, h, next); o.Go? ==> Guarded(db, o.tx)
  {
  }

  // A row inserted, with its claim.
  lemma Put(db: Db, tx: Tx, h: HookId, t: Token, next: Pc)
    requires Guarded(db, tx) && tx.w.put == map[]
    requires h !in Visible(db, tx.w) && !TokenHeld(Visible(db, tx.w), t)
    ensures Guarded(db, PutHook(tx, h, t, next).tx)
  {
    forall g | g in db.hooks && g !in tx.w.del
      ensures db.hooks[g] != t
    {
      assert g in Visible(db, tx.w) && Visible(db, tx.w)[g] == db.hooks[g];
    }
  }

  // A run row written.
  lemma WroteRun(db: Db, tx: Tx, r: RunId, row: RunRow, next: Pc)
    requires Guarded(db, tx)
    ensures Guarded(db, tx.(pc := next, locks := tx.locks + {Row(r)},
                            w := tx.w.(runs := tx.w.runs[r := row])))
  {
  }

  // A step row written, perhaps with the ticket of its end.
  lemma WroteStep(db: Db, tx: Tx, s: StepId, row: StepRow, keys: set<Key>, next: Pc)
    requires Guarded(db, tx)
    requires s in db.steps ==> !db.steps[s].status.Terminal()
    requires keys <= {Ticket(s)} && (keys != {} ==> tx.job.StepEnd? && tx.job.step == s)
    ensures Guarded(db, WriteStep(tx, s, row, keys, next).tx)
  {
  }

  // A decision recorded.
  lemma Decided(db: Db, tx: Tx, r: RunId, d: Decision, next: Pc, answer: Answer)
    requires Guarded(db, tx)
    ensures Guarded(db, tx.(pc := next, answer := answer, locks := tx.locks + {Admission(r)},
                            w := tx.w.(decide := tx.w.decide[r := d])))
  {
  }

  // Old decisions deleted.
  lemma Forgot(db: Db, tx: Tx, batch: set<RunId>, next: Pc)
    requires Guarded(db, tx)
    ensures Guarded(db, tx.(pc := next, locks := tx.locks + (set q | q in batch :: Admission(q)),
                            w := tx.w.(forget := tx.w.forget + batch)))
  {
  }

  // A slot taken.
  lemma SlottedCovered(db: Db, tx: Tx, r: RunId, ev: Event, next: Pc)
    requires Covered(db, tx.w, tx.locks)
    requires ev.StepEnded? ==> Ticket(ev.step) in tx.locks
    ensures var tx' := Slotted(tx, r, ev, next); Covered(db, tx'.w, tx'.locks)
  {
    var tx' := Slotted(tx, r, ev, next);
    var m := SlottedWrites(tx, r, ev, next);
    forall q, i | q in tx'.w.log && 0 <= i < |tx'.w.log[q]| && tx'.w.log[q][i].ev.StepEnded?
      ensures Ticket(tx'.w.log[q][i].ev.step) in tx'.locks
    {
      if q == r && i < |Unsaved(tx.w, r)| {
        assert tx'.w.log[r][i] == tx.w.log[r][i];
      } else if q != r {
        assert tx'.w.log[q] == tx.w.log[q];
      }
    }
  }

  lemma SlottedTicket(db: Db, tx: Tx, r: RunId, ev: Event, next: Pc)
    requires TicketOk(db, tx) && Timely(db, tx)
    ensures TicketOk(db, Slotted(tx, r, ev, next)) && Timely(db, Slotted(tx, r, ev, next))
  {
    var m := SlottedWrites(tx, r, ev, next);
  }

  lemma AppendGuarded(db: Db, held: set<Key>, tx: Tx, r: RunId, ev: Event, next: Pc)
    requires Guarded(db, tx) && !next.Aborted?
    requires ev.StepEnded? ==> Ticket(ev.step) in tx.locks
    ensures var o := Append(db, held, tx, r, ev, next);
            o.Go? ==> Guarded(db, o.tx)
                      && (Appended(db, tx, o.tx, r, ev, next) || o.tx == tx.(pc := Aborted))
  {
    AppendDoes(db, held, tx, r, ev, next);
    AppendFence(db, held, tx, r, ev, next);
    SlottedTicket(db, tx, r, ev, next);
    SlottedCovered(db, tx, r, ev, next);
    Stepped(db, tx, Aborted);
  }

  // One event on a run that had none pending.
  lemma LoggedOnce(db: Db, tx: Tx, r: RunId, ev: Event, next: Pc)
    requires db.seqs.Keys == db.log.Keys
    requires tx.w.log == map[] && Existing(db, tx.w) && tx.w.births == []
    requires Appended(db, tx, Slotted(tx, r, ev, next), r, ev, next)
    ensures var w := Slotted(tx, r, ev, next).w;
            Upon(w, tx.w.(births := Born(ev))) && Logged(db, w, r, [ev])
  {
    var w := Slotted(tx, r, ev, next).w;
    var m := SlottedWrites(tx, r, ev, next);
    assert Unsaved(tx.w, r) == [];
    assert w.log[r] == [Entry(ev, m)];
    assert r in db.seqs.Keys;
  }
}
