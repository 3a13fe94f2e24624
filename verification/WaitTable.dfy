/** The table of waiting clients in its own form: entries are moved out one by one while the lock is held. */
module WaitTable {
  import opened Types
  import opened Ordered
  import opened Node

  class Table {
    var workers: set<Id>
    var pending: map<Id, Waiter>
    var settled: map<Id, Settlement>
    var broken: bool

    /** The process with this table in place of its own. */
    ghost function In(n: Node): Node
      reads this
    {
      n.(workers := workers, pending := pending, settled := settled, broken := broken)
    }

    constructor ()
      ensures workers == {} && pending == map[] && settled == map[] && !broken
    {
      workers, pending, settled, broken := {}, map[], map[], false;
    }

    /** Give a promise its value; a promise that has one already is broken. */
    method SetValue(d: Id, client: nat, reply: ClientReplyMsg)
      modifies this`settled, this`broken
      ensures settled == old(settled)[d := Settlement(client, reply)]
      ensures broken == (old(broken) || d in old(settled))
    {
      broken := broken || d in settled;
      settled := settled[d := Settlement(client, reply)];
    }

    method ResolveDispatch(d: Id, reply: ClientReplyMsg)
      modifies this
      ensures forall n :: In(n) == Resolve(old(In(n)), d, reply)
    {
      if d !in pending {
        return;
      }
      var client := pending[d].client;
      pending := pending - {d};
      SetValue(d, client, reply);
    }

    /** All entries of the incarnation are taken out first; their promises are set afterwards. */
    method ResolveDisconnect(boot: Id)
      modifies this
      ensures forall n :: In(n) == ResolveAll(old(In(n)), boot)
    {
      hide ResolveAll;
      var before := pending;
      var gone := TakeOut(boot);
      workers := workers - {boot};
      SetAll(before, gone);
      forall n ensures In(n) == ResolveAll(old(In(n)), boot) {
        ResolvedAll(old(In(n)), boot, In(n), gone);
      }
    }

    method TakeOut(boot: Id) returns (gone: set<Id>)
      modifies this`pending
      ensures forall d :: d in gone <==> d in old(pending) && old(pending)[d].boot == boot
      ensures pending == old(pending) - gone
    {
      var before := pending;
      var todo := pending.Keys;
      gone := {};
      while todo != {}
        invariant todo <= before.Keys && pending == before - gone
        invariant forall d :: d in gone <==> d in before && d !in todo && before[d].boot == boot
        decreases |todo|
      {
        var d := Least(todo);
        if before[d].boot == boot {
          gone := gone + {d};
          pending := pending - {d};
        }
        todo := todo - {d};
      }
    }

    method SetAll(before: map<Id, Waiter>, gone: set<Id>)
      requires gone <= before.Keys
      modifies this`settled, this`broken
      ensures forall d :: d in settled <==> d in old(settled) || d in gone
      ensures forall d | d in gone :: settled[d] == Settlement(before[d].client, Lost())
      ensures forall d | d in old(settled) && d !in gone :: settled[d] == old(settled)[d]
      ensures broken <==> old(broken) || exists d :: d in gone && d in old(settled)
    {
      hide Lost;
      var todo := gone;
      while todo != {}
        invariant todo <= gone
        invariant forall d :: d in settled <==> d in old(settled) || (d in gone && d !in todo)
        invariant forall d | d in gone && d !in todo :: settled[d] == Settlement(before[d].client, Lost())
        invariant forall d | d in old(settled) && (d !in gone || d in todo) :: settled[d] == old(settled)[d]
        invariant broken <==> old(broken) || exists d :: d in gone && d !in todo && d in old(settled)
        decreases |todo|
      {
        var d := Least(todo);
        SetValue(d, before[d].client, Lost());
        todo := todo - {d};
      }
    }
  }

  /** The table after a disconnection is the one the process model describes. */
  lemma ResolvedAll(n: Node, boot: Id, m: Node, gone: set<Id>)
    requires forall d :: d in gone <==> d in n.pending && n.pending[d].boot == boot
    requires m == n.(workers := n.workers - {boot}, pending := n.pending - gone, settled := m.settled,
                     broken := m.broken)
    requires forall d :: d in m.settled <==> d in n.settled || d in gone
    requires forall d | d in gone :: m.settled[d] == Settlement(n.pending[d].client, Lost())
    requires forall d | d in n.settled && d !in gone :: m.settled[d] == n.settled[d]
    requires m.broken <==> n.broken || exists d :: d in gone && d in n.settled
    ensures m == ResolveAll(n, boot)
  {
    hide Lost;
    assert gone == WaitingOn(n, boot);
    if d :| d in gone && d in n.settled {
      assert d in gone * n.settled.Keys;
    }
    assert m.settled == n.settled + Orphaned(n.pending - (n.pending.Keys - gone));
  }
}
