/** What every interleaving of submissions, replies, receipts, retries and page reloads keeps. */
module CommandSafety {
  import opened Options
  import opened CommandModel

  predicate Issued(c: Client, t: Token) {
    match t
    case Submitted(page, serial) => page < c.page || (page == c.page && serial < c.serial)
    case Restored(page, _) => page <= c.page
  }

  ghost predicate PendingOk(c: Client) {
    && (forall id | id in c.pending ::
          && c.pending[id].saved.params.commandId == id && c.pending[id].saved in c.submitted
          && c.pending[id].token.page == c.page && Issued(c, c.pending[id].token) && c.pending[id].token !in c.settled)
    && (forall i, j | i in c.pending && j in c.pending && i != j ::
          c.pending[i].saved.operation != c.pending[j].saved.operation && c.pending[i].token != c.pending[j].token)
  }

  /** Nothing a page submitted is forgotten: it is pending or settled. */
  ghost predicate Accounted(c: Client) {
    forall s: nat | s < c.serial ::
      Submitted(c.page, s) in c.settled || exists id :: Current(c, id, Submitted(c.page, s))
  }

  ghost predicate StorageOk(c: Client) {
    c.stored == if c.scoped then Some(SavedOf(c.pending)) else None
  }

  /** A request the page gave up on that can no longer be admitted. */
  predicate Dead(r: Request) { !r.admitted && !r.listening && (r.refused || !r.sent) }

  predicate RequestOk(c: Client, r: Request) {
    && r.saved in c.submitted && Issued(c, r.token) && r.generation <= c.generation
    && (r.admitted ==> r.sent && !r.refused)
    && (r.listening ==> r.token.page == c.page && !r.refused)
    && (Current(c, IdOf(r), r.token) ==> c.pending[IdOf(r)].saved == r.saved)
    && (!r.recovery ==> r.token.Submitted?)
    && (!r.recovery && r.token in c.settled && c.settled[r.token].ByRefusal? ==> Dead(r))
  }

  ghost predicate RequestsOk(c: Client) {
    && (forall n | 0 <= n < |c.requests| :: RequestOk(c, c.requests[n]))
    && (forall n, m | 0 <= n < m < |c.requests| && !c.requests[n].recovery && !c.requests[m].recovery ::
          c.requests[n].token != c.requests[m].token)
  }

  predicate CoreErrorSeen(c: Client, n: nat, t: Token) {
    n < |c.requests| && c.requests[n].token == t && c.requests[n].admitted && !c.requests[n].listening
  }

  ghost predicate LookupsOk(c: Client) {
    forall k | 0 <= k < |c.lookups| ::
      && Issued(c, c.lookups[k].token)
      && (c.lookups[k].failure ==> exists n :: CoreErrorSeen(c, n, c.lookups[k].token))
  }

  ghost predicate SettledOk(c: Client) { forall t | t in c.settled :: Issued(c, t) }

  ghost predicate Inv(c: Client) {
    PendingOk(c) && Accounted(c) && StorageOk(c) && RequestsOk(c) && LookupsOk(c) && SettledOk(c)
  }

  /** What no later event takes back. */
  ghost predicate Extends(c: Client, d: Client) {
    && c.page <= d.page && c.submitted <= d.submitted
    && (forall t | t in c.settled :: t in d.settled && d.settled[t] == c.settled[t])
    && |c.requests| <= |d.requests|
    && (forall n | 0 <= n < |c.requests| ::
          && d.requests[n].saved == c.requests[n].saved && d.requests[n].token == c.requests[n].token
          && d.requests[n].recovery == c.requests[n].recovery
          && (c.requests[n].admitted ==> d.requests[n].admitted) && (Dead(c.requests[n]) ==> Dead(d.requests[n])))
  }

  // One event --------------------------------------------------------------------------------------

  lemma SettleKeepsInv(c: Client, id: nat, how: How)
    requires Inv(c) && id in c.pending
    requires how.ByRefusal? ==>
      forall n | 0 <= n < |c.requests| && c.requests[n].token == c.pending[id].token && !c.requests[n].recovery ::
          Dead(c.requests[n])
    ensures Inv(Settle(c, id, how)) && Extends(c, Settle(c, id, how))
  {
    var d := Settle(c, id, how);
    SettleAccounts(c, id, how);
    SettlePending(c, id, how);
    SettleExtends(c, id, how);
    SettleRequests(c, id, how);
    SameSeen(c, d);
    hide Accounted, LookupsOk, PendingOk, RequestsOk, StorageOk, Dead, Extends;
  }

  lemma SettleExtends(c: Client, id: nat, how: How)
    requires id in c.pending && c.pending[id].token !in c.settled
    ensures Extends(c, Settle(c, id, how))
  {
    hide Dead;
  }

  lemma SettleRequests(c: Client, id: nat, how: How)
    requires RequestsOk(c) && id in c.pending
    requires how.ByRefusal? ==>
      forall n | 0 <= n < |c.requests| && c.requests[n].token == c.pending[id].token && !c.requests[n].recovery ::
          Dead(c.requests[n])
    ensures RequestsOk(Settle(c, id, how))
  {
    var d := Settle(c, id, how);
    hide Dead, RequestOk;
    forall n | 0 <= n < |d.requests|
      ensures RequestOk(d, d.requests[n])
    {
      SettleRequest(c, id, how, c.requests[n]);
    }
  }

  lemma SettleRequest(c: Client, id: nat, how: How, r: Request)
    requires id in c.pending && RequestOk(c, r)
    requires how.ByRefusal? && r.token == c.pending[id].token && !r.recovery ==> Dead(r)
    ensures RequestOk(Settle(c, id, how), r)
  {
    hide Dead;
  }

  lemma SettlePending(c: Client, id: nat, how: How)
    requires PendingOk(c) && StorageOk(c) && id in c.pending
    ensures PendingOk(Settle(c, id, how)) && StorageOk(Settle(c, id, how))
  {
  }

  lemma SettleAccounts(c: Client, id: nat, how: How)
    requires Accounted(c) && id in c.pending
    ensures Accounted(Settle(c, id, how))
  {
    var d := Settle(c, id, how);
    forall s: nat | s < d.serial && Submitted(d.page, s) !in d.settled
      ensures exists i :: Current(d, i, Submitted(d.page, s))
    {
      var i :| Current(c, i, Submitted(c.page, s));
      assert Current(d, i, Submitted(c.page, s));
    }
  }

  lemma SubmitAccounts(c: Client, saved: Saved)
    requires Accounted(c) && CanSubmit(c, saved)
    ensures Accounted(DoSubmit(c, saved))
  {
    var d := DoSubmit(c, saved);
    assert Current(d, saved.params.commandId, Submitted(c.page, c.serial));
    forall s: nat | s < d.serial && Submitted(d.page, s) !in d.settled
      ensures exists id :: Current(d, id, Submitted(d.page, s))
    {
      if s < c.serial {
        var i :| Current(c, i, Submitted(c.page, s));
        assert Current(d, i, Submitted(c.page, s));
      }
    }
  }

  lemma SubmitKeepsInv(c: Client, saved: Saved)
    requires Inv(c) && CanSubmit(c, saved)
    ensures Inv(DoSubmit(c, saved)) && Extends(c, DoSubmit(c, saved))
  {
    var d := DoSubmit(c, saved);
    assert !Issued(c, Submitted(c.page, c.serial));
    SubmitAccounts(c, saved);
    SubmitPending(c, saved);
    SameSeen(c, d);
    hide Accounted, LookupsOk, Dead, RequestOk, PendingOk, StorageOk;
    forall n | 0 <= n < |c.requests|
      ensures RequestOk(d, c.requests[n]) && c.requests[n].token != Submitted(c.page, c.serial)
    {
      SubmitRequest(c, saved, c.requests[n]);
    }
    NewRequestOk(c, saved);
  }

  lemma SubmitPending(c: Client, saved: Saved)
    requires PendingOk(c) && StorageOk(c) && SettledOk(c) && CanSubmit(c, saved)
    ensures PendingOk(DoSubmit(c, saved)) && StorageOk(DoSubmit(c, saved))
  {
    assert !Issued(c, Submitted(c.page, c.serial));
    assert forall id | id in c.pending :: Issued(c, c.pending[id].token);
  }

  lemma SubmitRequest(c: Client, saved: Saved, r: Request)
    requires CanSubmit(c, saved) && RequestOk(c, r)
    ensures RequestOk(DoSubmit(c, saved), r) && r.token != Submitted(c.page, c.serial)
  {
    hide Dead;
  }

  lemma NewRequestOk(c: Client, saved: Saved)
    requires CanSubmit(c, saved) && SettledOk(c)
    ensures RequestOk(DoSubmit(c, saved), DoSubmit(c, saved).requests[|c.requests|])
  {
    assert !Issued(c, Submitted(c.page, c.serial));
  }

  lemma SameSeen(c: Client, d: Client)
    requires LookupsOk(c) && d.lookups == c.lookups && d.page == c.page && c.serial <= d.serial
    requires |c.requests| <= |d.requests|
    requires forall n | 0 <= n < |c.requests| ::
      && d.requests[n].token == c.requests[n].token && (c.requests[n].admitted ==> d.requests[n].admitted)
      && (!c.requests[n].listening ==> !d.requests[n].listening)
    ensures LookupsOk(d)
  {
    forall k | 0 <= k < |d.lookups| && d.lookups[k].failure
      ensures exists n :: CoreErrorSeen(d, n, d.lookups[k].token)
    {
      var n :| CoreErrorSeen(c, n, c.lookups[k].token);
      assert CoreErrorSeen(d, n, c.lookups[k].token);
    }
  }

  lemma SameAccount(c: Client, d: Client)
    requires Accounted(c) && d.page == c.page && d.serial == c.serial && d.pending == c.pending
               && d.settled == c.settled
    ensures Accounted(d)
  {
    forall s: nat | s < d.serial && Submitted(d.page, s) !in d.settled
      ensures exists id :: Current(d, id, Submitted(d.page, s))
    {
      var i :| Current(c, i, Submitted(c.page, s));
      assert Current(d, i, Submitted(c.page, s));
    }
  }

  /** One request moves on: sent, admitted or answered. */
  lemma RequestKeepsInv(c: Client, n: nat, r: Request)
    requires Inv(c) && n < |c.requests|
    requires r == c.requests[n].(sent := r.sent, admitted := r.admitted, refused := r.refused, listening := r.listening)
    requires (c.requests[n].admitted ==> r.admitted) && (!c.requests[n].listening ==> !r.listening)
    requires (r.admitted ==> r.sent && !r.refused) && (r.listening ==> !r.refused)
    requires Dead(c.requests[n]) ==> Dead(r)
    ensures var d := c.(requests := c.requests[n := r]); Inv(d) && Extends(c, d)
  {
    var d := c.(requests := c.requests[n := r]);
    SameSeen(c, d);
    SameAccount(c, d);
    hide LookupsOk, Accounted, CoreErrorSeen;
    assert RequestOk(c, c.requests[n]);
    assert RequestOk(d, r);
  }

  lemma AnswerKeepsInv(c: Client, n: nat, reply: Reply)
    requires Inv(c) && CanAnswer(c, n, reply)
    ensures Inv(DoAnswer(c, n, reply)) && Extends(c, DoAnswer(c, n, reply))
  {
    var r := c.requests[n];
    assert RequestOk(c, r);
    RequestKeepsInv(c, n, Replied(c, n, reply).requests[n]);
    ClosedIsDead(c, n, reply);
    AnsweredKeepsInv(c, n, reply);
  }

  lemma ClosedIsDead(c: Client, n: nat, reply: Reply)
    requires CanAnswer(c, n, reply) && (c.requests[n].admitted ==> c.requests[n].sent)
    ensures Drops(c.requests[n], reply) ==> Dead(Replied(c, n, reply).requests[n])
  {
  }

  lemma AnsweredKeepsInv(c: Client, n: nat, reply: Reply)
    requires Inv(c) && CanAnswer(c, n, reply) && Inv(Replied(c, n, reply)) && Extends(c, Replied(c, n, reply))
    requires Drops(c.requests[n], reply) ==> Dead(Replied(c, n, reply).requests[n])
    ensures Inv(DoAnswer(c, n, reply)) && Extends(c, DoAnswer(c, n, reply))
  {
    var r, c1 := c.requests[n], Replied(c, n, reply);
    var id := IdOf(r);
    assert RequestsOk(c1);
    assert RequestOk(c1, c1.requests[n]);
    assert reply.CoreErrorReply? ==> CoreErrorSeen(c1, n, r.token);
    assert c1.requests[n].token == r.token;
    hide Inv, Extends, Dead, Settle, RequestOk, Replied, Possible;
    if reply.ResultReply? {
      if Current(c1, id, r.token) {
        SettleKeepsInv(c1, id, ByResult);
        ExtendsComposes(c, c1, Settle(c1, id, ByResult));
      }
    } else if Drops(r, reply) {
      if Current(c1, id, r.token) {
        SettleKeepsInv(c1, id, ByRefusal);
        ExtendsComposes(c, c1, Settle(c1, id, ByRefusal));
      }
    } else if reply.CoreErrorReply? {
      MoreLookups(c1, Lookup(id, r.token, true, c1.generation), n);
      ExtendsComposes(c, c1, DoAnswer(c, n, reply));
    } else {
      SameButRecovery(c1, RequireRecovery(c1));
      ExtendsComposes(c, c1, RequireRecovery(c1));
    }
  }

  lemma MoreLookups(c: Client, l: Lookup, n: nat)
    requires Inv(c) && Issued(c, l.token) && (l.failure ==> CoreErrorSeen(c, n, l.token))
    ensures var d := c.(lookups := c.lookups + [l]); Inv(d) && Extends(c, d)
  {
    var d := c.(lookups := c.lookups + [l]);
    SameAccount(c, d);
    forall k | 0 <= k < |d.lookups| && d.lookups[k].failure
      ensures exists m :: CoreErrorSeen(d, m, d.lookups[k].token)
    {
      if k < |c.lookups| {
        var m :| CoreErrorSeen(c, m, c.lookups[k].token);
        assert CoreErrorSeen(d, m, c.lookups[k].token);
      } else {
        assert CoreErrorSeen(d, n, l.token);
      }
    }
    hide Accounted, CoreErrorSeen;
  }

  lemma SameButRecovery(c: Client, d: Client)
    requires Inv(c) && d == c.(needsRecovery := d.needsRecovery, authenticated := d.authenticated, offline := d.offline)
    ensures Inv(d) && Extends(c, d)
  {
    SameAccount(c, d);
    SameSeen(c, d);
    hide Accounted, LookupsOk;
  }

  lemma ReceiveKeepsInv(c: Client, k: nat, receipt: Receipt)
    requires Inv(c) && k < |c.lookups|
    ensures Inv(DoReceive(c, k, receipt)) && Extends(c, DoReceive(c, k, receipt))
  {
    var l := c.lookups[k];
    var c1 := c.(lookups := c.lookups[..k] + c.lookups[k + 1..]);
    FewerLookups(c, k);
    hide Inv, Extends, Settle;
    match receipt
    case RecordedReceipt =>
      if Current(c1, l.id, l.token) {
        SettleKeepsInv(c1, l.id, ByReceipt);
        ExtendsComposes(c, c1, Settle(c1, l.id, ByReceipt));
      }
    case UnknownReceipt =>
      if l.failure && Current(c1, l.id, l.token) {
        SettleKeepsInv(c1, l.id, ByCoreError);
        ExtendsComposes(c, c1, Settle(c1, l.id, ByCoreError));
      }
    case NoReceipt => SameButRecovery(c1, RequireRecovery(c1)); ExtendsComposes(c, c1, RequireRecovery(c1));
  }

  lemma FewerLookups(c: Client, k: nat)
    requires Inv(c) && k < |c.lookups|
    ensures var d := c.(lookups := c.lookups[..k] + c.lookups[k + 1..]); Inv(d) && Extends(c, d)
  {
    var d := c.(lookups := c.lookups[..k] + c.lookups[k + 1..]);
    SameAccount(c, d);
    forall j | 0 <= j < |d.lookups|
      ensures Issued(d, d.lookups[j].token)
                && (d.lookups[j].failure ==> exists n :: CoreErrorSeen(d, n, d.lookups[j].token))
    {
      var i := if j < k then j else j + 1;
      assert d.lookups[j] == c.lookups[i];
      if c.lookups[i].failure {
        var n :| CoreErrorSeen(c, n, c.lookups[i].token);
        assert CoreErrorSeen(d, n, c.lookups[i].token);
      }
    }
    hide Accounted, CoreErrorSeen;
  }

  lemma RetryKeepsInv(c: Client, id: nat)
    requires Inv(c) && id in c.pending
    ensures Inv(DoRetry(c, id)) && Extends(c, DoRetry(c, id))
  {
    var d := DoRetry(c, id);
    SameAccount(c, d);
    SameSeen(c, d);
    hide Accounted, LookupsOk;
  }

  lemma ReloadKeepsInv(c: Client, fork: bool)
    requires Inv(c)
    ensures Inv(DoReload(c, fork)) && Extends(c, DoReload(c, fork))
  {
    var d := DoReload(c, fork);
    assert LookupsOk(d) && Accounted(d) && StorageOk(d) by {
      if d.scoped { assert SavedOf(d.pending) == c.stored.value; }
    }
    hide Accounted, LookupsOk;
  }

  lemma StepKeepsInv(c: Client, e: Event)
    requires Inv(c)
    ensures Inv(Step(c, e)) && Extends(c, Step(c, e))
  {
    match e
    case Submit(saved) => if CanSubmit(c, saved) { SubmitKeepsInv(c, saved); }
    case Send(n) => if CanSend(c, n) {
      assert RequestOk(c, c.requests[n]);
      RequestKeepsInv(c, n, c.requests[n].(sent := true));
    }
    case Admit(n) => if CanAdmit(c, n) {
      assert RequestOk(c, c.requests[n]);
      RequestKeepsInv(c, n, c.requests[n].(admitted := true));
    }
    case Answer(n, reply) => if CanAnswer(c, n, reply) { AnswerKeepsInv(c, n, reply); }
    case LookUp(id) => if CanLookUp(c, id) { MoreLookups(c, Lookup(id, c.pending[id].token, false, c.generation), 0); }
    case Receive(k, receipt) => if CanReceive(c, k, receipt) { ReceiveKeepsInv(c, k, receipt); }
    case Retry(id) => if c.authenticated && id in c.pending { RetryKeepsInv(c, id); }
    case UseCredentials => SameButRecovery(c, Step(c, e));
    case AcceptSession => PersistKeepsInv(c, Step(c, e));
    case Forget => PersistKeepsInv(c, Step(c, e));
    case SetOffline(_) => SameButRecovery(c, Step(c, e));
    case Reload(fork) => ReloadKeepsInv(c, fork);
  }

  lemma PersistKeepsInv(c: Client, d: Client)
    requires Inv(c) && (c.scoped ==> d.scoped) && c.generation <= d.generation
    requires d == Persist(c.(authenticated := d.authenticated, scoped := d.scoped, offline := d.offline,
                             generation := d.generation))
    ensures Inv(d) && Extends(c, d)
  {
    SameAccount(c, d);
    SameSeen(c, d);
    hide Accounted, LookupsOk;
  }

  lemma ExtendsComposes(c: Client, d: Client, e: Client)
    requires Extends(c, d) && Extends(d, e)
    ensures Extends(c, e)
  {
  }

  lemma {:induction false} RunKeepsInv(c: Client, events: seq<Event>)
    requires Inv(c)
    ensures Inv(RunAll(c, events)) && Extends(c, RunAll(c, events))
    decreases |events|
  {
    hide Inv, Extends, Step;
    if events != [] {
      StepKeepsInv(c, events[0]);
      RunKeepsInv(Step(c, events[0]), events[1..]);
      ExtendsComposes(c, Step(c, events[0]), RunAll(c, events));
    } else {
      assert Extends(c, c) by { SameButRecovery(c, c); }
    }
  }

  // Over whole histories ---------------------------------------------------------------------------

  ghost predicate Reachable(c: Client) {
    exists events :: c == RunAll(FRESH, events)
  }

  lemma ReachableIsGood(c: Client)
    requires Reachable(c)
    ensures Inv(c)
  {
    var events :| c == RunAll(FRESH, events);
    RunKeepsInv(FRESH, events);
  }

  /** A submission settles at most once: its first settlement stands for good, and it is never pending again. */
  lemma SettlesOnce(c: Client, t: Token, later: seq<Event>, id: nat)
    requires Reachable(c) && t in c.settled
    ensures var d := RunAll(c, later); t in d.settled && d.settled[t] == c.settled[t] && !Current(d, id, t)
  {
    ReachableIsGood(c);
    hide RunAll;
    RunKeepsInv(c, later);
  }

  /** At most one command of an operation is pending, each under its own identity. */
  lemma OnePerOperation(c: Client, i: nat, j: nat)
    requires Reachable(c) && i in c.pending && j in c.pending
    ensures c.pending[i].saved.params.commandId == i
    ensures c.pending[i].saved.operation == c.pending[j].saved.operation ==> i == j
  {
    ReachableIsGood(c);
  }

  /** A page that knows its editing scope has every pending command in tab storage before it is sent, and only those. */
  lemma StoredBeforeSent(c: Client, n: nat)
    requires Reachable(c) && CanSend(c, n) && Current(c, IdOf(c.requests[n]), c.requests[n].token)
    ensures c.scoped <==>
              c.stored.Some? && IdOf(c.requests[n]) in c.stored.value
              && c.stored.value[IdOf(c.requests[n])] == c.requests[n].saved
    ensures c.scoped ==> c.stored.value.Keys == c.pending.Keys
  {
    ReachableIsGood(c);
    assert RequestOk(c, c.requests[n]);
  }

  /** Every request carries a payload that was once submitted, under the command identity it was submitted with. */
  lemma RequestsCarrySubmissions(c: Client, n: nat)
    requires Reachable(c) && n < |c.requests|
    ensures c.requests[n].saved in c.submitted
    ensures Current(c, IdOf(c.requests[n]), c.requests[n].token) ==>
              c.requests[n].saved == c.pending[IdOf(c.requests[n])].saved
  {
    ReachableIsGood(c);
    assert RequestOk(c, c.requests[n]);
  }

  /** Nothing submitted in this page is forgotten. */
  lemma SubmissionsAreAccountedFor(c: Client, s: nat)
    requires Reachable(c) && s < c.serial
    ensures Submitted(c.page, s) in c.settled || exists id :: Current(c, id, Submitted(c.page, s))
  {
    ReachableIsGood(c);
  }

  lemma OthersLeaveNone(c: Client, e: Event, id: nat)
    requires id in c.pending && !e.Answer? && !e.Receive? && !e.Reload?
    ensures Current(Step(c, e), id, c.pending[id].token)
  {
  }

  lemma SettleLeaves(c: Client, id: nat, how: How)
    requires id in c.pending
    ensures var d := Settle(c, id, how);
            d.pending == c.pending - {id} && d.settled == c.settled[c.pending[id].token := how]
            && d.requests == c.requests
            && d.generation == c.generation
  {
  }

  lemma AnswerLeaves(c: Client, n: nat, reply: Reply, id: nat)
    requires CanAnswer(c, n, reply) && id in c.pending && !Current(DoAnswer(c, n, reply), id, c.pending[id].token)
    ensures var t := c.pending[id].token; var d := DoAnswer(c, n, reply);
            && c.requests[n].token == t && t in d.settled
            && ((d.settled[t].ByResult? && reply.ResultReply?)
                || (d.settled[t].ByRefusal? && Drops(c.requests[n], reply)))
  {
    var left, c1 := IdOf(c.requests[n]), Replied(c, n, reply);
    if left in c1.pending {
      SettleLeaves(c1, left, ByResult);
      SettleLeaves(c1, left, ByRefusal);
    }
    hide Replied, Possible, Settle;
  }

  lemma ReceiveLeaves(c: Client, k: nat, receipt: Receipt, id: nat)
    requires LookupsOk(c) && k < |c.lookups| && id in c.pending
               && !Current(DoReceive(c, k, receipt), id, c.pending[id].token)
    ensures var t := c.pending[id].token; var d := DoReceive(c, k, receipt);
            && c.lookups[k].token == t && t in d.settled
            && ((d.settled[t].ByReceipt? && receipt.RecordedReceipt?)
                || (d.settled[t].ByCoreError? && receipt.UnknownReceipt? && c.lookups[k].failure
                    && exists n :: CoreErrorSeen(c, n, t)))
  {
    hide CoreErrorSeen;
  }

  /** The four ways out of the pending set, and a new page. */
  lemma LeavesPendingOnlyBy(c: Client, e: Event, id: nat)
    requires Reachable(c) && id in c.pending && !Current(Step(c, e), id, c.pending[id].token)
    ensures var t := c.pending[id].token; var d := Step(c, e);
      || e.Reload?
      || (t in d.settled && match d.settled[t]
            case ByResult =>
              e.Answer? && e.reply.ResultReply? && e.request < |c.requests| && c.requests[e.request].token == t
              && c.requests[e.request].admitted
            case ByReceipt =>
              e.Receive? && e.receipt.RecordedReceipt? && e.lookup < |c.lookups| && c.lookups[e.lookup].token == t
            case ByCoreError =>
              e.Receive? && e.receipt.UnknownReceipt? && e.lookup < |c.lookups| && c.lookups[e.lookup].token == t
              && c.lookups[e.lookup].failure && exists n :: CoreErrorSeen(c, n, t)
            case ByRefusal =>
              e.Answer? && e.request < |c.requests| && c.requests[e.request].token == t
              && Drops(c.requests[e.request], e.reply) && !c.requests[e.request].admitted)
  {
    ReachableIsGood(c);
    if e.Answer? && CanAnswer(c, e.request, e.reply) { assert RequestOk(c, c.requests[e.request]); }
    assert PendingOk(c) && LookupsOk(c);
    hide Inv, Reachable, PendingOk, LookupsOk, RequestOk, CoreErrorSeen, CanSubmit, Persist, DoAnswer, DoReceive,
         DoSubmit, DoRetry;
    if e.Answer? { if CanAnswer(c, e.request, e.reply) { AnswerLeaves(c, e.request, e.reply, id); } }
    else if !e.Receive? && !e.Reload? { OthersLeaveNone(c, e, id); }
    if e.Receive? && e.lookup < |c.lookups| { ReceiveLeaves(c, e.lookup, e.receipt, id); }
  }

  /** A reload restores exactly what was pending, under the same identities and payloads, and settles nothing. */
  lemma ReloadRestores(c: Client)
    requires Reachable(c) && c.scoped
    ensures var d := Step(c, Reload(false));
      && d.pending.Keys == c.pending.Keys && (forall id | id in c.pending :: d.pending[id].saved == c.pending[id].saved)
      && d.settled == c.settled && d.stored == c.stored && d.scoped && (d.needsRecovery <==> d.pending != map[])
  {
    ReachableIsGood(c);
  }

  /** A reload forgets a pending command exactly when the page did not know its editing scope yet,
      or the tab is a fork. */
  lemma ReloadForgetsIff(c: Client, fork: bool, id: nat)
    requires Reachable(c) && id in c.pending
    ensures id !in Step(c, Reload(fork)).pending <==> fork || !c.scoped
  {
    ReachableIsGood(c);
    assert StorageOk(c);
    hide Inv, Reachable;
  }

  // What a refusal means ----------------------------------------------------------------------------

  ghost predicate NeverRetried(c: Client, t: Token) {
    forall n | 0 <= n < |c.requests| && c.requests[n].token == t :: !c.requests[n].recovery
  }

  ghost predicate Executed(c: Client, t: Token) {
    exists n | 0 <= n < |c.requests| :: c.requests[n].token == t && c.requests[n].admitted
  }

  /** A request that was or can still be admitted: the host has not refused it, and it was sent, or is about to be on
      the connection it was made on. */
  predicate MayRun(r: Request, t: Token, generation: nat) {
    r.token == t && !r.refused && (r.sent || (r.listening && r.generation == generation))
  }

  ghost predicate NoneMayRun(requests: seq<Request>, t: Token, generation: nat) {
    forall n | 0 <= n < |requests| :: !MayRun(requests[n], t, generation)
  }

  // A later connection opens no request of an earlier one.
  lemma GenerationsPass(requests: seq<Request>, t: Token, generation: nat, later: nat)
    requires NoneMayRun(requests, t, generation) && generation <= later
    requires forall n | 0 <= n < |requests| :: requests[n].generation <= generation
    ensures NoneMayRun(requests, t, later)
  {
    forall n | 0 <= n < |requests| ensures !MayRun(requests[n], t, later) {
      assert !MayRun(requests[n], t, generation);
    }
  }

  lemma AnsweredRequests(c: Client, n: nat, reply: Reply)
    requires CanAnswer(c, n, reply)
    ensures DoAnswer(c, n, reply).requests == Replied(c, n, reply).requests
              && DoAnswer(c, n, reply).generation == c.generation
  {
    var id, c1 := IdOf(c.requests[n]), Replied(c, n, reply);
    if id in c1.pending {
      SettleLeaves(c1, id, ByResult);
      SettleLeaves(c1, id, ByRefusal);
    }
    hide Settle, Possible, Replied;
  }

  lemma ReceivedRequests(c: Client, k: nat, receipt: Receipt)
    requires k < |c.lookups|
    ensures DoReceive(c, k, receipt).requests == c.requests && DoReceive(c, k, receipt).generation == c.generation
  {
    var id, c1 := c.lookups[k].id, c.(lookups := c.lookups[..k] + c.lookups[k + 1..]);
    if id in c1.pending {
      SettleLeaves(c1, id, ByReceipt);
      SettleLeaves(c1, id, ByCoreError);
    }
    hide Settle;
  }

  lemma SubmittedRequests(c: Client, saved: Saved)
    requires CanSubmit(c, saved)
    ensures DoSubmit(c, saved).requests
         == c.requests + [Request(saved, Submitted(c.page, c.serial), false, false, false, false, true, c.generation)]
    ensures DoSubmit(c, saved).generation == c.generation
  {
  }

  lemma RepliesOpenNone(c: Client, n: nat, reply: Reply, t: Token)
    requires NoneMayRun(c.requests, t, c.generation) && n < |c.requests|
    ensures NoneMayRun(Replied(c, n, reply).requests, t, c.generation)
  {
  }

  lemma SilenceOpensNone(requests: seq<Request>, t: Token, generation: nat, later: nat)
    requires NoneMayRun(requests, t, generation)
    ensures NoneMayRun(Silenced(requests), t, later)
  {
  }

  // No event opens a request of a settled submission again.
  lemma StaysOver(c: Client, e: Event, t: Token)
    requires PendingOk(c) && SettledOk(c) && t in c.settled && NoneMayRun(c.requests, t, c.generation)
    requires forall n | 0 <= n < |c.requests| :: c.requests[n].generation <= c.generation
    ensures NoneMayRun(Step(c, e).requests, t, Step(c, e).generation)
  {
    SettledIsOver(c, t);
    hide PendingOk, SettledOk, CanSubmit, DoAnswer, DoReceive, DoSubmit, Persist, Replied, RestoredEntries;
    match e {
      case Submit(saved) => if CanSubmit(c, saved) { SubmittedRequests(c, saved); }
      case Send(n) => if CanSend(c, n) { assert !MayRun(c.requests[n], t, c.generation); }
      case Admit(n) => if CanAdmit(c, n) { assert !MayRun(c.requests[n], t, c.generation); }
      case Answer(n, reply) => if CanAnswer(c, n, reply) {
        AnsweredRequests(c, n, reply);
        RepliesOpenNone(c, n, reply, t);
      }
      case Receive(k, receipt) => if CanReceive(c, k, receipt) { ReceivedRequests(c, k, receipt); }
      case Forget => GenerationsPass(c.requests, t, c.generation, c.generation + 1);
      case Reload(_) => SilenceOpensNone(c.requests, t, c.generation, c.generation + 1);
      case _ =>
    }
  }

  lemma SettledIsOver(c: Client, t: Token)
    requires PendingOk(c) && SettledOk(c) && t in c.settled
    ensures Issued(c, t) && forall id | id in c.pending :: c.pending[id].token != t
  {
  }

  lemma {:induction false} OverForGood(c: Client, t: Token, later: seq<Event>)
    requires Inv(c) && t in c.settled && NoneMayRun(c.requests, t, c.generation)
    ensures !Executed(RunAll(c, later), t)
    decreases |later|
  {
    if later == [] {
      forall n | 0 <= n < |c.requests| && c.requests[n].token == t ensures !c.requests[n].admitted {
        assert RequestOk(c, c.requests[n]) && !MayRun(c.requests[n], t, c.generation);
      }
    } else {
      StepKeepsInv(c, later[0]);
      assert forall n | 0 <= n < |c.requests| :: RequestOk(c, c.requests[n]);
      StaysOver(c, later[0], t);
      hide Inv, NoneMayRun, Step, Executed;
      OverForGood(Step(c, later[0]), t, later[1..]);
    }
  }

  ghost predicate CanRun(c: Client, t: Token) { exists later :: Executed(RunAll(c, later), t) }

  lemma OneEventEarlier(c: Client, e: Event, t: Token)
    requires CanRun(Step(c, e), t)
    ensures CanRun(c, t)
  {
    var later :| Executed(RunAll(Step(c, e), later), t);
    assert ([e] + later)[1..] == later;
    hide Step, Executed;
    assert RunAll(c, [e] + later) == RunAll(Step(c, e), later);
  }

  lemma SentCanRun(c: Client, n: nat, t: Token)
    requires CanAdmit(c, n) && c.requests[n].token == t
    ensures CanRun(c, t)
  {
    var d := Step(c, Admit(n));
    assert d.requests[n].token == t && d.requests[n].admitted;
    assert Executed(RunAll(d, []), t);
    OneEventEarlier(c, Admit(n), t);
  }

  // What is open can be driven to the host.
  lemma OpenCanRun(c: Client, n: nat, t: Token)
    requires n < |c.requests| && MayRun(c.requests[n], t, c.generation)
    ensures CanRun(c, t)
  {
    hide CanRun;
    if c.requests[n].sent {
      SentCanRun(c, n, t);
    } else {
      var a := Step(c, UseCredentials);
      var b := Step(a, SetOffline(false));
      SentCanRun(Step(b, Send(n)), n, t);
      OneEventEarlier(b, Send(n), t);
      OneEventEarlier(a, SetOffline(false), t);
      OneEventEarlier(c, UseCredentials, t);
    }
  }

  /** What a settlement leaves possible: some continuation executes the submission exactly when one of its requests has
      not been refused and was sent, or is still about to be sent on the connection it was made on. */
  lemma SettledRunsIff(c: Client, t: Token)
    requires Reachable(c) && t in c.settled
    ensures CanRun(c, t) <==> exists n :: 0 <= n < |c.requests| && MayRun(c.requests[n], t, c.generation)
  {
    ReachableIsGood(c);
    if n :| 0 <= n < |c.requests| && MayRun(c.requests[n], t, c.generation) { OpenCanRun(c, n, t); }
    else { forall later ensures !Executed(RunAll(c, later), t) { OverForGood(c, t, later); } }
  }

  /** A refused command runs in some continuation exactly when a retry of it has not been refused and was sent, or is
      still about to be sent on its connection: its first request never is that one. */
  lemma RefusedRunsIff(c: Client, t: Token)
    requires Reachable(c) && t in c.settled && c.settled[t].ByRefusal?
    ensures CanRun(c, t) <==>
              exists n :: 0 <= n < |c.requests| && c.requests[n].recovery && MayRun(c.requests[n], t, c.generation)
  {
    SettledRunsIff(c, t);
    ReachableIsGood(c);
    forall n | 0 <= n < |c.requests| && MayRun(c.requests[n], t, c.generation) ensures c.requests[n].recovery {
      assert RequestOk(c, c.requests[n]);
    }
    hide Inv, Reachable, CanRun, MayRun;
  }

  /** In particular a refused command that was never retried has no admitted request, now or ever. */
  lemma RefusedIsNotExecuted(c: Client, t: Token, later: seq<Event>)
    requires Reachable(c) && t in c.settled && c.settled[t].ByRefusal? && NeverRetried(RunAll(c, later), t)
    ensures !Executed(RunAll(c, later), t)
  {
    ReachableIsGood(c);
    RunKeepsInv(c, later);
    var d := RunAll(c, later);
    hide RunAll, Reachable;
    forall n | 0 <= n < |d.requests| && d.requests[n].token == t ensures !d.requests[n].admitted {
      assert RequestOk(d, d.requests[n]);
    }
  }

  const COMMAND := Saved(0, Params(7, 0))

  const RETRIED := [AcceptSession, Submit(COMMAND), Send(0), Retry(7), Send(1), Admit(1), Answer(0, NotAdmittedReply)]

  /** Without that condition it can be: the first request is refused for capacity while its retry was admitted. */
  lemma RefusedYetExecuted()
    ensures var c := RunAll(FRESH, RETRIED);
      var t := Submitted(0, 0); t in c.settled && c.settled[t].ByRefusal? && Executed(c, t)
  {
    var c1 := Step(FRESH, RETRIED[0]);
    var c2 := Step(c1, RETRIED[1]);
    var c3 := Step(c2, RETRIED[2]);
    var c4 := Step(c3, RETRIED[3]);
    var c5 := Step(c4, RETRIED[4]);
    var c6 := Step(c5, RETRIED[5]);
    var c7 := Step(c6, RETRIED[6]);
    Unroll(FRESH, RETRIED, 0, c1); Unroll(c1, RETRIED, 1, c2); Unroll(c2, RETRIED, 2, c3); Unroll(c3, RETRIED, 3, c4);
    Unroll(c4, RETRIED, 4, c5); Unroll(c5, RETRIED, 5, c6); Unroll(c6, RETRIED, 6, c7);
    assert RETRIED[0..] == RETRIED && RETRIED[7..] == [];
    assert c7.requests[1].token == Submitted(0, 0) && c7.requests[1].admitted;
  }

  lemma Unroll(c: Client, events: seq<Event>, i: nat, d: Client)
    requires i < |events| && d == Step(c, events[i])
    ensures RunAll(c, events[i..]) == RunAll(d, events[i + 1..])
  {
    assert events[i..][1..] == events[i + 1..];
  }

  const UNSCOPED := [UseCredentials, Submit(COMMAND), Send(0), Admit(0), Reload(false)]

  /** A command sent while the first session is still being accepted is stored nowhere, so a reload forgets it. */
  lemma SentYetForgotten()
    ensures var c := RunAll(FRESH, UNSCOPED);
      Executed(c, Submitted(0, 0)) && Submitted(0, 0) !in c.settled && c.pending == map[] && c.stored == None
  {
    var c1 := Step(FRESH, UNSCOPED[0]);
    var c2 := Step(c1, UNSCOPED[1]);
    var c3 := Step(c2, UNSCOPED[2]);
    var c4 := Step(c3, UNSCOPED[3]);
    var c5 := Step(c4, UNSCOPED[4]);
    Unroll(FRESH, UNSCOPED, 0, c1); Unroll(c1, UNSCOPED, 1, c2); Unroll(c2, UNSCOPED, 2, c3);
    Unroll(c3, UNSCOPED, 3, c4); Unroll(c4, UNSCOPED, 4, c5);
    assert UNSCOPED[0..] == UNSCOPED && UNSCOPED[5..] == [];
    assert c5.requests[0].token == Submitted(0, 0) && c5.requests[0].admitted;
  }
}
