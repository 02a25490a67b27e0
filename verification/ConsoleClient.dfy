/** The client object itself: fields updated in place, one method per stretch of code between two awaits. */
module ConsoleClient {
  import opened Options
  import opened CommandModel

  class Console {
    var page: nat
    var serial: nat
    var generation: nat
    var authenticated: bool
    var scoped: bool
    var offline: bool
    var needsRecovery: bool
    var pending: map<nat, Entry>
    var stored: Option<map<nat, Saved>>
    var requests: seq<Request>
    var lookups: seq<Lookup>
    ghost var settled: map<Token, How>
    ghost var submitted: set<Saved>

    ghost function State(): Client
      reads this
    {
      Client(page, serial, generation, authenticated, scoped, offline, needsRecovery, pending, stored, requests,
          lookups, settled, submitted)
    }

    constructor ()
      ensures State() == FRESH
    {
      page, serial, generation, authenticated, scoped, offline, needsRecovery := 0, 0, 0, false, false, false, false;
      pending, stored, requests, lookups := map[], None, [], [];
      settled, submitted := map[], {};
    }

    method PersistRecovery()
      modifies `stored
      ensures State() == Persist(old(State()))
    {
      if scoped { stored := Some(map id | id in pending :: pending[id].saved); }
    }

    method NotifyPendingChanged()
      modifies `stored, `needsRecovery
      ensures State() == NotifyPending(old(State()))
    {
      PersistRecovery();
      if pending == map[] { needsRecovery := false; }
    }

    method Leave(id: nat, ghost how: How)
      requires id in pending
      modifies `pending, `stored, `needsRecovery, `settled
      ensures State() == Settle(old(State()), id, how)
    {
      settled := settled[pending[id].token := how];
      pending := pending - {id};
      NotifyPendingChanged();
    }

    method OperationPending(operation: nat) returns (found: bool)
      ensures found <==> exists id | id in pending :: pending[id].saved.operation == operation
    {
      var rest := pending.Keys;
      while rest != {}
        invariant rest <= pending.Keys
        invariant forall id | id in pending && id !in rest :: pending[id].saved.operation != operation
        decreases |rest|
      {
        var id :| id in rest;
        if pending[id].saved.operation == operation { return true; }
        rest := rest - {id};
      }
      return false;
    }

    /** requestWithSource, up to the first await of the dispatch. */
    method RequestWithSource(saved: Saved) returns (accepted: bool)
      modifies this
      ensures accepted == CanSubmit(old(State()), saved)
      ensures State() == Step(old(State()), Submit(saved))
    {
      if !authenticated || offline || needsRecovery { return false; }
      var busy := OperationPending(saved.operation);
      if busy || saved.params.commandId in pending { return false; }
      var token := Submitted(page, serial);
      serial := serial + 1;
      submitted := submitted + {saved};
      pending := pending[saved.params.commandId := Entry(saved, token)];
      NotifyPendingChanged();
      requests := requests + [Request(saved, token, false, false, false, false, true, generation)];
      return true;
    }

    /** dispatchCommand, once its request has answered or failed. */
    method HandleReply(n: nat, reply: Reply)
      requires CanAnswer(State(), n, reply)
      modifies this
      ensures State() == Step(old(State()), Answer(n, reply))
    {
      var r := requests[n];
      var id := r.saved.params.commandId;
      requests := requests[n := r.(
        listening := false, refused := r.refused || reply.NotAdmittedReply? || (reply.SessionReply? && r.sent))];
      var current := id in pending && pending[id].token == r.token;
      if reply.ResultReply? {
        if current { Leave(id, ByResult); }
      } else if !r.recovery && (reply.UnavailableReply? || reply.NotAdmittedReply? || reply.SessionReply?) {
        if current { Leave(id, ByRefusal); }
      } else if reply.CoreErrorReply? {
        lookups := lookups + [Lookup(id, r.token, true, generation)];
      } else {
        needsRecovery := pending != map[];
      }
    }

    /** settleKnownFailure and the body of reconcilePending, once the receipt lookup has answered or failed. */
    method HandleReceipt(k: nat, receipt: Receipt)
      requires CanReceive(State(), k, receipt)
      modifies this
      ensures State() == Step(old(State()), Receive(k, receipt))
    {
      var l := lookups[k];
      lookups := lookups[..k] + lookups[k + 1..];
      var current := l.id in pending && pending[l.id].token == l.token;
      match receipt {
        case RecordedReceipt => if current { Leave(l.id, ByReceipt); }
        case UnknownReceipt => if l.failure && current { Leave(l.id, ByCoreError); }
        case NoReceipt => if l.failure { needsRecovery := pending != map[]; }
      }
    }

    method StartLookup(id: nat)
      modifies `lookups
      ensures State() == Step(old(State()), LookUp(id))
    {
      if authenticated && id in pending { lookups := lookups + [Lookup(id, pending[id].token, false, generation)]; }
    }

    /** One turn of recoverConnection's loop: the original payload goes out again. */
    method Redispatch(id: nat)
      modifies `requests
      ensures State() == Step(old(State()), Event.Retry(id))
    {
      if authenticated && id in pending {
        requests := requests + [Request(pending[id].saved, pending[id].token, true, false, false, false, true,
            generation)];
      }
    }

    method ForgetAuthentication()
      modifies this
      ensures State() == Step(old(State()), Forget)
    {
      authenticated, offline, generation := false, false, generation + 1;
      PersistRecovery();
    }

    method AcceptSessionResponse()
      modifies this
      ensures State() == Step(old(State()), AcceptSession)
    {
      scoped, authenticated, offline := true, true, false;
      PersistRecovery();
    }

    static lemma RestoredSaved(page: nat, saved: map<nat, Saved>)
      ensures SavedOf(RestoredEntries(page, saved)) == saved
      ensures RestoredEntries(page, saved) == map[] <==> saved == map[]
    {
      assert RestoredEntries(page, saved).Keys == saved.Keys;
    }

    // Everything of the page before is gone but tab storage.
    method StartPage()
      modifies `page, `serial, `generation, `authenticated, `scoped, `offline, `needsRecovery, `pending, `requests,
               `lookups
      ensures page == old(page) + 1 && serial == 0 && generation == old(generation) + 1
      ensures !authenticated && !scoped && !offline && !needsRecovery
      ensures pending == map[] && lookups == [] && requests == Silenced(old(requests))
    {
      hide Silenced;
      requests := Silenced(requests);
      page, serial, generation, authenticated, scoped := page + 1, 0, generation + 1, false, false;
      offline, needsRecovery, pending, lookups := false, false, map[], [];
    }

    /** A page load: restore rebuilds the pending commands from tab storage. */
    method LoadPage(fork: bool)
      modifies this
      ensures State() == DoReload(old(State()), fork)
    {
      hide SavedOf, RestoredEntries, Silenced;
      StartPage();
      if fork {
        stored := None;
      } else if stored.Some? {
        scoped := true;
        RestoreRecovery();
      }
    }

    method RestoreRecovery()
      requires scoped && stored.Some? && pending == map[]
      modifies `pending, `needsRecovery, `stored
      ensures stored == old(stored) && pending == RestoredEntries(page, old(stored).value)
      ensures needsRecovery == (old(stored).value != map[])
    {
      RestoredSaved(page, stored.value);
      RestoreCommands(stored.value);
      needsRecovery := pending != map[];
      PersistRecovery();
    }

    method RestoreCommands(saved: map<nat, Saved>)
      requires pending == map[]
      modifies `pending
      ensures pending == RestoredEntries(page, saved)
    {
      var rest := saved.Keys;
      while rest != {}
        invariant rest <= saved.Keys && pending.Keys == saved.Keys - rest
        invariant forall id | id in pending :: pending[id] == Entry(saved[id], Restored(page, id))
        decreases |rest|
      {
        var id :| id in rest;
        pending := pending[id := Entry(saved[id], Restored(page, id))];
        rest := rest - {id};
      }
    }
  }
}
