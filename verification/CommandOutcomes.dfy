/** What each reply and receipt does to the command it answers, when a page may submit, and what it keeps quiet
    about. */
module CommandOutcomes {
  import opened Options
  import opened CommandModel
  import opened CommandSafety

  // Submitting --------------------------------------------------------------------------------------

  /** A submission is taken exactly by a page that is logged in, connected and does not have to recover, when nothing of
      its operation or under its identity is pending; then its request can go out at once. */
  lemma SubmittedIsSent(c: Client, saved: Saved)
    ensures var d, id := Step(c, Submit(saved)), saved.params.commandId;
      if c.authenticated && !c.offline && !c.needsRecovery && id !in c.pending
         && (forall i | i in c.pending :: c.pending[i].saved.operation != saved.operation)
      then
        && d.pending == c.pending[id := Entry(saved, Submitted(c.page, c.serial))] && d.serial == c.serial + 1
        && |d.requests| == |c.requests| + 1 && d.requests[..|c.requests|] == c.requests && CanSend(d, |c.requests|)
        && d.requests[|c.requests|].saved == saved && d.requests[|c.requests|].token == d.pending[id].token
        && !d.requests[|c.requests|].recovery
      else d == c
  {
  }

  // Answers -----------------------------------------------------------------------------------------

  /** Settled in this way: no longer pending, under the token it was submitted with; the page has no need to recover any
      more once nothing is pending. */
  predicate SettledAs(c: Client, d: Client, id: nat, how: How)
    requires id in c.pending
  {
    && d.pending == c.pending - {id} && d.settled == c.settled[c.pending[id].token := how]
    && d.needsRecovery == (c.needsRecovery && d.pending != map[])
  }

  predicate NothingSettled(c: Client, d: Client) { d.pending == c.pending && d.settled == c.settled }

  /** The reply to a request whose command is still the pending one. A result settles it; a refusal of the first request
      settles it, while that of a retry says nothing about the first; an error of the Core is looked up; anything else
      leaves the outcome open, and the page has to recover. */
  lemma ReplyDecides(c: Client, n: nat, reply: Reply)
    requires CanAnswer(c, n, reply) && Current(c, IdOf(c.requests[n]), c.requests[n].token)
    ensures var d, r, id := Step(c, Answer(n, reply)), c.requests[n], IdOf(c.requests[n]);
      match reply
      case ResultReply => SettledAs(c, d, id, ByResult) && d.lookups == c.lookups
      case CoreErrorReply =>
        NothingSettled(c, d) && d.lookups == c.lookups + [Lookup(id, r.token, true, c.generation)]
        && d.needsRecovery == c.needsRecovery
      case LostReply => NothingSettled(c, d) && d.lookups == c.lookups && d.needsRecovery
      case _ =>
        if r.recovery then NothingSettled(c, d) && d.lookups == c.lookups && d.needsRecovery
        else SettledAs(c, d, id, ByRefusal) && d.lookups == c.lookups
  {
  }

  /** A request is answered once, and a lookup once. */
  lemma AnsweredOnce(c: Client, n: nat, k: nat, replies: (Reply, Reply), receipt: Receipt)
    ensures CanAnswer(c, n, replies.0) ==> !CanAnswer(Step(c, Answer(n, replies.0)), n, replies.1)
    ensures CanReceive(c, k, receipt) ==> Step(c, Receive(k, receipt)).lookups == c.lookups[..k] + c.lookups[k + 1..]
  {
  }

  /** A reply to a command that is settled already changes nothing of what is pending or settled. */
  lemma LateReplyChangesNothing(c: Client, n: nat, reply: Reply)
    requires CanAnswer(c, n, reply) && !Current(c, IdOf(c.requests[n]), c.requests[n].token)
    ensures NothingSettled(c, Step(c, Answer(n, reply)))
  {
  }

  /** The receipt of a command that is still pending. A recorded one settles it; an absent one does only after an
      error of the Core, which then stands; a failed lookup leaves the outcome open, after such an error. */
  lemma ReceiptDecides(c: Client, k: nat, receipt: Receipt)
    requires CanReceive(c, k, receipt) && Current(c, c.lookups[k].id, c.lookups[k].token)
    ensures var d, l := Step(c, Receive(k, receipt)), c.lookups[k];
      match receipt
      case RecordedReceipt => SettledAs(c, d, l.id, ByReceipt)
      case UnknownReceipt => if l.failure then SettledAs(c, d, l.id, ByCoreError) else NothingSettled(c, d)
      case NoReceipt => NothingSettled(c, d) && d.needsRecovery == (l.failure || c.needsRecovery)
  {
  }

  /** The page asks for the receipt of what is pending, and repeats it, only while it is logged in: a retry goes out at
      once, offline or not, with the same payload under the same identity. */
  lemma RetryRepeats(c: Client, id: nat)
    requires id in c.pending
    ensures var d, e := Step(c, Event.Retry(id)), Step(c, LookUp(id));
      if !c.authenticated then d == c && e == c
      else
        && d == c.(requests := d.requests) && |d.requests| == |c.requests| + 1
        && d.requests[..|c.requests|] == c.requests && CanSend(d, |c.requests|)
        && d.requests[|c.requests|].saved == c.pending[id].saved && d.requests[|c.requests|].recovery
        && d.requests[|c.requests|].token == c.pending[id].token
        && e == c.(lookups := c.lookups + [Lookup(id, c.pending[id].token, false, c.generation)])
  {
  }

  /** An accepted session opens the page: its scope is known from then on, and what is pending is stored. */
  lemma SessionOpens(c: Client)
    ensures var d := Step(c, AcceptSession);
      d.authenticated && d.scoped && !d.offline && d.pending == c.pending && d.stored == Some(SavedOf(c.pending))
  {
  }

  // Recovering --------------------------------------------------------------------------------------

  /** The events after which the outcome of something pending may be unknown for good. */
  predicate LosesOutcome(c: Client, e: Event) {
    || (e.Answer? && CanAnswer(c, e.request, e.reply)
        && (e.reply.LostReply? || (c.requests[e.request].recovery && e.reply.SessionReply?)))
    || (e.Receive? && CanReceive(c, e.lookup, e.receipt) && e.receipt.NoReceipt? && c.lookups[e.lookup].failure)
  }

  /** Then the page has to recover while anything is pending, and takes no submission. */
  lemma LostOutcomeHolds(c: Client, e: Event, saved: Saved)
    requires LosesOutcome(c, e) && Step(c, e).pending != map[]
    ensures Step(c, e).needsRecovery && Step(Step(c, e), Submit(saved)) == Step(c, e)
  {
  }

  /** Nothing was pending at some moment after the first one. */
  ghost predicate Emptied(c: Client, events: seq<Event>)
    decreases |events|
  {
    events != [] && (Step(c, events[0]).pending == map[] || Emptied(Step(c, events[0]), events[1..]))
  }

  /** What a reply or a receipt leaves of the page: connection and requests, but for what they know of the host; and the
      need to recover, until nothing is pending. */
  ghost predicate SamePage(c: Client, d: Client) {
    && d.authenticated == c.authenticated && d.offline == c.offline && d.generation == c.generation
    && d.submitted == c.submitted && |d.requests| == |c.requests|
    && (forall m | 0 <= m < |d.requests| ::
          d.requests[m] == c.requests[m].(listening := d.requests[m].listening, refused := d.requests[m].refused))
    && (c.needsRecovery ==> d.needsRecovery || d.pending == map[])
  }

  lemma SettleSamePage(c: Client, id: nat, how: How)
    requires id in c.pending
    ensures SamePage(c, Settle(c, id, how))
  {
  }

  lemma SamePageComposes(c: Client, d: Client, e: Client)
    requires SamePage(c, d) && SamePage(d, e) && (c.needsRecovery ==> d.needsRecovery)
    ensures SamePage(c, e)
  {
  }

  lemma AnswerSamePage(c: Client, n: nat, reply: Reply)
    requires CanAnswer(c, n, reply)
    ensures SamePage(c, DoAnswer(c, n, reply))
  {
    var c1, id := Replied(c, n, reply), IdOf(c.requests[n]);
    assert SamePage(c, c1);
    if id in c1.pending {
      SettleSamePage(c1, id, ByResult);
      SettleSamePage(c1, id, ByRefusal);
      SamePageComposes(c, c1, Settle(c1, id, ByResult));
      SamePageComposes(c, c1, Settle(c1, id, ByRefusal));
    }
    hide CanAnswer, Settle, Replied;
  }

  lemma ReceiveSamePage(c: Client, k: nat, receipt: Receipt)
    requires k < |c.lookups|
    ensures SamePage(c, DoReceive(c, k, receipt))
  {
    var c1, id := c.(lookups := c.lookups[..k] + c.lookups[k + 1..]), c.lookups[k].id;
    assert SamePage(c, c1);
    if id in c1.pending {
      SettleSamePage(c1, id, ByReceipt);
      SettleSamePage(c1, id, ByCoreError);
      SamePageComposes(c, c1, Settle(c1, id, ByReceipt));
      SamePageComposes(c, c1, Settle(c1, id, ByCoreError));
    }
    hide Settle;
  }

  lemma RecoveryStays(c: Client, e: Event)
    requires c.needsRecovery
    ensures Step(c, e).needsRecovery || Step(c, e).pending == map[]
  {
    if e.Answer? && CanAnswer(c, e.request, e.reply) { AnswerSamePage(c, e.request, e.reply); }
    if e.Receive? && CanReceive(c, e.lookup, e.receipt) { ReceiveSamePage(c, e.lookup, e.receipt); }
    hide DoAnswer, DoReceive, CanAnswer, CanReceive;
    if e.Reload? { RestoredNone(c, e.fork); }
  }

  lemma RestoredNone(c: Client, fork: bool)
    ensures DoReload(c, fork).needsRecovery || DoReload(c, fork).pending == map[]
  {
    assert c.stored.Some? && !fork ==> RestoredEntries(c.page + 1, c.stored.value).Keys == c.stored.value.Keys;
  }

  /** This stays so, whatever happens and through every reload, until at some moment nothing is pending. */
  lemma {:induction false} RecoveryHolds(c: Client, events: seq<Event>, saved: Saved)
    requires c.needsRecovery && !Emptied(c, events)
    ensures RunAll(c, events).needsRecovery && Step(RunAll(c, events), Submit(saved)) == RunAll(c, events)
    decreases |events|
  {
    if events != [] {
      RecoveryStays(c, events[0]);
      hide Step;
      RecoveryHolds(Step(c, events[0]), events[1..], saved);
    }
  }

  // Keeping quiet -----------------------------------------------------------------------------------

  predicate LogsIn(e: Event) { e.UseCredentials? || e.AcceptSession? }

  /** Nothing goes out that had not. */
  ghost predicate NothingSent(c: Client, d: Client) {
    && d.submitted == c.submitted && |c.requests| == |d.requests|
    && forall n | 0 <= n < |d.requests| :: d.requests[n].sent == c.requests[n].sent
  }

  lemma LoggedOutIsQuietOnce(c: Client, e: Event)
    requires !c.authenticated && !LogsIn(e)
    ensures !Step(c, e).authenticated && NothingSent(c, Step(c, e))
  {
    if e.Answer? && CanAnswer(c, e.request, e.reply) { AnswerSamePage(c, e.request, e.reply); }
    if e.Receive? && CanReceive(c, e.lookup, e.receipt) { ReceiveSamePage(c, e.lookup, e.receipt); }
    hide DoAnswer, DoReceive, CanAnswer, CanReceive;
  }

  /** A page without credentials submits nothing and sends nothing, until it gets some. */
  lemma {:induction false} LoggedOutIsQuiet(c: Client, events: seq<Event>)
    requires !c.authenticated && forall i | 0 <= i < |events| :: !LogsIn(events[i])
    ensures !RunAll(c, events).authenticated && NothingSent(c, RunAll(c, events))
    decreases |events|
  {
    if events != [] {
      assert !LogsIn(events[0]);
      LoggedOutIsQuietOnce(c, events[0]);
      hide Step;
      LoggedOutIsQuiet(Step(c, events[0]), events[1..]);
    }
  }

  predicate GoesOnline(e: Event) { e.AcceptSession? || e.Forget? || e.Reload? || (e.SetOffline? && !e.offline) }

  /** Only retries go out. */
  ghost predicate OnlyRetriesSent(c: Client, d: Client) {
    && d.submitted == c.submitted && |c.requests| <= |d.requests|
    && (forall n | 0 <= n < |c.requests| :: d.requests[n].recovery == c.requests[n].recovery
          && (d.requests[n].sent == c.requests[n].sent || c.requests[n].recovery))
    && (forall n | |c.requests| <= n < |d.requests| :: d.requests[n].recovery)
  }

  lemma OfflineOnlyRetriesOnce(c: Client, e: Event)
    requires c.offline && !GoesOnline(e)
    ensures Step(c, e).offline && OnlyRetriesSent(c, Step(c, e))
  {
    if e.Answer? && CanAnswer(c, e.request, e.reply) { AnswerSamePage(c, e.request, e.reply); }
    if e.Receive? && CanReceive(c, e.lookup, e.receipt) { ReceiveSamePage(c, e.lookup, e.receipt); }
    hide DoAnswer, DoReceive, CanAnswer, CanReceive;
  }

  /** A page that found itself offline takes no submission and sends only retries, until it is back. */
  lemma {:induction false} OfflineOnlyRetries(c: Client, events: seq<Event>)
    requires c.offline && forall i | 0 <= i < |events| :: !GoesOnline(events[i])
    ensures RunAll(c, events).offline && OnlyRetriesSent(c, RunAll(c, events))
    decreases |events|
  {
    if events != [] {
      assert !GoesOnline(events[0]);
      OfflineOnlyRetriesOnce(c, events[0]);
      hide Step;
      OfflineOnlyRetries(Step(c, events[0]), events[1..]);
    }
  }

  predicate Unsent(c: Client, n: nat, generation: nat) {
    n < |c.requests| && !c.requests[n].sent && c.requests[n].generation == generation
  }

  lemma StaleIsNotSentOnce(c: Client, e: Event, n: nat, generation: nat)
    requires Unsent(c, n, generation) && generation < c.generation
    ensures Unsent(Step(c, e), n, generation) && c.generation <= Step(c, e).generation
  {
    if e.Answer? && CanAnswer(c, e.request, e.reply) { AnswerSamePage(c, e.request, e.reply); }
    if e.Receive? && CanReceive(c, e.lookup, e.receipt) { ReceiveSamePage(c, e.lookup, e.receipt); }
    hide DoAnswer, DoReceive, CanAnswer, CanReceive;
  }

  /** What was not sent when the page dropped its connection is never sent, and so never executed. */
  lemma {:induction false} StaleIsNeverSent(c: Client, n: nat, generation: nat, events: seq<Event>)
    requires Unsent(c, n, generation) && generation < c.generation
    ensures Unsent(RunAll(c, events), n, generation)
    decreases |events|
  {
    if events != [] {
      StaleIsNotSentOnce(c, events[0], n, generation);
      hide Step;
      StaleIsNeverSent(Step(c, events[0]), n, generation, events[1..]);
    }
  }

  lemma {:induction false} ForgettingDropsUnsent(c: Client, n: nat, e: Event, events: seq<Event>)
    requires Unsent(c, n, c.generation) && (e.Forget? || e.Reload?)
    ensures var d := RunAll(Step(c, e), events); n < |d.requests| && !d.requests[n].sent
  {
    StaleIsNeverSent(Step(c, e), n, c.generation, events);
  }
}
