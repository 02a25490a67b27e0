/** The browser's pending commands (apps/web/src/client.ts): every stretch of code between two awaits is one event.
    A request carries its own command identity; the host may admit a sent request even after the page stopped listening.
    Dropping the credentials starts a new connection generation, which aborts what belongs to an earlier one. */
module CommandModel {
  import opened Options

  datatype Params = Params(commandId: nat, body: nat)
  datatype Saved = Saved(operation: nat, params: Params)

  // One submission in one page, or one restored by it: what the client compares with `=== entry`.
  datatype Token = Submitted(page: nat, serial: nat) | Restored(page: nat, id: nat)
  datatype Entry = Entry(saved: Saved, token: Token)

  datatype Request = Request(saved: Saved, token: Token, recovery: bool,
                             sent: bool, admitted: bool, refused: bool, listening: bool, generation: nat)
  datatype Lookup = Lookup(id: nat, token: Token, failure: bool, generation: nat) // failure: it follows a Core error

  datatype Reply =
    | ResultReply         // a result
    | UnavailableReply    // refused by the client itself, before the request is sent
    | NotAdmittedReply    // operation_not_admitted, workspace_not_authorized, request_capacity
    | SessionReply        // no session, or the host answered 401
    | CoreErrorReply      // the Core answered with an error
    | LostReply           // anything else: the outcome is not known

  datatype Receipt = RecordedReceipt | UnknownReceipt | NoReceipt // NoReceipt: the lookup itself failed
  datatype How = ByResult | ByReceipt | ByCoreError | ByRefusal

  datatype Client = Client(
    page: nat, serial: nat, generation: nat, authenticated: bool, scoped: bool, offline: bool, needsRecovery: bool,
    pending: map<nat, Entry>, stored: Option<map<nat, Saved>>,
    requests: seq<Request>, lookups: seq<Lookup>, settled: map<Token, How>, submitted: set<Saved>)

  const FRESH := Client(0, 0, 0, false, false, false, false, map[], None, [], [], map[], {})

  datatype Event =
    | Submit(saved: Saved)
    | Send(request: nat)
    | Admit(request: nat)
    | Answer(request: nat, reply: Reply)
    | LookUp(id: nat)
    | Receive(lookup: nat, receipt: Receipt)
    | Retry(id: nat)
    | UseCredentials
    | AcceptSession
    | Forget
    | SetOffline(offline: bool)
    | Reload(fork: bool)

  function SavedOf(pending: map<nat, Entry>): map<nat, Saved> { map id | id in pending :: pending[id].saved }

  // #persistRecovery: nothing is written before the page knows its editing scope.
  function Persist(c: Client): Client {
    if c.scoped then c.(stored := Some(SavedOf(c.pending))) else c
  }

  function NotifyPending(c: Client): Client {
    Persist(c).(needsRecovery := c.needsRecovery && c.pending != map[])
  }

  function RequireRecovery(c: Client): Client { c.(needsRecovery := c.pending != map[]) }

  predicate Current(c: Client, id: nat, token: Token) { id in c.pending && c.pending[id].token == token }

  function Settle(c: Client, id: nat, how: How): Client
    requires id in c.pending
  {
    NotifyPending(c.(pending := c.pending - {id}, settled := c.settled[c.pending[id].token := how]))
  }

  // Submitting and sending -------------------------------------------------------------------------

  predicate CanSubmit(c: Client, saved: Saved) {
    && c.authenticated && !c.offline && !c.needsRecovery
    && (forall id | id in c.pending :: c.pending[id].saved.operation != saved.operation)
    && saved.params.commandId !in c.pending
  }

  function DoSubmit(c: Client, saved: Saved): Client
    requires CanSubmit(c, saved)
  {
    var token := Submitted(c.page, c.serial);
    var c1 := NotifyPending(c.(
      serial := c.serial + 1, pending := c.pending[saved.params.commandId := Entry(saved, token)],
      submitted := c.submitted + {saved}));
    c1.(requests := c1.requests + [Request(saved, token, false, false, false, false, true, c.generation)])
  }

  predicate CanSend(c: Client, n: nat) {
    n < |c.requests| && c.requests[n].listening && !c.requests[n].sent && c.authenticated
    && c.requests[n].generation == c.generation
    && (c.requests[n].recovery || !c.offline)
  }

  predicate CanAdmit(c: Client, n: nat) {
    n < |c.requests| && c.requests[n].sent && !c.requests[n].refused
  }

  // What a reply tells about the host: refusals are final, and results come from admitted requests.
  predicate Possible(r: Request, reply: Reply) {
    match reply
    case ResultReply => r.admitted
    case CoreErrorReply => r.admitted
    case UnavailableReply => !r.sent && !r.recovery
    case NotAdmittedReply => r.sent && !r.admitted
    case SessionReply => !r.admitted
    case LostReply => true
  }

  // A request of an earlier connection only learns that it was aborted, or that there is no session.
  predicate CanAnswer(c: Client, n: nat, reply: Reply) {
    n < |c.requests| && c.requests[n].listening && Possible(c.requests[n], reply)
    && (c.requests[n].generation == c.generation || reply.LostReply? || reply.SessionReply?)
  }

  function IdOf(r: Request): nat { r.saved.params.commandId }

  predicate Drops(r: Request, reply: Reply) {
    !r.recovery && (reply.UnavailableReply? || reply.NotAdmittedReply? || reply.SessionReply?)
  }

  // The request stops listening, and may now be known to be refused.
  function Replied(c: Client, n: nat, reply: Reply): (d: Client)
    requires n < |c.requests|
    ensures d == c.(requests := d.requests) && |d.requests| == |c.requests|
  {
    var r := c.requests[n];
    c.(requests := c.requests[n := r.(
      listening := false, refused := r.refused || reply.NotAdmittedReply? || (reply.SessionReply? && r.sent))])
  }

  function DoAnswer(c: Client, n: nat, reply: Reply): Client
    requires CanAnswer(c, n, reply)
  {
    var r, c1 := c.requests[n], Replied(c, n, reply);
    if reply.ResultReply? then
      if Current(c1, IdOf(r), r.token) then Settle(c1, IdOf(r), ByResult) else c1
    else if Drops(r, reply) then
      if Current(c1, IdOf(r), r.token) then Settle(c1, IdOf(r), ByRefusal) else c1
    else if reply.CoreErrorReply? then c1.(lookups := c1.lookups + [Lookup(IdOf(r), r.token, true, c.generation)])
    else RequireRecovery(c1)
  }

  // Receipts and retries ---------------------------------------------------------------------------

  predicate CanLookUp(c: Client, id: nat) { c.authenticated && id in c.pending }

  predicate CanReceive(c: Client, k: nat, receipt: Receipt) {
    k < |c.lookups| && (c.lookups[k].generation == c.generation || receipt.NoReceipt?)
  }

  function DoReceive(c: Client, k: nat, receipt: Receipt): Client
    requires k < |c.lookups|
  {
    var l := c.lookups[k];
    var c1 := c.(lookups := c.lookups[..k] + c.lookups[k + 1..]);
    match receipt
    case RecordedReceipt => if Current(c1, l.id, l.token) then Settle(c1, l.id, ByReceipt) else c1
    case UnknownReceipt => if l.failure && Current(c1, l.id, l.token) then Settle(c1, l.id, ByCoreError) else c1
    case NoReceipt => if l.failure then RequireRecovery(c1) else c1
  }

  // The same payload under the same identity; never a new command.
  function DoRetry(c: Client, id: nat): Client
    requires id in c.pending
  {
    c.(requests := c.requests + [
      Request(c.pending[id].saved, c.pending[id].token, true, false, false, false, true, c.generation)])
  }

  // Pages ------------------------------------------------------------------------------------------

  function Silenced(requests: seq<Request>): (r: seq<Request>)
    ensures |r| == |requests| && forall n | 0 <= n < |r| :: r[n] == requests[n].(listening := false)
  {
    seq(|requests|, n requires 0 <= n < |requests| => requests[n].(listening := false))
  }

  function RestoredEntries(page: nat, stored: map<nat, Saved>): map<nat, Entry> {
    map id | id in stored :: Entry(stored[id], Restored(page, id))
  }

  // A new page over the tab's storage; a forked tab drops what it was given a copy of.
  function DoReload(c: Client, fork: bool): Client {
    var page := c.page + 1;
    var kept := c.stored.Some? && !fork;
    c.(page := page, serial := 0, generation := c.generation + 1, authenticated := false, scoped := kept,
       offline := false,
       pending := if kept then RestoredEntries(page, c.stored.value) else map[],
       needsRecovery := kept && c.stored.value != map[],
       stored := if fork then None else c.stored,
       requests := Silenced(c.requests), lookups := [])
  }

  function Step(c: Client, e: Event): Client {
    match e
    case Submit(saved) => if CanSubmit(c, saved) then DoSubmit(c, saved) else c
    case Send(n) => if CanSend(c, n) then c.(requests := c.requests[n := c.requests[n].(sent := true)]) else c
    case Admit(n) => if CanAdmit(c, n) then c.(requests := c.requests[n := c.requests[n].(admitted := true)]) else c
    case Answer(n, reply) => if CanAnswer(c, n, reply) then DoAnswer(c, n, reply) else c
    case LookUp(id) =>
      if CanLookUp(c, id) then c.(lookups := c.lookups + [Lookup(id, c.pending[id].token, false, c.generation)]) else c
    case Receive(k, receipt) => if CanReceive(c, k, receipt) then DoReceive(c, k, receipt) else c
    case Retry(id) => if c.authenticated && id in c.pending then DoRetry(c, id) else c
    case UseCredentials => c.(authenticated := true)
    case AcceptSession => Persist(c.(authenticated := true, scoped := true, offline := false))
    case Forget => Persist(c.(authenticated := false, offline := false, generation := c.generation + 1))
    case SetOffline(offline) => c.(offline := offline)
    case Reload(fork) => DoReload(c, fork)
  }

  function RunAll(c: Client, events: seq<Event>): Client
    decreases |events|
  {
    if events == [] then c else RunAll(Step(c, events[0]), events[1..])
  }
}
