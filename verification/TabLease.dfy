/** Which document owns a tab's drafts (apps/web/src/tab-recovery.ts): a lease per tab identity in a shared store, a
    synchronous release marker, and a fork to a new identity when the lease is taken. Times are milliseconds. */
module TabLease {
  import opened Options

  const LIFETIME := 30_000

  datatype Lease = Lease(document: nat, until: nat)

  // First and Second: still trying for the stored identity, before and after the short wait.
  datatype Phase = First | Second | Ready

  // `until` is the end of the last lease this document was granted; `hidden`: it was hidden at least once.
  datatype Document = Document(tab: nat, phase: Phase, active: bool, hidden: bool, granted: bool, until: nat,
                               forked: bool)

  datatype Browser = Browser(
    now: nat, leases: map<nat, Lease>, released: map<nat, nat>, documents: map<nat, Document>, used: set<nat>)

  const FRESH_BROWSER := Browser(0, map[], map[], map[], {})

  datatype Event =
    | Pass(ms: nat)
    | Open(document: nat, stored: Option<nat>, newTab: nat)
    | Attempt(document: nat, newTab: nat)
    | Assert(document: nat)
    | Heartbeat(document: nat)
    | Hide(document: nat)
    | ReleaseLease(document: nat)
    | Show(document: nat)

  // The lease transaction --------------------------------------------------------------------------

  predicate Grants(b: Browser, tab: nat, document: nat) {
    || tab !in b.leases || b.leases[tab].document == document
    || (tab in b.released && b.leases[tab].document == b.released[tab])
    || b.leases[tab].until <= b.now
  }

  /** The document asks for the lease of its tab. */
  function Asked(b: Browser, d: nat): Browser
    requires d in b.documents
  {
    var doc := b.documents[d];
    if Grants(b, doc.tab, d) then
      b.(leases := b.leases[doc.tab := Lease(d, b.now + LIFETIME)],
         documents := b.documents[d := doc.(granted := true, until := b.now + LIFETIME)])
    else b
  }

  function WithPhase(b: Browser, d: nat, phase: Phase, active: bool): Browser
    requires d in b.documents
  {
    b.(documents := b.documents[d := b.documents[d].(phase := phase, active := active)])
  }

  predicate CanOpen(b: Browser, d: nat, stored: Option<nat>, newTab: nat) {
    d !in b.documents && newTab !in b.used && (stored.Some? ==> stored.value != newTab)
  }

  predicate Trying(b: Browser, d: nat) { d in b.documents && !b.documents[d].phase.Ready? }

  predicate IsReady(b: Browser, d: nat) { d in b.documents && b.documents[d].phase.Ready? }

  function DoAttempt(b: Browser, d: nat, newTab: nat): Browser
    requires Trying(b, d) && newTab !in b.used
  {
    var doc := b.documents[d];
    if Grants(b, doc.tab, d) then WithPhase(Asked(b, d), d, Ready, true)
    else if doc.phase.First? then WithPhase(b, d, Second, false)
    else
      var forked := b.(documents := b.documents[d := doc.(tab := newTab, forked := true)], used := b.used + {newTab});
      WithPhase(Asked(forked, d), d, Ready, true)
  }

  function DoHide(b: Browser, d: nat): Browser
    requires IsReady(b, d)
  {
    var doc := b.documents[d];
    b.(documents := b.documents[d := doc.(active := false, hidden := true)], released := b.released[doc.tab := d])
  }

  function DoRelease(b: Browser, d: nat): Browser
    requires IsReady(b, d)
  {
    var doc := b.documents[d];
    if doc.hidden && doc.tab in b.leases && b.leases[doc.tab].document == d
    then b.(leases := b.leases - {doc.tab}, documents := b.documents[d := doc.(granted := false)])
    else b
  }

  function Step(b: Browser, e: Event): Browser {
    match e
    case Pass(ms) => b.(now := b.now + ms)
    case Open(d, stored, newTab) =>
      if CanOpen(b, d, stored, newTab) then
        var tab := if stored.Some? then stored.value else newTab;
        b.(documents := b.documents[d := Document(tab, First, false, false, false, 0, false)], used := b.used + {tab})
      else b
    case Attempt(d, newTab) => if Trying(b, d) && newTab !in b.used then DoAttempt(b, d, newTab) else b
    case Assert(d) => if IsReady(b, d) && b.documents[d].active then Asked(b, d) else b
    case Heartbeat(d) =>
      if IsReady(b, d) && b.documents[d].active
      then WithPhase(Asked(b, d), d, Ready, Grants(b, b.documents[d].tab, d)) else b
    case Hide(d) => if IsReady(b, d) then DoHide(b, d) else b
    case ReleaseLease(d) => if IsReady(b, d) then DoRelease(b, d) else b
    case Show(d) => if IsReady(b, d) then WithPhase(Asked(b, d), d, Ready, Grants(b, b.documents[d].tab, d)) else b
  }

  function RunAll(b: Browser, events: seq<Event>): Browser
    decreases |events|
  {
    if events == [] then b else RunAll(Step(b, events[0]), events[1..])
  }

  // The invariant ----------------------------------------------------------------------------------

  /** A document that was never hidden holds its lease until the lease runs out, and stays active till then. */
  predicate DocumentOk(b: Browser, d: nat, doc: Document) {
    && doc.tab in b.used
    && (doc.granted && !doc.hidden && b.now < doc.until ==>
          doc.tab in b.leases && b.leases[doc.tab] == Lease(d, doc.until))
    && (doc.phase.Ready? ==> (doc.granted || doc.hidden))
    && (!doc.phase.Ready? ==> !doc.granted && !doc.hidden)
  }

  ghost predicate Inv(b: Browser) {
    && (forall d | d in b.documents :: DocumentOk(b, d, b.documents[d]))
    && (forall t | t in b.released :: b.released[t] in b.documents && b.documents[b.released[t]].hidden)
    && (forall t | t in b.leases :: t in b.used && b.leases[t].document in b.documents)
    && (forall t | t in b.released :: t in b.used)
  }

  lemma GrantKeepsOther(b: Browser, d: nat, e: nat)
    requires Inv(b) && d in b.documents && Grants(b, b.documents[d].tab, d) && e in b.documents && e != d
    ensures DocumentOk(b.(leases := b.leases[b.documents[d].tab := Lease(d, b.now + LIFETIME)]), e, b.documents[e])
  {
    assert DocumentOk(b, e, b.documents[e]);
  }

  /** A granted request, and the phase the document moves to. */
  lemma GrantKeepsInv(b: Browser, d: nat, active: bool)
    requires Inv(b) && d in b.documents && Grants(b, b.documents[d].tab, d)
    ensures Inv(WithPhase(Asked(b, d), d, Ready, active))
  {
    var c := WithPhase(Asked(b, d), d, Ready, active);
    assert DocumentOk(c, d, c.documents[d]) by { assert DocumentOk(b, d, b.documents[d]); }
    forall e | e in c.documents && e != d ensures DocumentOk(c, e, c.documents[e]) {
      GrantKeepsOther(b, d, e);
    }
    assert b.documents[d].tab in b.used;
    hide DocumentOk, Grants;
  }

  lemma AskedKeepsInv(b: Browser, d: nat)
    requires Inv(b) && IsReady(b, d)
    ensures Inv(Asked(b, d))
  {
    if Grants(b, b.documents[d].tab, d) {
      var active := b.documents[d].active;
      GrantKeepsInv(b, d, active);
      assert Asked(b, d) == WithPhase(Asked(b, d), d, Ready, active);
    }
  }

  lemma PhaseKeepsInv(b: Browser, d: nat, active: bool)
    requires Inv(b) && IsReady(b, d)
    ensures Inv(WithPhase(b, d, Ready, active))
  {
    assert DocumentOk(b, d, b.documents[d]);
  }

  lemma ForkKeepsInv(b: Browser, d: nat, newTab: nat)
    requires Inv(b) && Trying(b, d) && newTab !in b.used
    ensures var c := b.(documents := b.documents[d := b.documents[d].(tab := newTab, forked := true)],
                        used := b.used + {newTab});
      Inv(c) && Grants(c, newTab, d)
  {
    assert DocumentOk(b, d, b.documents[d]);
  }

  lemma AttemptKeepsInv(b: Browser, d: nat, newTab: nat)
    requires Inv(b) && Trying(b, d) && newTab !in b.used
    ensures Inv(DoAttempt(b, d, newTab))
  {
    var doc := b.documents[d];
    if Grants(b, doc.tab, d) {
      GrantKeepsInv(b, d, true);
    } else if doc.phase.Second? {
      var forked := b.(documents := b.documents[d := doc.(tab := newTab, forked := true)], used := b.used + {newTab});
      ForkKeepsInv(b, d, newTab);
      GrantKeepsInv(forked, d, true);
    }
  }

  lemma StepKeepsInv(b: Browser, e: Event)
    requires Inv(b)
    ensures Inv(Step(b, e))
  {
    match e
    case Attempt(d, newTab) => if Trying(b, d) && newTab !in b.used { AttemptKeepsInv(b, d, newTab); }
    case Assert(d) => if IsReady(b, d) { AskedKeepsInv(b, d); }
    case Heartbeat(d) => if IsReady(b, d) {
      AskedKeepsInv(b, d);
      PhaseKeepsInv(Asked(b, d), d, Grants(b, b.documents[d].tab, d));
    }
    case Show(d) => if IsReady(b, d) {
      AskedKeepsInv(b, d);
      PhaseKeepsInv(Asked(b, d), d, Grants(b, b.documents[d].tab, d));
    }
    case _ =>
  }

  lemma {:induction false} RunKeepsInv(b: Browser, events: seq<Event>)
    requires Inv(b)
    ensures Inv(RunAll(b, events))
    decreases |events|
  {
    hide Inv, Step;
    if events != [] {
      StepKeepsInv(b, events[0]);
      RunKeepsInv(Step(b, events[0]), events[1..]);
    }
  }

  ghost predicate Reachable(b: Browser) { exists events :: b == RunAll(FRESH_BROWSER, events) }

  lemma ReachableIsGood(b: Browser)
    requires Reachable(b)
    ensures Inv(b)
  {
    var events :| b == RunAll(FRESH_BROWSER, events);
    RunKeepsInv(FRESH_BROWSER, events);
  }

  // What the leases promise ------------------------------------------------------------------------

  predicate Renewing(b: Browser, d: nat) { IsReady(b, d) && !b.documents[d].hidden && b.now < b.documents[d].until }

  /** A document that was never hidden and renews before its lease ends is never displaced: the store names it, and its
      next request is granted. */
  lemma NeverDisplaced(b: Browser, d: nat)
    requires Reachable(b) && Renewing(b, d)
    ensures var tab := b.documents[d].tab; tab in b.leases && b.leases[tab].document == d && Grants(b, tab, d)
  {
    ReachableIsGood(b);
    assert DocumentOk(b, d, b.documents[d]);
  }

  /** Meanwhile a later arrival with the same stored identity is refused at each attempt, and then
      forks to another one. */
  lemma LaterArrivalForks(b: Browser, d: nat, e: nat, newTab: nat)
    requires Reachable(b) && Renewing(b, d) && Trying(b, e) && b.documents[e].tab == b.documents[d].tab
               && newTab !in b.used
    ensures b.documents[d].tab in b.leases
    ensures var c := Step(b, Attempt(e, newTab));
      && b.documents[d].tab in c.leases && c.leases[b.documents[d].tab] == b.leases[b.documents[d].tab]
      && (b.documents[e].phase.First? ==> c.documents[e].phase.Second? && c.documents[e].tab == b.documents[e].tab)
      && (b.documents[e].phase.Second? ==>
            c.documents[e].phase.Ready? && c.documents[e].forked && c.documents[e].tab == newTab != b.documents[d].tab
            && newTab in c.leases && c.leases[newTab].document == e)
  {
    ReachableIsGood(b);
    assert DocumentOk(b, d, b.documents[d]) && DocumentOk(b, e, b.documents[e]) && d != e;
    assert newTab !in b.leases;
  }

  /** While a lease runs, someone else gets it exactly when its holder left a release marker for this tab, which only a
      holder that was hidden does. */
  lemma DisplacedIff(b: Browser, tab: nat, e: nat)
    requires Reachable(b) && tab in b.leases && b.leases[tab].document != e && b.now < b.leases[tab].until
    ensures Grants(b, tab, e) <==> tab in b.released && b.released[tab] == b.leases[tab].document
    ensures b.leases[tab].document in b.documents && (Grants(b, tab, e) ==> b.documents[b.leases[tab].document].hidden)
  {
    ReachableIsGood(b);
  }

  /** A successful assert means the store names the document as owner, for a full lifetime from now. */
  lemma AssertMeansOwner(b: Browser, d: nat)
    requires IsReady(b, d) && b.documents[d].active && Grants(b, b.documents[d].tab, d)
    ensures var c := Step(b, Assert(d)); var tab := c.documents[d].tab;
      tab in c.leases && c.leases[tab] == Lease(d, c.now + 30_000) && c.documents[d].until == c.now + 30_000
  {
  }

  // Taking a tab over ------------------------------------------------------------------------------

  predicate LeasesEnd(b: Browser) { forall t | t in b.leases :: b.leases[t].until <= b.now + 30_000 }

  lemma {:induction false} NoLeaseIsLonger(b: Browser, events: seq<Event>)
    requires LeasesEnd(b)
    ensures LeasesEnd(RunAll(b, events))
    decreases |events|
  {
    if events != [] { NoLeaseIsLonger(Step(b, events[0]), events[1..]); }
  }

  /** The document has the tab it was opened with, and a full lease of it. */
  predicate TookOver(b: Browser, c: Browser, d: nat) {
    && d in b.documents && d in c.documents
    && c.documents[d] == b.documents[d].(phase := Ready, active := true, granted := true, until := c.now + 30_000)
    && c.leases == b.leases[b.documents[d].tab := Lease(d, c.now + 30_000)]
  }

  /** A lease that is not renewed for its lifetime is anybody's, without a release marker. */
  lemma SilentHolderIsReplaced(b: Browser, ms: nat, e: nat, newTab: nat)
    requires Reachable(b) && Trying(b, e) && newTab !in b.used && ms >= 30_000
    ensures TookOver(b, Step(Step(b, Pass(ms)), Attempt(e, newTab)), e)
  {
    var events :| b == RunAll(FRESH_BROWSER, events);
    NoLeaseIsLonger(FRESH_BROWSER, events);
    GrantedTakesOver(Step(b, Pass(ms)), e, newTab);
  }

  /** A document goes, and the next one of its tab is opened. */
  function Reloaded(b: Browser, d: nat, e: nat, newTab: nat, released: bool): Browser
    requires IsReady(b, d)
  {
    var hidden := Step(b, Hide(d));
    var left := if released then Step(hidden, ReleaseLease(d)) else hidden;
    Step(left, Open(e, Some(b.documents[d].tab), newTab))
  }

  /** Reloading a page keeps its tab: the marker it leaves as it goes lets the next document have the tab at the first
      attempt, whether or not the asynchronous release was carried out as well. */
  lemma ReloadKeepsTheTab(b: Browser, d: nat, e: nat, tabs: (nat, nat), released: bool)
    requires Reachable(b) && IsReady(b, d) && e !in b.documents
    requires b.documents[d].tab in b.leases && b.leases[b.documents[d].tab].document == d
    requires tabs.0 !in b.used && tabs.1 !in b.used
    ensures var c, tab := Reloaded(b, d, e, tabs.0, released), b.documents[d].tab;
      && (tab in c.leases <==> !released)
      && e in c.documents && c.documents[e].tab == tab && !c.documents[e].forked
      && TookOver(c, Step(c, Attempt(e, tabs.1)), e)
  {
    ReachableIsGood(b);
    assert DocumentOk(b, d, b.documents[d]);
    var c, tab := Reloaded(b, d, e, tabs.0, released), b.documents[d].tab;
    assert Trying(c, e) && Grants(c, tab, e) && c.documents[e].tab == tab && tabs.1 !in c.used;
    hide Reloaded;
    GrantedTakesOver(c, e, tabs.1);
  }

  lemma GrantedTakesOver(b: Browser, d: nat, newTab: nat)
    requires Trying(b, d) && Grants(b, b.documents[d].tab, d) && newTab !in b.used
    ensures TookOver(b, Step(b, Attempt(d, newTab)), d)
  {
    hide Grants;
  }

  /** A release deletes the lease of its own document only. */
  lemma ReleaseIsOwn(b: Browser, d: nat, tab: nat)
    requires tab in b.leases && b.leases[tab].document != d
    ensures var c := Step(b, ReleaseLease(d)); tab in c.leases && c.leases[tab] == b.leases[tab]
  {
  }

  /** A beat or being shown leaves a document active exactly when the store names it then, and a document whose tab went
      to another is told so and takes nothing back. */
  lemma BeatTells(b: Browser, d: nat, e: Event)
    requires IsReady(b, d) && (e == Show(d) || (e == Heartbeat(d) && b.documents[d].active))
    ensures var c, tab := Step(b, e), b.documents[d].tab;
      && c.documents[d].active == (tab in c.leases && c.leases[tab].document == d)
      && (c.documents[d].active ==> c.leases == b.leases[tab := Lease(d, b.now + 30_000)])
      && (!c.documents[d].active ==>
            c.leases == b.leases && c.documents == b.documents[d := b.documents[d].(active := false)])
  {
  }

  /** A document that was displaced stays out: no beat or check of its own brings the tab back while the new holder's
      lease runs and that was not hidden. */
  lemma DisplacedStaysOut(b: Browser, d: nat, e: nat)
    requires Reachable(b) && IsReady(b, d) && Renewing(b, e) && d != e && b.documents[d].tab == b.documents[e].tab
    ensures forall event | event == Heartbeat(d) || event == Show(d) || event == Assert(d) ::
              Step(b, event).leases == b.leases
    ensures b.documents[d].active ==> !Step(b, Heartbeat(d)).documents[d].active
  {
    NeverDisplaced(b, e);
    ReachableIsGood(b);
  }

  const SHOWN_AGAIN := [Open(0, None, 5), Attempt(0, 6), Hide(0), Show(0), Open(1, Some(5), 7), Attempt(1, 8)]

  /** The release marker outlives a hide: a document shown again, active and within its lease, loses
      its tab to a copy. */
  lemma ShownAgainYetDisplaced()
    ensures var b := RunAll(FRESH_BROWSER, SHOWN_AGAIN);
      && 0 in b.documents && b.documents[0].active && b.now < b.documents[0].until
      && b.documents[0].tab in b.leases && b.leases[b.documents[0].tab].document == 1
  {
    var b1 := Step(FRESH_BROWSER, SHOWN_AGAIN[0]);
    var b2 := Step(b1, SHOWN_AGAIN[1]);
    var b3 := Step(b2, SHOWN_AGAIN[2]);
    var b4 := Step(b3, SHOWN_AGAIN[3]);
    var b5 := Step(b4, SHOWN_AGAIN[4]);
    var b6 := Step(b5, SHOWN_AGAIN[5]);
    Unroll(FRESH_BROWSER, SHOWN_AGAIN, 0, b1); Unroll(b1, SHOWN_AGAIN, 1, b2); Unroll(b2, SHOWN_AGAIN, 2, b3);
    Unroll(b3, SHOWN_AGAIN, 3, b4); Unroll(b4, SHOWN_AGAIN, 4, b5); Unroll(b5, SHOWN_AGAIN, 5, b6);
    assert SHOWN_AGAIN[0..] == SHOWN_AGAIN && SHOWN_AGAIN[6..] == [];
  }

  lemma Unroll(b: Browser, events: seq<Event>, i: nat, c: Browser)
    requires i < |events| && c == Step(b, events[i])
    ensures RunAll(b, events[i..]) == RunAll(c, events[i + 1..])
  {
    assert events[i..][1..] == events[i + 1..];
  }

  // The documents over the shared store ----------------------------------------------------------------

  class SharedStore {
    var now: nat
    var leases: map<nat, Lease>
    var released: map<nat, nat>
    var documents: map<nat, Document>
    ghost var used: set<nat>

    ghost function State(): Browser
      reads this
    {
      Browser(now, leases, released, documents, used)
    }

    constructor ()
      ensures State() == FRESH_BROWSER
    {
      now, leases, released, documents, used := 0, map[], map[], map[], {};
    }

    /** The read-and-write transaction of one document. */
    method RequestLease(d: nat) returns (accepted: bool)
      requires d in documents
      modifies `leases, `documents
      ensures State() == Asked(old(State()), d) && accepted == Grants(old(State()), old(documents)[d].tab, d)
    {
      var doc := documents[d];
      var free := doc.tab !in leases;
      if !free {
        var current := leases[doc.tab];
        free := current.document == d || (doc.tab in released && current.document == released[doc.tab])
            || current.until <= now;
      }
      if free {
        leases := leases[doc.tab := Lease(d, now + LIFETIME)];
        documents := documents[d := doc.(granted := true, until := now + LIFETIME)];
      }
      return free;
    }

    method TryToAcquire(d: nat, newTab: nat) returns (settled: bool)
      requires Trying(State(), d) && newTab !in used
      modifies this
      ensures State() == Step(old(State()), Attempt(d, newTab))
      ensures settled == documents[d].phase.Ready?
    {
      var first := documents[d].phase.First?;
      var owned := RequestLease(d);
      if !owned && first {
        documents := documents[d := documents[d].(phase := Second, active := false)];
        return false;
      }
      if !owned {
        documents := documents[d := documents[d].(tab := newTab, forked := true)];
        used := used + {newTab};
        var again := RequestLease(d);
      }
      documents := documents[d := documents[d].(phase := Ready, active := true)];
      return true;
    }

    method AssertOwner(d: nat) returns (ok: bool)
      requires IsReady(State(), d)
      modifies this
      ensures State() == Step(old(State()), Assert(d))
      ensures ok ==> documents[d].tab in leases && leases[documents[d].tab].document == d
      ensures ok <==> old(documents)[d].active && Grants(old(State()), old(documents)[d].tab, d)
    {
      if !documents[d].active { return false; }
      ok := RequestLease(d);
    }

    method Beat(d: nat)
      requires IsReady(State(), d)
      modifies this
      ensures State() == Step(old(State()), Heartbeat(d))
    {
      if !documents[d].active { return; }
      var ok := RequestLease(d);
      documents := documents[d := documents[d].(phase := Ready, active := ok)];
    }

    method HidePage(d: nat)
      requires IsReady(State(), d)
      modifies this
      ensures State() == Step(old(State()), Hide(d))
    {
      released := released[documents[d].tab := d];
      documents := documents[d := documents[d].(active := false, hidden := true)];
    }

    method ShowPage(d: nat)
      requires IsReady(State(), d)
      modifies this
      ensures State() == Step(old(State()), Show(d))
    {
      var ok := RequestLease(d);
      documents := documents[d := documents[d].(phase := Ready, active := ok)];
    }
  }
}
