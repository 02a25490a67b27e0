/** Images observed in a run: the bounded accumulator of one prompt, and the per-run record
    (crates/rovai-core/src/agent_run_image.rs:255-350, 465-595). */
module ImageQuota {
  import opened Options

  const MAX_RUN_IMAGES := 20
  const MAX_IMAGE_BYTES := 20 * 1024 * 1024
  const MAX_RUN_BYTES := 100 * 1024 * 1024
  const MAX_RETAINED := (MAX_RUN_BYTES + 2) / 3 * 4 // as base64

  // Inline data stands for its digest; an image is known by the digest, or else by its path.
  datatype Data = Data(digest: nat, size: nat)
  datatype Image = Image(data: Option<Data>, path: Option<nat>)
  datatype ImageKey = ByData(digest: nat) | ByPath(path: nat)

  predicate HasSource(i: Image) { i.data.Some? || i.path.Some? }

  function KeyOf(i: Image): ImageKey {
    if i.data.Some? then ByData(i.data.value.digest) else if i.path.Some? then ByPath(i.path.value) else ByPath(0)
  }

  function SizeOf(i: Image): nat { if i.data.Some? then i.data.value.size else 0 }

  function SizesOf(images: seq<Image>): nat {
    if images == [] then 0 else SizesOf(images[..|images| - 1]) + SizeOf(images[|images| - 1])
  }

  datatype Accepted = Accepted(tool: nat, image: Image)

  function PairOf(a: Accepted): (nat, ImageKey) { (a.tool, KeyOf(a.image)) }

  /** The images of one tool, in order of arrival. */
  function OfTool(accepted: seq<Accepted>, tool: nat): seq<Image> {
    if accepted == [] then []
    else
      var rest := OfTool(accepted[..|accepted| - 1], tool);
      if accepted[|accepted| - 1].tool == tool then rest + [accepted[|accepted| - 1].image] else rest
  }

  function WithoutTool(accepted: seq<Accepted>, tool: nat): seq<Accepted> {
    if accepted == [] then []
    else
      var rest := WithoutTool(accepted[..|accepted| - 1], tool);
      if accepted[|accepted| - 1].tool == tool then rest else rest + [accepted[|accepted| - 1]]
  }

  function AcceptedSizes(accepted: seq<Accepted>): nat {
    if accepted == [] then 0 else AcceptedSizes(accepted[..|accepted| - 1]) + SizeOf(accepted[|accepted| - 1].image)
  }

  function Tagged(tool: nat, images: seq<Image>): (r: seq<Accepted>)
    ensures |r| == |images| && forall i | 0 <= i < |r| :: r[i] == Accepted(tool, images[i])
  {
    seq(|images|, i requires 0 <= i < |images| => Accepted(tool, images[i]))
  }

  predicate NoPairTwice(accepted: seq<Accepted>) {
    forall i, j | 0 <= i < j < |accepted| :: PairOf(accepted[i]) != PairOf(accepted[j])
  }

  function PairsOf(accepted: seq<Accepted>): set<(nat, ImageKey)> {
    set i | 0 <= i < |accepted| :: PairOf(accepted[i])
  }

  // Facts about these sequences --------------------------------------------------------------------

  lemma {:induction false} OfToolAppend(a: seq<Accepted>, b: seq<Accepted>, tool: nat)
    ensures OfTool(a + b, tool) == OfTool(a, tool) + OfTool(b, tool)
  {
    if b == [] {
      assert a + b == a;
    } else {
      var init, last := b[..|b| - 1], b[|b| - 1];
      OfToolAppend(a, init, tool);
      assert (a + b)[..|a + b| - 1] == a + init && (a + b)[|a + b| - 1] == last;
    }
  }

  lemma {:induction false} OfToolTagged(tool: nat, images: seq<Image>, other: nat)
    ensures OfTool(Tagged(tool, images), other) == if other == tool then images else []
  {
    if images != [] {
      var init := images[..|images| - 1];
      OfToolTagged(tool, init, other);
      assert Tagged(tool, images)[..|images| - 1] == Tagged(tool, init);
      assert images == init + [images[|images| - 1]];
    }
  }

  lemma {:induction false} WithoutOf(accepted: seq<Accepted>, tool: nat, other: nat)
    ensures OfTool(WithoutTool(accepted, tool), other) == if other == tool then [] else OfTool(accepted, other)
  {
    if accepted != [] {
      var init, last := accepted[..|accepted| - 1], accepted[|accepted| - 1];
      WithoutOf(init, tool, other);
      if last.tool != tool {
        OfToolAppend(WithoutTool(init, tool), [last], other);
        assert OfTool([last], other) == if last.tool == other then [last.image] else [];
      }
    }
  }

  lemma {:induction false} SizesSplit(accepted: seq<Accepted>, tool: nat)
    ensures AcceptedSizes(WithoutTool(accepted, tool)) + SizesOf(OfTool(accepted, tool)) == AcceptedSizes(accepted)
  {
    if accepted != [] {
      var init, last := accepted[..|accepted| - 1], accepted[|accepted| - 1];
      SizesSplit(init, tool);
      if last.tool == tool {
        assert (OfTool(init, tool) + [last.image])[..|OfTool(init, tool)|] == OfTool(init, tool);
      } else {
        assert (WithoutTool(init, tool) + [last])[..|WithoutTool(init, tool)|] == WithoutTool(init, tool);
      }
    }
  }

  lemma {:induction false} PairsCount(accepted: seq<Accepted>)
    requires NoPairTwice(accepted)
    ensures |PairsOf(accepted)| == |accepted|
  {
    if accepted != [] {
      var init, last := accepted[..|accepted| - 1], accepted[|accepted| - 1];
      PairsCount(init);
      assert PairsOf(accepted) == PairsOf(init) + {PairOf(last)} && PairOf(last) !in PairsOf(init);
    }
  }

  lemma OneMorePair(accepted: seq<Accepted>, a: Accepted)
    requires NoPairTwice(accepted) && PairOf(a) !in PairsOf(accepted)
    ensures NoPairTwice(accepted + [a]) && PairsOf(accepted + [a]) == PairsOf(accepted) + {PairOf(a)}
  {
    var all := accepted + [a];
    forall i, j | 0 <= i < j < |all| ensures PairOf(all[i]) != PairOf(all[j]) {
      if j == |accepted| { assert PairOf(accepted[i]) in PairsOf(accepted); }
    }
    forall p | p in PairsOf(all) ensures p in PairsOf(accepted) + {PairOf(a)} {
      var i :| 0 <= i < |all| && PairOf(all[i]) == p;
      if i < |accepted| { assert PairOf(accepted[i]) in PairsOf(accepted); }
    }
    forall p | p in PairsOf(accepted) + {PairOf(a)} ensures p in PairsOf(all) {
      if p == PairOf(a) { assert all[|accepted|] == a; }
      else { var i :| 0 <= i < |accepted| && PairOf(accepted[i]) == p; assert all[i] == accepted[i]; }
    }
  }

  // AcpImageAccumulator ----------------------------------------------------------------------------

  /** The counter is the total length of the data held, and each tool holds its images in order of arrival. */
  ghost predicate HeldOk(tools: map<nat, seq<Image>>, retained: nat, held: seq<Accepted>) {
    && retained == AcceptedSizes(held) && retained <= MAX_RETAINED
    && (forall t :: t in tools <==> OfTool(held, t) != [])
    && (forall t | t in tools :: tools[t] == OfTool(held, t))
  }

  /** Tool by tool, the images emitted and then those held are those accepted, in order. */
  ghost predicate HistoryOk(emitted: seq<Accepted>, held: seq<Accepted>, accepted: seq<Accepted>) {
    forall t :: OfTool(emitted, t) + OfTool(held, t) == OfTool(accepted, t)
  }

  /** No pair of a tool and an image is accepted twice, and at most twenty are. */
  ghost predicate QuotaOk(seen: set<(nat, ImageKey)>, accepted: seq<Accepted>) {
    NoPairTwice(accepted) && seen == PairsOf(accepted) && |accepted| <= MAX_RUN_IMAGES
  }

  lemma OneMore(all: seq<Accepted>, a: Accepted)
    ensures AcceptedSizes(all + [a]) == AcceptedSizes(all) + SizeOf(a.image)
    ensures forall t :: OfTool(all + [a], t) == OfTool(all, t) + (if t == a.tool then [a.image] else [])
  {
    assert (all + [a])[..|all|] == all;
  }

  lemma TakenHeld(tools: map<nat, seq<Image>>, retained: nat, held: seq<Accepted>, a: Accepted)
    requires HeldOk(tools, retained, held) && retained + SizeOf(a.image) <= MAX_RETAINED
    ensures HeldOk(tools[a.tool := Held(tools, a.tool) + [a.image]],
                   retained + SizeOf(a.image), held + [a])
  {
    OneMore(held, a);
    hide OfTool, AcceptedSizes;
  }

  lemma TakenHistory(emitted: seq<Accepted>, held: seq<Accepted>, accepted: seq<Accepted>, a: Accepted)
    requires HistoryOk(emitted, held, accepted)
    ensures HistoryOk(emitted, held + [a], accepted + [a])
  {
    OneMore(held, a);
    OneMore(accepted, a);
    hide OfTool, AcceptedSizes;
    forall t ensures OfTool(emitted, t) + OfTool(held + [a], t) == OfTool(accepted + [a], t) {
      var own := if t == a.tool then [a.image] else [];
      assert OfTool(emitted, t) + (OfTool(held, t) + own) == (OfTool(emitted, t) + OfTool(held, t)) + own;
    }
  }

  lemma {:induction false} EmittedHeld(tools: map<nat, seq<Image>>, retained: nat, held: seq<Accepted>, tool: nat)
    requires HeldOk(tools, retained, held) && tool in tools
    ensures SizesOf(tools[tool]) <= retained
    ensures HeldOk(tools - {tool}, retained - SizesOf(tools[tool]), WithoutTool(held, tool))
  {
    SizesSplit(held, tool);
    var tools', held' := tools - {tool}, WithoutTool(held, tool);
    forall t
      ensures t in tools' <==> OfTool(held', t) != []
      ensures t in tools' ==> tools'[t] == OfTool(held', t)
    {
      WithoutOf(held, tool, t);
    }
    hide OfTool, WithoutTool, AcceptedSizes, SizesOf;
  }

  lemma EmittedHistory(emitted: seq<Accepted>, held: seq<Accepted>, accepted: seq<Accepted>, tool: nat)
    requires HistoryOk(emitted, held, accepted)
    ensures HistoryOk(emitted + Tagged(tool, OfTool(held, tool)), WithoutTool(held, tool), accepted)
    ensures OfTool(emitted + Tagged(tool, OfTool(held, tool)), tool) == OfTool(accepted, tool)
  {
    var out := OfTool(held, tool);
    forall t
      ensures OfTool(WithoutTool(held, tool), t) == (if t == tool then [] else OfTool(held, t))
      ensures OfTool(emitted + Tagged(tool, out), t) == OfTool(emitted, t) + (if t == tool then out else [])
    {
      WithoutOf(held, tool, t);
      OfToolAppend(emitted, Tagged(tool, out), t);
      OfToolTagged(tool, out, t);
    }
    hide OfTool, WithoutTool;
    assert OfTool(emitted, tool) + out == OfTool(accepted, tool);
  }

  function SatSub(a: nat, b: nat): nat { if b <= a then a - b else 0 }

  /** Fewer than twenty pairs so far, room for the data of one more, which counts by its length in base64, and a pair
      not seen before. */
  ghost predicate Admits(accepted: seq<Accepted>, retained: nat, a: Accepted) {
    && |accepted| < 20 && PairOf(a) !in PairsOf(accepted)
    && (if a.image.data.Some? then retained + a.image.data.value.size else retained) <= 139_810_136
  }

  /** Images with data are told apart by their digest, whatever their paths, and others by their path. */
  lemma SamePairIff(a: Accepted, b: Accepted)
    requires HasSource(a.image) && HasSource(b.image)
    ensures PairOf(a) == PairOf(b) <==>
      && a.tool == b.tool && (a.image.data.Some? <==> b.image.data.Some?)
      && (if a.image.data.Some? && b.image.data.Some? then a.image.data.value.digest == b.image.data.value.digest
          else a.image.path == b.image.path)
  {
  }

  lemma TakenQuota(seen: set<(nat, ImageKey)>, accepted: seq<Accepted>, a: Accepted)
    requires QuotaOk(seen, accepted) && |accepted| < MAX_RUN_IMAGES && PairOf(a) !in PairsOf(accepted)
    ensures QuotaOk(seen + {PairOf(a)}, accepted + [a])
  {
    OneMorePair(accepted, a);
    hide PairsOf, NoPairTwice;
  }

  lemma RefusesIff(seen: set<(nat, ImageKey)>, accepted: seq<Accepted>, retained: nat, a: Accepted)
    requires QuotaOk(seen, accepted)
    ensures Refuses(seen, retained, PairOf(a), SizeOf(a.image)) <==> !Admits(accepted, retained, a)
  {
    PairsCount(accepted);
    hide PairsOf, NoPairTwice;
  }

  predicate Refuses(seen: set<(nat, ImageKey)>, retained: nat, key: (nat, ImageKey), size: nat) {
    |seen| >= MAX_RUN_IMAGES || retained + size > MAX_RETAINED || key in seen
  }

  function Held(tools: map<nat, seq<Image>>, tool: nat): seq<Image> { if tool in tools then tools[tool] else [] }

  // The accumulator with its history: everything accepted, what of it is still held, what was emitted.
  datatype State = State(tools: map<nat, seq<Image>>, seen: set<(nat, ImageKey)>, retained: nat,
                         accepted: seq<Accepted>, held: seq<Accepted>, emitted: seq<Accepted>)

  ghost predicate Ok(s: State) {
    HeldOk(s.tools, s.retained, s.held) && HistoryOk(s.emitted, s.held, s.accepted) && QuotaOk(s.seen, s.accepted)
  }

  function Taken(s: State, a: Accepted): State {
    s.(tools := s.tools[a.tool := Held(s.tools, a.tool) + [a.image]], seen := s.seen + {PairOf(a)},
       retained := s.retained + SizeOf(a.image), accepted := s.accepted + [a], held := s.held + [a])
  }

  function AfterTaking(s: State, a: Accepted): State {
    if Refuses(s.seen, s.retained, PairOf(a), SizeOf(a.image)) then s else Taken(s, a)
  }

  lemma TakenKeeps(s: State, a: Accepted)
    requires Ok(s) && Admits(s.accepted, s.retained, a)
    ensures Ok(Taken(s, a)) && Taken(s, a).accepted == s.accepted + [a]
  {
    TakenQuota(s.seen, s.accepted, a);
    TakenHeld(s.tools, s.retained, s.held, a);
    TakenHistory(s.emitted, s.held, s.accepted, a);
    hide HeldOk, HistoryOk, QuotaOk, Admits, PairOf, SizeOf;
  }

  /** An image is taken in exactly when there is room for one more pair and the pair was not accepted before. */
  lemma TakingKeeps(s: State, a: Accepted)
    requires Ok(s)
    ensures Ok(AfterTaking(s, a))
    ensures AfterTaking(s, a).accepted == if Admits(s.accepted, s.retained, a) then s.accepted + [a] else s.accepted
  {
    RefusesIff(s.seen, s.accepted, s.retained, a);
    hide Ok, Refuses, Admits, Taken, PairOf, SizeOf;
    if Admits(s.accepted, s.retained, a) { TakenKeeps(s, a); }
  }

  /** The images of an update before the first without a source, which ends it. */
  function Sourced(images: seq<Image>): (r: seq<Image>)
    ensures |r| <= |images| && r == images[..|r|]
    ensures forall i | 0 <= i < |r| :: HasSource(r[i])
    ensures |r| < |images| ==> !HasSource(images[|r|])
  {
    if images == [] || !HasSource(images[0]) then [] else [images[0]] + Sourced(images[1..])
  }

  /** The images of one update taken in one after the other. */
  function AfterTakingAll(s: State, tool: nat, images: seq<Image>): State {
    if images == [] then s
    else AfterTaking(AfterTakingAll(s, tool, images[..|images| - 1]), Accepted(tool, images[|images| - 1]))
  }

  lemma TakingOne(s: State, a: Accepted)
    requires Ok(s)
    ensures Ok(AfterTaking(s, a)) && AfterTaking(s, a).emitted == s.emitted
    ensures AfterTaking(s, a).accepted == if Admits(s.accepted, s.retained, a) then s.accepted + [a] else s.accepted
    ensures PairOf(a) in PairsOf(AfterTaking(s, a).accepted) || |s.accepted| == 20
         || s.retained + SizeOf(a.image) > 139_810_136
  {
    TakingKeeps(s, a);
    assert |s.accepted| <= 20;
    hide Ok, PairOf;
    if Admits(s.accepted, s.retained, a) { assert AfterTaking(s, a).accepted[|s.accepted|] == a; }
  }

  lemma {:induction false} TakingAllKeeps(s: State, tool: nat, images: seq<Image>)
    requires Ok(s)
    ensures Ok(AfterTakingAll(s, tool, images)) && AfterTakingAll(s, tool, images).emitted == s.emitted
  {
    hide Ok, AfterTaking;
    if images != [] {
      var init := images[..|images| - 1];
      TakingAllKeeps(s, tool, init);
      TakingOne(AfterTakingAll(s, tool, init), Accepted(tool, images[|images| - 1]));
    }
  }

  /** Each image of an update in turn, and none is lost: it is known afterwards unless there was no room for it. */
  lemma TakenInTurn(s: State, tool: nat, images: seq<Image>, i: nat)
    requires Ok(s) && i < |images|
    ensures var a, before, after := Accepted(tool, images[i]), AfterTakingAll(s, tool, images[..i]).accepted,
                                    AfterTakingAll(s, tool, images[..i + 1]).accepted;
      && after == (if Admits(before, AfterTakingAll(s, tool, images[..i]).retained, a) then before + [a] else before)
      && (PairOf(a) in PairsOf(after) || |before| == 20
          || AfterTakingAll(s, tool, images[..i]).retained + SizeOf(images[i]) > 139_810_136)
  {
    hide Ok, AfterTaking, Admits, PairOf, PairsOf, SizeOf;
    TakingAllKeeps(s, tool, images[..i]);
    assert images[..i + 1][..i] == images[..i];
    TakingOne(AfterTakingAll(s, tool, images[..i]), Accepted(tool, images[i]));
  }

  function AfterEmitting(s: State, tool: nat): State
    requires tool in s.tools
  {
    s.(tools := s.tools - {tool}, retained := SatSub(s.retained, SizesOf(s.tools[tool])),
       held := WithoutTool(s.held, tool), emitted := s.emitted + Tagged(tool, s.tools[tool]))
  }

  /** A terminal update emits all that was accepted for its tool and not emitted before, in order of arrival. */
  lemma EmittingKeeps(s: State, tool: nat)
    requires Ok(s)
    ensures OfTool(s.accepted, tool) == OfTool(s.emitted, tool) + Held(s.tools, tool)
    ensures tool in s.tools <==> OfTool(s.accepted, tool) != OfTool(s.emitted, tool)
    ensures tool in s.tools ==> Ok(AfterEmitting(s, tool)) && s.tools[tool] != []
  {
    ToolHeld(s.tools, s.retained, s.held, s.emitted, s.accepted, tool);
    if tool in s.tools {
      EmittedHeld(s.tools, s.retained, s.held, tool);
      EmittedHistory(s.emitted, s.held, s.accepted, tool);
    }
    hide HeldOk, HistoryOk, QuotaOk, OfTool, WithoutTool, SizesOf;
  }

  class Accumulator {
    var tools: map<nat, seq<Image>>
    var seen: set<(nat, ImageKey)>
    var retained: nat
    ghost var accepted: seq<Accepted>
    ghost var held: seq<Accepted>
    ghost var emitted: seq<Accepted>

    ghost function Contents(): State
      reads this
    {
      State(tools, seen, retained, accepted, held, emitted)
    }

    ghost predicate Valid()
      reads this
    {
      Ok(Contents())
    }

    constructor ()
      ensures Valid() && accepted == [] && emitted == [] && tools == map[]
    {
      tools, seen, retained := map[], {}, 0;
      accepted, held, emitted := [], [], [];
    }

    method TakeIn(tool: nat, image: Image)
      modifies this
      ensures Contents() == AfterTaking(old(Contents()), Accepted(tool, image))
    {
      var a := Accepted(tool, image);
      var key, size := PairOf(a), SizeOf(image);
      hide PairOf, SizeOf, Refuses, Held;
      if Refuses(seen, retained, key, size) { return; }
      seen := seen + {key};
      retained := retained + size;
      tools := tools[tool := Held(tools, tool) + [image]];
      accepted, held := accepted + [a], held + [a];
    }

    method Emit(tool: nat) returns (images: seq<Image>)
      requires tool in tools
      modifies this
      ensures Contents() == AfterEmitting(old(Contents()), tool) && images == old(tools)[tool]
    {
      images := tools[tool];
      tools := tools - {tool};
      retained := SatSub(retained, SizesOf(images));
      emitted, held := emitted + Tagged(tool, images), WithoutTool(held, tool);
    }

    /** observe: take in the images of an update; at a tool's terminal update, emit everything accepted for it that was
        not emitted before, in order. An image without a source ends the update early; no extractor produces one. */
    method Observe(tool: nat, images: seq<Image>, terminal: bool) returns (emission: Option<seq<Image>>)
      requires Valid()
      modifies this
      ensures Valid() && old(accepted) <= accepted
      ensures accepted == AfterTakingAll(old(Contents()), tool, Sourced(images)).accepted
      ensures forall i | |old(accepted)| <= i < |accepted| :: accepted[i].tool == tool && accepted[i].image in images
      ensures emission.Some? ==>
        && terminal && emission.value != [] && emitted == old(emitted) + Tagged(tool, emission.value)
        && OfTool(accepted, tool) == OfTool(old(emitted), tool) + emission.value && tool !in tools
      ensures var s := AfterTakingAll(old(Contents()), tool, Sourced(images));
        if emission.Some? then tool in s.tools && Contents() == AfterEmitting(s, tool) else Contents() == s
      ensures emission.None? ==> emitted == old(emitted)
      ensures terminal && (forall i | 0 <= i < |images| :: HasSource(images[i])) ==>
        (emission.None? <==> OfTool(accepted, tool) == OfTool(old(emitted), tool))
    {
      hide Ok, OfTool, AfterTaking, AfterTakingAll, Sourced;
      TakeInAll(tool, images);
      if exists i | 0 <= i < |images| :: !HasSource(images[i]) { return None; }
      EmittingKeeps(Contents(), tool);
      if !terminal || tool !in tools { return None; }
      var out := Emit(tool);
      return Some(out);
    }

    /** Up to the first image without a source. */
    method TakeInAll(tool: nat, images: seq<Image>)
      requires Valid()
      modifies this
      ensures Valid() && old(accepted) <= accepted && emitted == old(emitted)
      ensures Contents() == AfterTakingAll(old(Contents()), tool, Sourced(images))
      ensures forall i | |old(accepted)| <= i < |accepted| :: accepted[i].tool == tool && accepted[i].image in images
    {
      hide Ok, Admits, Refuses, Held;
      var i := 0;
      while i < |images| && HasSource(images[i])
        invariant 0 <= i <= |images| && Valid() && emitted == old(emitted) && old(accepted) <= accepted
        invariant i <= |Sourced(images)| && Contents() == AfterTakingAll(old(Contents()), tool, images[..i])
        invariant forall k | |old(accepted)| <= k < |accepted| ::
                    accepted[k].tool == tool && accepted[k].image in images
      {
        assert images[..i + 1][..i] == images[..i];
        TakingKeeps(Contents(), Accepted(tool, images[i]));
        TakeIn(tool, images[i]);
        i := i + 1;
      }
    }
  }

  lemma ToolHeld(tools: map<nat, seq<Image>>, retained: nat, held: seq<Accepted>, emitted: seq<Accepted>,
                 accepted: seq<Accepted>, tool: nat)
    requires HeldOk(tools, retained, held) && HistoryOk(emitted, held, accepted)
    ensures OfTool(accepted, tool) == OfTool(emitted, tool) + OfTool(held, tool)
    ensures tool in tools <==> OfTool(held, tool) != []
    ensures tool in tools ==> tools[tool] == OfTool(held, tool)
    ensures OfTool(held, tool) == [] <==> OfTool(accepted, tool) == OfTool(emitted, tool)
  {
    var e, h := OfTool(emitted, tool), OfTool(held, tool);
    assert |e + h| == |e| + |h|;
    if h == [] { assert e + h == e; }
    hide OfTool, AcceptedSizes;
  }

  // record_images ----------------------------------------------------------------------------------

  // A candidate once read. None when it has no readable local source or cannot be decoded.
  datatype Candidate = Candidate(key: nat, size: nat)
  datatype Record = Record(epoch: nat, tool: nat, key: nat, size: nat)

  function Sizes(records: seq<Record>): nat {
    if records == [] then 0 else Sizes(records[..|records| - 1]) + records[|records| - 1].size
  }

  predicate Recorded(records: seq<Record>, epoch: nat, tool: nat, key: nat) {
    exists i | 0 <= i < |records| :: records[i].epoch == epoch && records[i].tool == tool && records[i].key == key
  }

  predicate NoRecordTwice(records: seq<Record>) {
    forall i, j | 0 <= i < j < |records| ::
      !(records[i].epoch == records[j].epoch && records[i].tool == records[j].tool && records[i].key == records[j].key)
  }

  /** The quotas of a run: twenty images, 100 MiB, none empty or over 20 MiB, none twice in one tool call. */
  ghost predicate WithinQuota(records: seq<Record>) {
    && |records| <= 20 && Sizes(records) <= 104_857_600 && NoRecordTwice(records)
    && forall i | 0 <= i < |records| :: 0 < records[i].size <= 20_971_520
  }

  predicate Fits(records: seq<Record>, epoch: nat, tool: nat, c: Option<Candidate>) {
    && |records| < MAX_RUN_IMAGES && c.Some? && 0 < c.value.size <= MAX_IMAGE_BYTES
    && Sizes(records) + c.value.size <= MAX_RUN_BYTES && !Recorded(records, epoch, tool, c.value.key)
  }

  /** The records of a run after an observation: the candidates that fit, one after the other. */
  function AfterRecording(records: seq<Record>, epoch: nat, tool: nat,
                          candidates: seq<Option<Candidate>>): seq<Record> {
    if candidates == [] then records
    else
      var before := AfterRecording(records, epoch, tool, candidates[..|candidates| - 1]);
      var c := candidates[|candidates| - 1];
      if Fits(before, epoch, tool, c) then before + [Record(epoch, tool, c.value.key, c.value.size)] else before
  }

  method RecordImages(records: seq<Record>, live: bool, epoch: nat, tool: nat, candidates: seq<Option<Candidate>>)
    returns (after: seq<Record>, inserted: nat)
    requires WithinQuota(records)
    ensures WithinQuota(after) && records <= after && inserted == |after| - |records|
    ensures after == if live then AfterRecording(records, epoch, tool, Considered(candidates)) else records
  {
    hide WithinQuota, Recorded, Sizes;
    after, inserted := records, 0;
    QuotaFacts(records);
    if !live { return; }
    var taken := Considered(candidates);
    var count, total := |records|, Sizes(records);
    var i := 0;
    while i < |taken|
      invariant 0 <= i <= |taken| && WithinQuota(after) && records <= after
      invariant count == |after| && total == Sizes(after) && inserted == |after| - |records|
      invariant after == AfterRecording(records, epoch, tool, taken[..i])
    {
      if count >= MAX_RUN_IMAGES {
        FullStaysFull(records, epoch, tool, taken, i);
        return;
      }
      assert taken[..i + 1][..i] == taken[..i];
      var c := taken[i];
      if c.Some? && c.value.size != 0 && c.value.size <= MAX_IMAGE_BYTES && total + c.value.size <= MAX_RUN_BYTES
         && !Recorded(after, epoch, tool, c.value.key) {
        ghost var before := after;
        after := after + [Record(epoch, tool, c.value.key, c.value.size)];
        OneMoreRecord(before, Record(epoch, tool, c.value.key, c.value.size));
        QuotaFacts(after);
        count, total, inserted := count + 1, total + c.value.size, inserted + 1;
      }
      i := i + 1;
    }
    assert taken[..i] == taken;
  }

  // Only the first twenty candidates are looked at.
  function Considered(candidates: seq<Option<Candidate>>): seq<Option<Candidate>> {
    if |candidates| > MAX_RUN_IMAGES then candidates[..MAX_RUN_IMAGES] else candidates
  }

  lemma QuotaFacts(records: seq<Record>)
    requires WithinQuota(records)
    ensures |records| <= MAX_RUN_IMAGES && Sizes(records) <= MAX_RUN_BYTES
  {
  }

  lemma OneMoreRecord(records: seq<Record>, r: Record)
    requires WithinQuota(records) && |records| < MAX_RUN_IMAGES && 0 < r.size <= MAX_IMAGE_BYTES
    requires Sizes(records) + r.size <= MAX_RUN_BYTES && !Recorded(records, r.epoch, r.tool, r.key)
    ensures WithinQuota(records + [r]) && Sizes(records + [r]) == Sizes(records) + r.size
  {
    assert (records + [r])[..|records|] == records;
  }

  lemma {:induction false} FullStaysFull(records: seq<Record>, epoch: nat, tool: nat,
                                         candidates: seq<Option<Candidate>>, i: nat)
    requires i <= |candidates| && |AfterRecording(records, epoch, tool, candidates[..i])| >= MAX_RUN_IMAGES
    ensures AfterRecording(records, epoch, tool, candidates) == AfterRecording(records, epoch, tool, candidates[..i])
    decreases |candidates|
  {
    if i < |candidates| {
      var init := candidates[..|candidates| - 1];
      assert init[..i] == candidates[..i];
      FullStaysFull(records, epoch, tool, init, i);
    } else {
      assert candidates[..i] == candidates;
    }
  }

  predicate Readable(c: Option<Candidate>) { c.Some? && 0 < c.value.size <= 20_971_520 }

  /** Which of the candidates are recorded: a readable one is, as it stands and in its turn, unless it was recorded
      before, the run has twenty images, or it would pass 100 MiB; any other changes nothing. */
  lemma {:induction false} RecordedInTurn(records: seq<Record>, epoch: nat, tool: nat,
                                          candidates: seq<Option<Candidate>>, i: nat)
    requires i < |candidates|
    ensures var before, after := AfterRecording(records, epoch, tool, candidates[..i]),
                                 AfterRecording(records, epoch, tool, candidates[..i + 1]);
      && (after == before || (Readable(candidates[i]) && after == before
            + [Record(epoch, tool, candidates[i].value.key, candidates[i].value.size)]))
      && (Readable(candidates[i]) && |before| < 20 && Sizes(before) + candidates[i].value.size <= 104_857_600 ==>
            Recorded(after, epoch, tool, candidates[i].value.key))
      && (after != before ==> !Recorded(before, epoch, tool, candidates[i].value.key))
  {
    assert candidates[..i + 1][..i] == candidates[..i];
    var before, after := AfterRecording(records, epoch, tool, candidates[..i]),
                         AfterRecording(records, epoch, tool, candidates[..i + 1]);
    hide AfterRecording, Sizes;
    if after != before {
      assert after[|before|] == Record(epoch, tool, candidates[i].value.key, candidates[i].value.size);
    }
  }

  /** The first twenty candidates are considered, readable or not, and no other. */
  lemma FirstTwentyAreConsidered(candidates: seq<Option<Candidate>>)
    ensures Considered(candidates) <= candidates
    ensures |candidates| <= 20 ==> Considered(candidates) == candidates
    ensures |candidates| > 20 ==> |Considered(candidates)| == 20
  {
  }

  /** A candidate that did not fit, or was recorded, does not fit later either. */
  lemma {:induction false} NeverFitsAgain(records: seq<Record>, epoch: nat, tool: nat,
                                          candidates: seq<Option<Candidate>>, i: nat)
    requires i < |candidates|
    ensures !Fits(AfterRecording(records, epoch, tool, candidates), epoch, tool, candidates[i])
    decreases |candidates|
  {
    var init, last := candidates[..|candidates| - 1], candidates[|candidates| - 1];
    var before, after := AfterRecording(records, epoch, tool, init), AfterRecording(records, epoch, tool, candidates);
    if after != before {
      var r := after[|before|];
      assert after == before + [r] && after[..|before|] == before;
      assert Recorded(after, epoch, tool, r.key);
    }
    if i < |init| {
      NeverFitsAgain(records, epoch, tool, init, i);
      StaysUnfit(before, after, epoch, tool, candidates[i]);
    }
  }

  lemma StaysUnfit(before: seq<Record>, after: seq<Record>, epoch: nat, tool: nat, c: Option<Candidate>)
    requires !Fits(before, epoch, tool, c)
    requires after == before || (|after| == |before| + 1 && after[..|before|] == before)
    ensures !Fits(after, epoch, tool, c)
  {
    if c.Some? && Recorded(before, epoch, tool, c.value.key) {
      var i :| 0 <= i < |before| && before[i].epoch == epoch && before[i].tool == tool && before[i].key == c.value.key;
      assert after[i] == before[i];
    }
  }

  /** Recording the same inline images again, whatever they were, adds nothing. */
  lemma {:induction false} ReplayAddsNothing(records: seq<Record>, epoch: nat, tool: nat,
                                             candidates: seq<Option<Candidate>>, n: nat)
    requires n <= |candidates|
    ensures var after := AfterRecording(records, epoch, tool, candidates);
            AfterRecording(after, epoch, tool, candidates[..n]) == after
    decreases n
  {
    if n > 0 {
      ReplayAddsNothing(records, epoch, tool, candidates, n - 1);
      assert candidates[..n][..n - 1] == candidates[..n - 1];
      NeverFitsAgain(records, epoch, tool, candidates, n - 1);
    }
  }
}
