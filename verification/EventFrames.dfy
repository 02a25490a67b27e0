/** The event-stream decoder (apps/web/src/client.ts:295-321): frames end at a blank line, `\r?\n\r?\n`, wherever the
    network cuts the text; compare sections 9.2.5 and 9.2.6 of the WHATWG HTML Standard. */
module EventFrames {
  import opened Options

  const LIMIT := 64 * 1024

  predicate At(s: string, i: nat, c: char) { i < |s| && s[i] == c }

  /** The length of the separator that starts at i, 0 when none does. */
  function SeparatorAt(s: string, i: nat): (n: nat)
    ensures n > 0 ==> i + n <= |s| && 2 <= n <= 4
  {
    var j := if At(s, i, '\r') then i + 1 else i;
    if !At(s, j, '\n') then 0
    else if At(s, j + 1, '\n') then j + 2 - i
    else if At(s, j + 1, '\r') && At(s, j + 2, '\n') then j + 3 - i
    else 0
  }

  /** The leftmost separator at or after `from`. */
  function FirstSeparator(s: string, from: nat): (i: Option<nat>)
    requires from <= |s|
    ensures i.Some? ==> from <= i.value < |s| && SeparatorAt(s, i.value) > 0
    ensures i.Some? ==> forall j | from <= j < i.value :: SeparatorAt(s, j) == 0
    ensures i.None? ==> forall j: nat | from <= j :: SeparatorAt(s, j) == 0
    decreases |s| - from
  {
    if from == |s| then None
    else if SeparatorAt(s, from) > 0 then Some(from)
    else FirstSeparator(s, from + 1)
  }

  datatype Decoded = Decoded(frames: seq<string>, rest: string)

  /** The frames of a text, and what is left for the next chunk. */
  function Decode(s: string): (d: Decoded)
    ensures FirstSeparator(d.rest, 0).None? && |d.rest| <= |s|
    decreases |s|
  {
    match FirstSeparator(s, 0)
    case None => Decoded([], s)
    case Some(i) =>
      var d := Decode(s[i + SeparatorAt(s, i)..]);
      Decoded([s[..i]] + d.frames, d.rest)
  }

  // Cutting the text -------------------------------------------------------------------------------

  /** More text neither moves nor stretches a separator, and creates none before it. */
  lemma SeparatorStays(s: string, more: string, i: nat)
    requires SeparatorAt(s, i) > 0
    ensures SeparatorAt(s + more, i) == SeparatorAt(s, i)
  {
    assert forall k | 0 <= k < |s| :: (s + more)[k] == s[k];
  }

  lemma NoneBefore(s: string, more: string, i: nat, j: nat)
    requires SeparatorAt(s, i) > 0 && j < i && SeparatorAt(s, j) == 0
    ensures SeparatorAt(s + more, j) == 0
  {
    assert forall k | 0 <= k < |s| :: (s + more)[k] == s[k];
  }

  lemma FirstStays(s: string, more: string)
    requires FirstSeparator(s, 0).Some?
    ensures FirstSeparator(s + more, 0) == FirstSeparator(s, 0)
  {
    var i := FirstSeparator(s, 0).value;
    SeparatorStays(s, more, i);
    hide SeparatorAt;
    forall j | 0 <= j < i ensures SeparatorAt(s + more, j) == 0 {
      NoneBefore(s, more, i, j);
    }
  }

  lemma DecodeWhole(s: string)
    requires FirstSeparator(s, 0).None?
    ensures Decode(s) == Decoded([], s)
  {
  }

  lemma DecodeOne(s: string, i: nat, tail: string)
    requires FirstSeparator(s, 0) == Some(i) && tail == s[i + SeparatorAt(s, i)..]
    ensures Decode(s) == Decoded([s[..i]] + Decode(tail).frames, Decode(tail).rest)
  {
    hide SeparatorAt, FirstSeparator;
  }

  ghost predicate SplitsAt(s: string, more: string) {
    var first := Decode(s);
    var second := Decode(first.rest + more);
    Decode(s + more) == Decoded(first.frames + second.frames, second.rest)
  }

  lemma SplitsAtNone(s: string, more: string)
    requires FirstSeparator(s, 0).None?
    ensures SplitsAt(s, more)
  {
    DecodeWhole(s);
    hide Decode, FirstSeparator;
    assert [] + Decode(s + more).frames == Decode(s + more).frames;
  }

  lemma Sliced(s: string, more: string, i: nat, j: nat)
    requires i <= j <= |s|
    ensures (s + more)[..i] == s[..i] && (s + more)[j..] == s[j..] + more
  {
  }

  lemma OneMoreFrame(frame: string, first: seq<string>, second: seq<string>)
    ensures [frame] + (first + second) == ([frame] + first) + second
  {
  }

  lemma FirstFrame(s: string, more: string, i: nat, tail: string)
    requires FirstSeparator(s, 0) == Some(i) && tail == s[i + SeparatorAt(s, i)..]
    ensures Decode(s + more) == Decoded([s[..i]] + Decode(tail + more).frames, Decode(tail + more).rest)
  {
    FirstStays(s, more);
    SeparatorStays(s, more, i);
    hide SeparatorAt, FirstSeparator, Decode;
    Sliced(s, more, i, i + SeparatorAt(s, i));
    DecodeOne(s + more, i, tail + more);
  }

  lemma SplitsAtOne(s: string, more: string, i: nat)
    requires FirstSeparator(s, 0) == Some(i) && SplitsAt(s[i + SeparatorAt(s, i)..], more)
    ensures SplitsAt(s, more)
  {
    hide SeparatorAt, FirstSeparator, Decode;
    var tail := s[i + SeparatorAt(s, i)..];
    DecodeOne(s, i, tail);
    FirstFrame(s, more, i, tail);
    OneMoreFrame(s[..i], Decode(tail).frames, Decode(Decode(tail).rest + more).frames);
  }

  /** Decoding a text at once, or a first part of it and then what that part left with the second. */
  lemma {:induction false} DecodeAppend(s: string, more: string)
    ensures var first := Decode(s); var second := Decode(first.rest + more);
            Decode(s + more) == Decoded(first.frames + second.frames, second.rest)
    decreases |s|
  {
    hide SeparatorAt, FirstSeparator, Decode;
    match FirstSeparator(s, 0) {
      case None => SplitsAtNone(s, more);
      case Some(i) =>
        DecodeAppend(s[i + SeparatorAt(s, i)..], more);
        SplitsAtOne(s, more, i);
    }
  }

  function Concat(chunks: seq<string>): string {
    if chunks == [] then "" else chunks[0] + Concat(chunks[1..])
  }

  /** What a decoder holding `buffer` makes of the chunks, one push each. */
  function PushAll(buffer: string, chunks: seq<string>): Decoded
    decreases |chunks|
  {
    if chunks == [] then Decoded([], buffer)
    else
      var d := Decode(buffer + chunks[0]);
      var e := PushAll(d.rest, chunks[1..]);
      Decoded(d.frames + e.frames, e.rest)
  }

  /** However the text is cut, even inside a separator, the frames and the left-over are those of the whole. */
  lemma {:induction false} CutsDoNotMatter(buffer: string, chunks: seq<string>)
    requires FirstSeparator(buffer, 0).None?
    ensures PushAll(buffer, chunks) == Decode(buffer + Concat(chunks))
    decreases |chunks|
  {
    hide SeparatorAt, FirstSeparator;
    if chunks == [] {
      assert buffer + Concat(chunks) == buffer;
      DecodeWhole(buffer);
    } else {
      var d := Decode(buffer + chunks[0]);
      CutsDoNotMatter(d.rest, chunks[1..]);
      DecodeAppend(buffer + chunks[0], Concat(chunks[1..]));
      assert buffer + Concat(chunks) == (buffer + chunks[0]) + Concat(chunks[1..]);
      hide Decode, Concat;
    }
  }

  lemma SameTextSameFrames(chunks: seq<string>, others: seq<string>)
    requires Concat(chunks) == Concat(others)
    ensures PushAll("", chunks) == PushAll("", others)
  {
    CutsDoNotMatter("", chunks);
    CutsDoNotMatter("", others);
  }

  function Separators(s: string): (r: seq<string>)
    ensures |r| == |Decode(s).frames|
    decreases |s|
  {
    match FirstSeparator(s, 0)
    case None => []
    case Some(i) => [s[i..i + SeparatorAt(s, i)]] + Separators(s[i + SeparatorAt(s, i)..])
  }

  function Interleave(frames: seq<string>, separators: seq<string>): string
    requires |frames| == |separators|
  {
    if frames == [] then "" else frames[0] + separators[0] + Interleave(frames[1..], separators[1..])
  }

  lemma InterleaveStep(frame: string, separator: string, frames: seq<string>, separators: seq<string>)
    requires |frames| == |separators|
    ensures Interleave([frame] + frames, [separator] + separators) == frame + separator + Interleave(frames, separators)
  {
    assert ([frame] + frames)[1..] == frames && ([separator] + separators)[1..] == separators;
  }

  lemma DecodeStep(s: string, i: nat)
    requires FirstSeparator(s, 0) == Some(i)
    ensures var tail := s[i + SeparatorAt(s, i)..];
            && Decode(s) == Decoded([s[..i]] + Decode(tail).frames, Decode(tail).rest)
            && Separators(s) == [s[i..i + SeparatorAt(s, i)]] + Separators(tail)
  {
    hide SeparatorAt, FirstSeparator;
  }

  lemma SpellWhole(s: string)
    requires FirstSeparator(s, 0).None?
    ensures Decode(s) == Decoded([], s) && Separators(s) == [] && s == Interleave([], []) + s
  {
    assert "" + s == s;
  }

  lemma SpellStep(s: string, i: nat, j: nat, spelled: string, rest: string)
    requires i <= j <= |s| && s[j..] == spelled + rest
    ensures s == (s[..i] + s[i..j] + spelled) + rest
  {
    assert s == s[..i] + s[i..j] + s[j..];
  }

  /** No character is lost or moved: the frames and their separators spell the text out again. */
  lemma {:induction false} FramesSpellTheText(s: string)
    ensures s == Interleave(Decode(s).frames, Separators(s)) + Decode(s).rest
    decreases |s|
  {
    hide SeparatorAt, FirstSeparator, Interleave, Decode, Separators;
    if FirstSeparator(s, 0).None? {
      SpellWhole(s);
    } else {
      var i := FirstSeparator(s, 0).value;
      var tail := s[i + SeparatorAt(s, i)..];
      FramesSpellTheText(tail);
      DecodeStep(s, i);
      InterleaveStep(s[..i], s[i..i + SeparatorAt(s, i)], Decode(tail).frames, Separators(tail));
      SpellStep(s, i, i + SeparatorAt(s, i), Interleave(Decode(tail).frames, Separators(tail)), Decode(tail).rest);
    }
  }

  predicate IsBlankLine(t: string) { t == "\n\n" || t == "\r\n\n" || t == "\n\r\n" || t == "\r\n\r\n" }

  predicate BlankLineAt(s: string, i: nat, n: nat) { i + n <= |s| && IsBlankLine(s[i..i + n]) }

  /** None of the four is the start of another, so at most one of them stands at a place. */
  lemma SeparatorIsBlankLine(s: string, i: nat, n: nat)
    requires n > 0
    ensures SeparatorAt(s, i) == n <==> BlankLineAt(s, i, n)
  {
    if i + n <= |s| {
      var t := s[i..i + n];
      assert forall k | 0 <= k < n :: t[k] == s[i + k];
      if SeparatorAt(s, i) == n {
        assert t == "\n\n" || t == "\r\n\n" || t == "\n\r\n" || t == "\r\n\r\n";
      }
      if IsBlankLine(t) {
        assert n == |t| && t[0] == s[i] && t[1] == s[i + 1];
        assert n > 2 ==> t[2] == s[i + 2];
        assert n > 3 ==> t[3] == s[i + 3];
      }
    }
  }

  /** No blank line starts in the first `size` characters. */
  ghost predicate NoBlankLine(s: string, size: nat) { forall i: nat, n: nat | i < size :: !BlankLineAt(s, i, n) }

  lemma NoSeparatorNoBlankLine(s: string, size: nat)
    requires forall j: nat | j < size :: SeparatorAt(s, j) == 0
    ensures NoBlankLine(s, size)
  {
    hide SeparatorAt;
    forall i: nat, n: nat | i < size ensures !BlankLineAt(s, i, n) {
      if n > 0 { SeparatorIsBlankLine(s, i, n); }
    }
  }

  /** What stands after each frame is a blank line, and no blank line starts before it in the frame. */
  lemma {:induction false} FramesAreWhole(s: string, k: nat)
    requires k < |Decode(s).frames|
    ensures var frame, separator := Decode(s).frames[k], Separators(s)[k];
      IsBlankLine(separator) && NoBlankLine(frame + separator, |frame|)
    decreases |s|
  {
    hide SeparatorAt, FirstSeparator;
    var i := FirstSeparator(s, 0).value;
    if k == 0 {
      FrameIsWhole(s, i);
    } else {
      FramesAreWhole(s[i + SeparatorAt(s, i)..], k - 1);
    }
  }

  /** And none is left over. */
  lemma RestIsPart(s: string)
    ensures NoBlankLine(Decode(s).rest, |Decode(s).rest|)
  {
    var rest := Decode(s).rest;
    hide SeparatorAt, Decode;
    NoSeparatorNoBlankLine(rest, |rest|);
  }

  lemma FrameIsWhole(s: string, i: nat)
    requires FirstSeparator(s, 0) == Some(i)
    ensures var n := SeparatorAt(s, i);
      IsBlankLine(s[i..i + n]) && NoBlankLine(s[..i] + s[i..i + n], i)
  {
    var n := SeparatorAt(s, i);
    var t := s[..i] + s[i..i + n];
    SeparatorIsBlankLine(s, i, n);
    hide SeparatorAt, FirstSeparator;
    assert t + s[i + n..] == s;
    forall j: nat | j < i ensures SeparatorAt(t, j) == 0 {
      if SeparatorAt(t, j) > 0 { SeparatorStays(t, s[i + n..], j); }
    }
    NoSeparatorNoBlankLine(t, i);
  }

  // The decoder ------------------------------------------------------------------------------------

  function Relevant(frames: seq<string>, relevant: string -> bool): seq<string> {
    if frames == [] then []
    else
      var last := frames[|frames| - 1];
      Relevant(frames[..|frames| - 1], relevant) + (if relevant(last) then [last] else [])
  }

  lemma RelevantAppend(frames: seq<string>, frame: string, relevant: string -> bool)
    ensures Relevant(frames + [frame], relevant)
              == Relevant(frames, relevant) + (if relevant(frame) then [frame] else [])
  {
    assert (frames + [frame])[..|frames|] == frames;
  }

  ghost predicate Consumed(whole: string, taken: seq<string>, buffer: string) {
    Decode(whole) == Decoded(taken + Decode(buffer).frames, Decode(buffer).rest)
  }

  lemma NothingConsumed(whole: string, relevant: string -> bool)
    ensures Consumed(whole, [], whole) && Relevant([], relevant) == []
  {
    assert [] + Decode(whole).frames == Decode(whole).frames;
  }

  lemma OneMoreConsumed(whole: string, taken: seq<string>, buffer: string, i: nat)
    requires Consumed(whole, taken, buffer) && FirstSeparator(buffer, 0) == Some(i)
    ensures Consumed(whole, taken + [buffer[..i]], buffer[i + SeparatorAt(buffer, i)..])
  {
    hide SeparatorAt, FirstSeparator;
    var frames := Decode(buffer[i + SeparatorAt(buffer, i)..]).frames;
    assert taken + ([buffer[..i]] + frames) == (taken + [buffer[..i]]) + frames;
  }

  lemma AllConsumed(whole: string, taken: seq<string>, buffer: string)
    requires Consumed(whole, taken, buffer) && FirstSeparator(buffer, 0).None?
    ensures Decode(whole) == Decoded(taken, buffer)
  {
    hide SeparatorAt, FirstSeparator;
    assert taken + [] == taken;
  }

  class InvalidationDecoder {
    const relevant: string -> bool // an event named resync or invalidate
    var buffer: string
    var changes: seq<string>

    ghost predicate Valid()
      reads this
    {
      FirstSeparator(buffer, 0).None?
    }

    constructor (relevant: string -> bool)
      ensures Valid() && buffer == "" && changes == [] && this.relevant == relevant
    {
      this.relevant, buffer, changes := relevant, "", [];
    }

    /** Consumes the complete frames; None when the text exceeds the limit before any frame is taken. */
    method Push(text: string) returns (changed: Option<bool>)
      requires Valid()
      modifies this
      ensures changed.None? <==> |old(buffer)| + |text| > LIMIT
      ensures changed.None? ==> buffer == old(buffer) + text && changes == old(changes)
      ensures changed.Some? ==>
        var d := Decode(old(buffer) + text);
        && Valid() && buffer == d.rest && changes == old(changes) + Relevant(d.frames, relevant)
        && (changed.value <==> Relevant(d.frames, relevant) != [])
    {
      hide SeparatorAt, FirstSeparator, Relevant, Decode, Consumed;
      buffer := buffer + text;
      if |buffer| > LIMIT { return None; }
      ghost var whole := buffer;
      ghost var taken: seq<string> := [];
      NothingConsumed(whole, relevant);
      var any := false;
      while true
        invariant Consumed(whole, taken, buffer)
        invariant changes == old(changes) + Relevant(taken, relevant)
        invariant any <==> Relevant(taken, relevant) != []
        decreases |buffer|
      {
        var found := FirstSeparator(buffer, 0);
        if found.None? {
          AllConsumed(whole, taken, buffer);
          return Some(any);
        }
        var i := found.value;
        var frame := buffer[..i];
        OneMoreConsumed(whole, taken, buffer, i);
        RelevantAppend(taken, frame, relevant);
        taken := taken + [frame];
        buffer := buffer[i + SeparatorAt(buffer, i)..];
        if relevant(frame) {
          any := true;
          changes := changes + [frame];
        }
      }
    }
  }

  // The limit --------------------------------------------------------------------------------------

  predicate Fits(buffer: string, chunks: seq<string>)
    decreases |chunks|
  {
    chunks != [] ==> |buffer| + |chunks[0]| <= LIMIT && Fits(Decode(buffer + chunks[0]).rest, chunks[1..])
  }

  lemma FitsOne(buffer: string, chunk: string)
    ensures Fits(buffer, [chunk]) <==> |buffer| + |chunk| <= LIMIT
  {
    assert [chunk][1..] == [];
  }

  lemma FitsTwo(first: string, last: string)
    requires |first| <= LIMIT && |Decode(first).rest| + |last| <= LIMIT
    ensures Fits("", [first, last])
  {
    hide Decode;
    assert "" + first == first && [first, last][1..] == [last];
    FitsOne(Decode(first).rest, last);
  }

  lemma {:induction false} ShortTextFits(buffer: string, chunks: seq<string>)
    requires |buffer| + |Concat(chunks)| <= LIMIT
    ensures Fits(buffer, chunks)
    decreases |chunks|
  {
    if chunks != [] { ShortTextFits(Decode(buffer + chunks[0]).rest, chunks[1..]); }
  }

  /** Every way of cutting a text is accepted exactly when the whole text is within the limit. */
  lemma EveryCutFitsIff(text: string)
    ensures (forall chunks | Concat(chunks) == text :: Fits("", chunks)) <==> |text| <= 65_536
  {
    if |text| <= LIMIT {
      forall chunks | Concat(chunks) == text ensures Fits("", chunks) { ShortTextFits("", chunks); }
    } else {
      FitsOne("", text);
      assert Concat([text]) == text;
    }
  }

  /** While a text is read from `buffer`, what is left over stays below the limit. */
  ghost predicate StaysBelow(buffer: string, text: string) {
    forall k | 0 <= k < |text| :: |Decode(buffer + text[..k]).rest| < LIMIT
  }

  // Reading on from the left-over of a first part is reading on from the part itself.
  lemma LeftoverAfter(buffer: string, first: string, text: string, k: nat)
    requires k <= |text|
    ensures Decode(Decode(buffer + first).rest + text[..k]).rest == Decode(buffer + (first + text)[..|first| + k]).rest
  {
    DecodeAppend(buffer + first, text[..k]);
    assert buffer + (first + text)[..|first| + k] == (buffer + first) + text[..k];
    hide Decode;
  }

  lemma {:induction false} FittingStaysBelow(buffer: string, chunks: seq<string>)
    requires Fits(buffer, chunks)
    ensures StaysBelow(buffer, Concat(chunks))
    decreases |chunks|
  {
    if chunks != [] {
      var first, text := chunks[0], Concat(chunks[1..]);
      FittingStaysBelow(Decode(buffer + first).rest, chunks[1..]);
      forall k | 0 <= k < |first + text|
        ensures |Decode(buffer + (first + text)[..k]).rest| < LIMIT
      {
        if k >= |first| { LeftoverAfter(buffer, first, text, k - |first|); }
      }
    }
  }

  function Singles(text: string): (r: seq<string>)
    ensures |r| == |text|
  {
    if text == "" then [] else [text[..1]] + Singles(text[1..])
  }

  lemma {:induction false} SinglesFit(buffer: string, text: string)
    requires FirstSeparator(buffer, 0).None? && StaysBelow(buffer, text)
    ensures Concat(Singles(text)) == text && Fits(buffer, Singles(text))
    decreases |text|
  {
    if text != "" {
      DecodeWhole(buffer);
      assert buffer + text[..0] == buffer;
      var rest := Decode(buffer + text[..1]).rest;
      hide Decode, FirstSeparator;
      assert text[..1] + text[1..] == text;
      forall k | 0 <= k < |text[1..]| ensures |Decode(rest + text[1..][..k]).rest| < LIMIT {
        LeftoverAfter(buffer, text[..1], text[1..], k);
      }
      SinglesFit(rest, text[1..]);
      assert Singles(text)[1..] == Singles(text[1..]);
    }
  }

  /** Some way of cutting it is, exactly when what is left over stays below the limit wherever the
      text is interrupted. */
  lemma SomeCutFitsIff(text: string)
    ensures (exists chunks :: Concat(chunks) == text && Fits("", chunks)) <==> StaysBelow("", text)
  {
    if StaysBelow("", text) { SinglesFit("", text); }
    forall chunks | Concat(chunks) == text && Fits("", chunks) ensures StaysBelow("", text) {
      FittingStaysBelow("", chunks);
    }
  }

  /** The limit alone depends on the cuts: blank lines in one push are refused, and accepted in two. */
  lemma LimitDependsOnCuts()
    ensures var text := seq(LIMIT + 1, _ => '\n');
            !Fits("", [text]) && Fits("", [text[..LIMIT], text[LIMIT..]])
  {
    var text: string := seq(LIMIT + 1, _ => '\n');
    var first, last := text[..LIMIT], text[LIMIT..];
    LeftoverOfNewlines(first);
    hide Decode, SeparatorAt, FirstSeparator, Fits;
    FitsOne("", text);
    FitsTwo(first, last);
  }

  lemma NewlinesSeparate(s: string)
    requires forall i | 0 <= i < |s| :: s[i] == '\n'
    ensures |s| >= 2 ==> SeparatorAt(s, 0) == 2
  {
  }

  lemma {:induction false} LeftoverOfNewlines(s: string)
    requires forall i | 0 <= i < |s| :: s[i] == '\n'
    ensures |Decode(s).rest| <= 1
    decreases |s|
  {
    match FirstSeparator(s, 0)
    case None => NewlinesSeparate(s);
    case Some(i) => LeftoverOfNewlines(s[i + SeparatorAt(s, i)..]);
  }
}
