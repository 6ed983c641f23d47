/** What a growing text shows: plainAGUIContent of sdk/agui_rendering.go on partial input.

    While text is appended, the plain text usually only grows, so the projector can send
    deltas.  It may also take text back, and this module says exactly when. */
module FencedStreaming {
  import opened Common
  import opened FencedText

  /** No unfinished fence header stands before the end, or what is shown after the first one
      is what a line break there would show verbatim. */
  predicate Steady(segments: seq<Segment>, rich: bool) {
    if segments == [] then true else
      match segments[0]
      case Opener(_) => Shown(segments[1..], rich) <= Raw(segments[1..])
      case Payload(_) => Steady(segments[1..], true)
      case _ => Steady(segments[1..], rich)
  }

  // ---------- the scanner on an extended text ----------

  lemma FenceExtends(s: string, more: string, from: nat)
    ensures FindFence(s, from).Some? ==> FindFence(s + more, from) == FindFence(s, from)
    ensures FindFence(s, from).None? && FindFence(s + more, from).Some? ==> FindFence(s + more, from).value + 3 > |s|
  {
    var t := s + more;
    forall i: nat | i + 3 <= |s|
      ensures FenceAt(s, i) <==> FenceAt(t, i)
    {
      assert t[i] == s[i] && t[i + 1] == s[i + 1] && t[i + 2] == s[i + 2];
    }
    if FindFence(s, from).Some? {
      assert FenceAt(t, FindFence(s, from).value);
    }
  }

  /** The text before the withheld backticks is shown whatever follows. */
  lemma HeldExtends(s: string, more: string, from: nat)
    requires from < |s| && FindFence(s, from).None?
    ensures var t := s + more;
            var cut := |s| - HeldTicks(s, from, false);
            match FindFence(t, from)
            case None => cut <= |t| - HeldTicks(t, from, false)
            case Some(open) => cut <= open
  {
    var t := s + more;
    FenceExtends(s, more, from);
    assert t[|s| - 1] == s[|s| - 1];
    if |s| - from > 1 {
      assert t[|s| - 2] == s[|s| - 2];
    }
    match FindFence(t, from)
    case None =>
    case Some(open) =>
      assert t[open] == '`' && t[open + 1] == '`';
  }

  lemma LanguageExtends(s: string, more: string, from: nat)
    requires from <= |s|
    ensures var end, wide := LanguageEnd(s, from), LanguageEnd(s + more, from);
            if end < |s| then wide == end else wide >= |s|
  {
    var t := s + more;
    var end, wide := LanguageEnd(s, from), LanguageEnd(t, from);
    assert end < |s| ==> t[end] == s[end];
    assert wide < |s| ==> t[wide] == s[wide];
  }

  lemma BreakExtends(s: string, more: string, from: nat)
    requires from <= |s|
    ensures var line, wide := LineBreak(s, from), LineBreak(s + more, from);
            if line < |s| then wide == line else wide == LineBreak(s + more, |s|)
  {
    var t := s + more;
    var line, wide, late := LineBreak(s, from), LineBreak(t, from), LineBreak(t, |s|);
    forall i | from <= i < |s|
      ensures t[i] == s[i]
    {
    }
    if line < |s| {
      assert t[line] == s[line];
      assert !(line < wide);
      assert !(wide < line);
    } else {
      assert !(wide < late) && !(late < wide);
    }
  }

  /** A valid header stays valid; an invalid one stays invalid unless it was open, and then
      its body lies beyond the old end. */
  lemma BodyExtends(s: string, more: string, after: nat)
    requires after < |s|
    ensures var body, wide := BodyStart(s, after), BodyStart(s + more, after);
            if body.Some? then wide == body
            else if !OpenHeader(s, after) then wide.None?
            else wide.Some? ==> wide.value > |s|
  {
    var t := s + more;
    assert t[after] == s[after];
    BreakExtends(s, more, after);
    if after + 1 < |s| {
      assert t[after + 1] == s[after + 1];
    }
    var line := LineBreak(s, after);
    if line < |s| {
      assert t[line] == s[line];
    }
    if line + 1 < |s| {
      assert t[line + 1] == s[line + 1];
    }
  }

  /** All open headers share one line end: if further input leaves one unfinished or breaks
      it, it does so to every one of them. */
  lemma OpenHeadersShareTheirEnd(s: string, more: string, p: nat, q: nat)
    requires OpenHeader(s, p) && BodyStart(s + more, p).None? && OpenHeader(s, q)
    ensures BodyStart(s + more, q).None?
  {
    var t := s + more;
    assert t[p] == s[p] && t[q] == s[q];
    BreakExtends(s, more, p);
    BreakExtends(s, more, q);
    var n := |s| - 1;
    assert t[n] == s[n];
    LastBreak(s, p);
    LastBreak(s, q);
  }

  lemma LastBreak(s: string, p: nat)
    requires OpenHeader(s, p)
    ensures s[|s| - 1] != '\n'
    ensures s[|s| - 1] == '\r' ==> LineBreak(s, p) == |s| - 1
    ensures s[|s| - 1] != '\r' ==> LineBreak(s, p) == |s|
  {
  }

  lemma CloseStep(valid: Validity, s: string, body: nat, language: string, cursor: nat)
    requires body <= cursor
    ensures FindClose(valid, s, body, language, cursor) ==
            match FindFence(s, cursor)
            case None => None
            case Some(close) =>
              if ClosesAt(valid, s, body, language, close) then Some(close) else FindClose(valid, s, body, language, close + 3)
  {
    hide FindFence, ClosesAt, ClosesFirst, Fences;
  }

  lemma {:induction false} CloseExtends(valid: Validity, s: string, more: string, body: nat, language: string, cursor: nat)
    requires body <= cursor
    ensures var close, wide := FindClose(valid, s, body, language, cursor), FindClose(valid, s + more, body, language, cursor);
            if close.Some? then wide == close else wide.Some? ==> wide.value + 3 > |s|
    decreases |s| - cursor
  {
    hide FindClose, ClosesAt, ClosesFirst, Fences;
    var t := s + more;
    FenceExtends(s, more, cursor);
    CloseStep(valid, s, body, language, cursor);
    CloseStep(valid, t, body, language, cursor);
    match FindFence(s, cursor)
    case None =>
      CloseIsLate(valid, t, body, language, cursor);
    case Some(close) =>
      ClosesAtExtends(valid, s, more, body, language, close);
      if !ClosesAt(valid, s, body, language, close) {
        CloseExtends(valid, s, more, body, language, close + 3);
      }
  }

  lemma ClosesAtExtends(valid: Validity, s: string, more: string, body: nat, language: string, close: nat)
    requires close <= |s|
    ensures ClosesAt(valid, s + more, body, language, close) <==> ClosesAt(valid, s, body, language, close)
  {
    var t := s + more;
    if body <= close {
      assert s[body..close] == t[body..close];
      assert close > 0 ==> s[close - 1] == t[close - 1];
    }
  }

  lemma CloseIsLate(valid: Validity, s: string, body: nat, language: string, cursor: nat)
    requires body <= cursor
    ensures var close := FindClose(valid, s, body, language, cursor);
            close.Some? ==> FindFence(s, cursor).Some? && FindFence(s, cursor).value <= close.value
  {
    hide ClosesFirst, Fences, ClosesAt;
  }

  // ---------- growth ----------

  ghost predicate NoneCompleted(s: string, more: string) {
    forall p {:trigger OpenHeader(s, p)} :: OpenHeader(s, p) ==> BodyStart(s + more, p).None?
  }

  lemma PrefixUnder(a: string, b: string, c: string)
    requires b <= c
    ensures a + b <= a + c
  {
  }

  /** From one fence on. */
  function FromFence(valid: Validity, s: string, open: nat, rich: bool): string
    requires FenceAt(s, open)
  {
    var head := Head(valid, s, open, false);
    Mark(head, rich) + Shown(Segments(valid, s, open + |head.raw|, false), rich || head.Payload?)
  }

  lemma ShownFromFence(valid: Validity, s: string, cursor: nat, open: nat, rich: bool)
    requires cursor < |s| && FindFence(s, cursor) == Some(open)
    ensures Shown(Segments(valid, s, cursor, false), rich) == s[cursor..open] + FromFence(valid, s, open, rich)
  {
    hide Segments, Shown, Head, FindFence;
    ShownStep(valid, s, cursor, false, open, rich);
  }

  /** What is shown now is still shown when the text goes on. */
  lemma {:induction false} ShownGrows(valid: Validity, s: string, more: string, cursor: nat, rich: bool)
    requires cursor <= |s|
    requires Steady(Segments(valid, s, cursor, false), rich) || NoneCompleted(s, more)
    ensures Shown(Segments(valid, s, cursor, false), rich) <= Shown(Segments(valid, s + more, cursor, false), rich)
    decreases |s| - cursor, 2
  {
    hide Segments, Shown, Raw, Steady, Head, FindFence, NoneCompleted, FromFence;
    if cursor == |s| {
      EndOfText(valid, s, false);
    } else if FindFence(s, cursor).None? {
      TailGrows(valid, s, more, cursor, rich);
    } else {
      var open := FindFence(s, cursor).value;
      FenceExtends(s, more, cursor);
      ShownFromFence(valid, s, cursor, open, rich);
      ShownFromFence(valid, s + more, cursor, open, rich);
      assert (s + more)[cursor..open] == s[cursor..open];
      SteadyStep(valid, s, cursor, open, rich);
      FenceGrows(valid, s, more, open, rich);
      PrefixUnder(s[cursor..open], FromFence(valid, s, open, rich), FromFence(valid, s + more, open, rich));
    }
  }

  lemma TailGrows(valid: Validity, s: string, more: string, cursor: nat, rich: bool)
    requires cursor < |s| && FindFence(s, cursor).None?
    ensures Shown(Segments(valid, s, cursor, false), rich) <= Shown(Segments(valid, s + more, cursor, false), rich)
  {
    hide Segments, Shown, FromFence, FindFence, HeldTicks;
    var t := s + more;
    var cut := |s| - HeldTicks(s, cursor, false);
    HeldTail(valid, s, cursor, false, rich);
    HeldExtends(s, more, cursor);
    match FindFence(t, cursor)
    case None =>
      HeldTail(valid, t, cursor, false, rich);
      var wide := |t| - HeldTicks(t, cursor, false);
      assert t[cursor..wide] == s[cursor..cut] + t[cut..wide];
    case Some(open) =>
      ShownFromFence(valid, t, cursor, open, rich);
      assert t[cursor..open] == s[cursor..cut] + t[cut..open];
  }

  /** Steadiness, one fence at a time. */
  lemma SteadyStep(valid: Validity, s: string, cursor: nat, open: nat, rich: bool)
    requires cursor < |s| && FindFence(s, cursor) == Some(open)
    ensures var head := Head(valid, s, open, false);
            var rest := Segments(valid, s, open + |head.raw|, false);
            Steady(Segments(valid, s, cursor, false), rich) <==>
            if head.Opener? then Shown(rest, rich) <= Raw(rest) else Steady(rest, rich || head.Payload?)
  {
    hide Head, FindFence, Shown, Raw, FenceAt;
    var head := Head(valid, s, open, false);
    var rest := Segments(valid, s, open + |head.raw|, false);
    var all := Segments(valid, s, cursor, false);
    assert all[0] == Text(s[cursor..open]) && all[1..] == [head] + rest && all[1..][1..] == rest;
  }

  lemma {:induction false} FenceGrows(valid: Validity, s: string, more: string, open: nat, rich: bool)
    requires FenceAt(s, open) && FenceAt(s + more, open)
    requires var head := Head(valid, s, open, false);
             var rest := Segments(valid, s, open + |head.raw|, false);
             || NoneCompleted(s, more)
             || (if head.Opener? then Shown(rest, rich) <= Raw(rest) else Steady(rest, rich || head.Payload?))
    ensures FromFence(valid, s, open, rich) <= FromFence(valid, s + more, open, rich)
    decreases |s| - open, 1
  {
    hide Segments, Shown, Raw, Steady, Head, NoneCompleted, FenceAt;
    var head := Head(valid, s, open, false);
    var next := open + |head.raw|;
    if next == |s| {
      EndOfText(valid, s, false);
      LastFenceGrows(valid, s, more, open, rich);
    } else if head.Opener? {
      OpenerGrows(valid, s, more, open, rich);
    } else {
      HeadIsStable(valid, s, more, open);
      ShownGrows(valid, s, more, next, rich || head.Payload?);
      PrefixUnder(Mark(head, rich), Shown(Segments(valid, s, next, false), rich || head.Payload?),
                  Shown(Segments(valid, s + more, next, false), rich || head.Payload?));
    }
  }

  /** A fence that is not the last segment and not an unfinished header reads the same. */
  lemma HeadIsStable(valid: Validity, s: string, more: string, open: nat)
    requires FenceAt(s, open) && FenceAt(s + more, open)
    requires open + |Head(valid, s, open, false).raw| < |s| && !Head(valid, s, open, false).Opener?
    ensures Head(valid, s + more, open, false) == Head(valid, s, open, false)
  {
    hide FindFence, LanguageEnd, BodyStart, FindClose, OpenHeader, Recognized, MayBeRecognized;
    var t := s + more;
    var start := open + 3;
    var end := LanguageEnd(s, start);
    LanguageExtends(s, more, start);
    assert end < |s|;
    assert s[start..end] == t[start..end];
    BodyExtends(s, more, end);
    if BodyStart(s, end).Some? {
      BlockIsStable(valid, s, more, open, end, BodyStart(s, end).value);
    } else {
      assert s[open..start] == t[open..start];
      OpenIsNotStable(s, more, end);
    }
  }

  /** A block that ends before the text does. */
  lemma BlockIsStable(valid: Validity, s: string, more: string, open: nat, end: nat, body: nat)
    requires FenceAt(s, open) && FenceAt(s + more, open)
    requires end == LanguageEnd(s, open + 3) == LanguageEnd(s + more, open + 3) && s[open + 3..end] == (s + more)[open + 3..end]
    requires BodyStart(s, end) == BodyStart(s + more, end) == Some(body) && body <= |s|
    requires open + |Head(valid, s, open, false).raw| < |s|
    ensures Head(valid, s + more, open, false) == Head(valid, s, open, false)
  {
    hide Head, LanguageEnd, BodyStart, FindClose, Recognized, Lower, FenceAt;
    var language := Lower(s[open + 3..end]);
    CloseExtends(valid, s, more, body, language, body);
    HeadOfBlock(valid, s, open, body);
    HeadOfBlock(valid, s + more, open, body);
    var close := FindClose(valid, s, body, language, body);
    assert close.Some?;
    assert s[open..close.value + 3] == (s + more)[open..close.value + 3];
  }

  lemma OpenIsNotStable(s: string, more: string, end: nat)
    requires end < |s| && BodyStart(s, end).None? && !OpenHeader(s, end)
    ensures !OpenHeader(s + more, end)
  {
    var t := s + more;
    assert t[end] == s[end];
    BreakExtends(s, more, end);
  }

  /** The last segment is withheld, replaced or shown to the end. */
  lemma LastFenceGrows(valid: Validity, s: string, more: string, open: nat, rich: bool)
    requires FenceAt(s, open) && FenceAt(s + more, open)
    requires open + |Head(valid, s, open, false).raw| == |s|
    ensures Mark(Head(valid, s, open, false), rich) <= FromFence(valid, s + more, open, rich)
  {
    hide FindFence, LanguageEnd, BodyStart, FindClose, OpenHeader, Recognized, MayBeRecognized, Segments, Shown;
    var t := s + more;
    var start := open + 3;
    var end := LanguageEnd(s, start);
    LanguageExtends(s, more, start);
    if end == |s| {
      assert s[start..end] == s[start..];
      if !MayBeRecognized(Lower(s[start..end])) {
        ForeignWordGrows(valid, s, more, open, rich);
      }
    } else {
      assert s[start..end] == t[start..end];
      var language := Lower(s[start..end]);
      BodyExtends(s, more, end);
      if BodyStart(s, end).Some? {
        BlockGrows(valid, s, more, open, rich, end, BodyStart(s, end).value);
      }
    }
  }

  /** A block whose body has begun. */
  lemma BlockGrows(valid: Validity, s: string, more: string, open: nat, rich: bool, end: nat, body: nat)
    requires FenceAt(s, open) && FenceAt(s + more, open)
    requires end == LanguageEnd(s, open + 3) == LanguageEnd(s + more, open + 3) && s[open + 3..end] == (s + more)[open + 3..end]
    requires BodyStart(s, end) == BodyStart(s + more, end) == Some(body) && body <= |s|
    requires open + |Head(valid, s, open, false).raw| == |s|
    ensures Mark(Head(valid, s, open, false), rich) <= FromFence(valid, s + more, open, rich)
  {
    hide FindFence, Head, LanguageEnd, BodyStart, FindClose, OpenHeader, Recognized, MayBeRecognized, Segments, Shown;
    CloseExtends(valid, s, more, body, Lower(s[open + 3..end]), body);
    HeadOfBlock(valid, s, open, body);
    HeadOfBlock(valid, s + more, open, body);
    LongerHead(valid, s, more, open);
  }

  lemma HeadOfBlock(valid: Validity, s: string, open: nat, body: nat)
    requires FenceAt(s, open) && BodyStart(s, LanguageEnd(s, open + 3)) == Some(body)
    ensures var language := Lower(s[open + 3..LanguageEnd(s, open + 3)]);
            var close := FindClose(valid, s, body, language, body);
            var block := if close.Some? then s[open..close.value + 3] else s[open..];
            Head(valid, s, open, false) == if Recognized(language) then Payload(block) else Text(block)
  {
    hide BodyStart, FenceAt, FindClose, Recognized, MayBeRecognized, LanguageEnd, OpenHeader, Lower;
  }

  lemma LongerHead(valid: Validity, s: string, more: string, open: nat)
    requires FenceAt(s, open) && FenceAt(s + more, open)
    requires open + |Head(valid, s, open, false).raw| == |s|
    ensures |Head(valid, s + more, open, false).raw| >= |s| - open ==>
              Head(valid, s, open, false).raw <= Head(valid, s + more, open, false).raw
  {
    hide Head, FenceAt;
    var t := s + more;
    var wide := Head(valid, t, open, false);
    if |wide.raw| >= |s| - open {
      assert t[open..open + |wide.raw|] == s[open..] + t[|s|..open + |wide.raw|];
    }
  }

  lemma LowerGrows(s: string, more: string)
    ensures Lower(s) <= Lower(s + more)
  {
  }

  lemma PrefixOfPrefix(a: string, b: string, c: string)
    ensures a <= b && b <= c ==> a <= c
  {
  }

  lemma StillForeign(a: string, b: string)
    requires a <= b && !MayBeRecognized(a)
    ensures !MayBeRecognized(b) && !Recognized(b)
  {
    RecognizedMayBe(b);
    PrefixOfPrefix(a, b, "forge-ui");
    PrefixOfPrefix(a, b, "forge-report");
    PrefixOfPrefix(a, b, "forge-data");
  }

  /** A word that can no longer become a recognised language is shown for good. */
  lemma ForeignWordGrows(valid: Validity, s: string, more: string, open: nat, rich: bool)
    requires FenceAt(s, open) && FenceAt(s + more, open)
    requires LanguageEnd(s, open + 3) == |s| && !MayBeRecognized(Lower(s[open + 3..]))
    ensures s[open..] <= FromFence(valid, s + more, open, rich)
  {
    hide FindFence, BodyStart, FindClose, Head, OpenHeader, Recognized, MayBeRecognized, Segments, Shown;
    hide LanguageByte, LanguageEnd, Lower, FromFence;
    var t := s + more;
    var start := open + 3;
    var end := LanguageEnd(t, start);
    LanguageExtends(s, more, start);
    assert t[start..end] == s[start..] + t[|s|..end];
    LowerGrows(s[start..], t[|s|..end]);
    StillForeign(Lower(s[start..]), Lower(t[start..end]));
    ForeignHead(valid, t, open, rich);
    if end < |t| && BodyStart(t, end).None? {
      WordIsShown(valid, t, start, rich);
      assert s[open..] == FENCE + s[start..];
      PrefixOfPrefix(s[start..], t[start..end], Shown(Segments(valid, t, start, false), rich));
      PrefixUnder(FENCE, s[start..], Shown(Segments(valid, t, start, false), rich));
    } else {
      var head := Head(valid, t, open, false);
      assert t[open..open + |head.raw|] == s[open..] + t[|s|..open + |head.raw|];
      PrefixOfPrefix(s[open..], head.raw, FromFence(valid, t, open, rich));
    }
  }

  /** A fence with a foreign word: bare if its header is not valid, else a shown block. */
  lemma ForeignHead(valid: Validity, t: string, open: nat, rich: bool)
    requires FenceAt(t, open)
    requires var word := Lower(t[open + 3..LanguageEnd(t, open + 3)]); !MayBeRecognized(word) && !Recognized(word)
    ensures var end := LanguageEnd(t, open + 3);
            if end < |t| && BodyStart(t, end).None? then
              FromFence(valid, t, open, rich) == FENCE + Shown(Segments(valid, t, open + 3, false), rich)
            else
              var head := Head(valid, t, open, false);
              open + |head.raw| >= end && head.raw <= FromFence(valid, t, open, rich)
  {
    hide FindFence, BodyStart, FindClose, OpenHeader, Recognized, MayBeRecognized, Segments, Shown, LanguageEnd, Lower;
    var head := Head(valid, t, open, false);
    assert !head.Payload? && !head.Held?;
  }

  /** A word holds no backtick, so it is shown whatever comes after it. */
  lemma WordIsShown(valid: Validity, s: string, from: nat, rich: bool)
    requires from <= |s|
    ensures s[from..LanguageEnd(s, from)] <= Shown(Segments(valid, s, from, false), rich)
  {
    hide Segments, Shown, FromFence;
    var end := LanguageEnd(s, from);
    if from < end {
      match FindFence(s, from)
      case None =>
        HeldTail(valid, s, from, false, rich);
        var cut := |s| - HeldTicks(s, from, false);
        assert cut >= end;
        assert s[from..cut] == s[from..end] + s[end..cut];
      case Some(open) =>
        assert open >= end;
        ShownFromFence(valid, s, from, open, rich);
        assert s[from..open] == s[from..end] + s[end..open];
    }
  }

  /** An unfinished header: either it stays unfinished or invalid, and the rest keeps growing,
      or it is completed, and then everything after it is shown verbatim. */
  lemma {:induction false} OpenerGrows(valid: Validity, s: string, more: string, open: nat, rich: bool)
    requires FenceAt(s, open) && FenceAt(s + more, open)
    requires Head(valid, s, open, false).Opener?
    requires var rest := Segments(valid, s, open + 3, false);
             NoneCompleted(s, more) || Shown(rest, rich) <= Raw(rest)
    ensures FromFence(valid, s, open, rich) <= FromFence(valid, s + more, open, rich)
    decreases |s| - open, 0
  {
    hide Segments, Shown, Raw, Head, FindFence, BodyStart, FindClose, LanguageEnd, Recognized, MayBeRecognized, Lower, FromFence;
    var t := s + more;
    var start := open + 3;
    var end := LanguageEnd(s, start);
    var rest := Segments(valid, s, start, false);
    CompletedOpener(valid, s, more, open, rich);
    if BodyStart(t, end).None? {
      forall q | OpenHeader(s, q)
        ensures BodyStart(t, q).None?
      {
        OpenHeadersShareTheirEnd(s, more, end, q);
      }
      ShownGrows(valid, s, more, start, rich);
      PrefixUnder(FENCE, Shown(rest, rich), Shown(Segments(valid, t, start, false), rich));
    } else {
      SegmentsAreLossless(valid, s, start, false);
      PrefixUnder(FENCE, Shown(rest, rich), s[start..]);
      assert s[open..] == FENCE + s[start..];
    }
  }

  /** What becomes of an unfinished header when more text arrives: a bare fence again, or a block
      that holds all of the old text. */
  lemma CompletedOpener(valid: Validity, s: string, more: string, open: nat, rich: bool)
    requires FenceAt(s, open) && FenceAt(s + more, open)
    requires Head(valid, s, open, false).Opener?
    ensures var t := s + more;
            var end := LanguageEnd(s, open + 3);
            && OpenHeader(s, end)
            && FromFence(valid, s, open, rich) == FENCE + Shown(Segments(valid, s, open + 3, false), rich)
            && (if BodyStart(t, end).None? then
                  FromFence(valid, t, open, rich) == FENCE + Shown(Segments(valid, t, open + 3, false), rich)
                else s[open..] <= FromFence(valid, t, open, rich))
  {
    hide Segments, Shown, FindFence, BodyStart, FindClose, LanguageEnd, Recognized, MayBeRecognized, Lower, Head, ClosesFirst;
    var t := s + more;
    OpenerHead(valid, s, open);
    OpenerExtends(valid, s, more, open);
    if BodyStart(t, LanguageEnd(s, open + 3)).Some? {
      var head := Head(valid, t, open, false);
      assert head.raw == s[open..] + t[|s|..open + |head.raw|];
      PrefixOfPrefix(s[open..], head.raw, FromFence(valid, t, open, rich));
    }
  }

  lemma OpenerHead(valid: Validity, s: string, open: nat)
    requires FenceAt(s, open) && Head(valid, s, open, false).Opener?
    ensures var end := LanguageEnd(s, open + 3);
            && end < |s| && OpenHeader(s, end) && !Recognized(Lower(s[open + 3..end]))
            && Head(valid, s, open, false) == Opener(FENCE)
  {
    hide FindFence, BodyStart, FindClose, LanguageEnd, Recognized, MayBeRecognized, Lower, OpenHeader, ClosesFirst;
  }

  lemma OpenerExtends(valid: Validity, s: string, more: string, open: nat)
    requires FenceAt(s, open) && FenceAt(s + more, open)
    requires var end := LanguageEnd(s, open + 3);
             end < |s| && OpenHeader(s, end) && !Recognized(Lower(s[open + 3..end]))
    ensures var t := s + more;
            var head := Head(valid, t, open, false);
            if BodyStart(t, LanguageEnd(s, open + 3)).None? then (head.Text? || head.Opener?) && |head.raw| == 3 && head.raw == FENCE
            else head.Text? && open + |head.raw| >= |s|
  {
    hide FindFence, BodyStart, FindClose, LanguageEnd, Recognized, MayBeRecognized, Lower, ClosesFirst;
    var t := s + more;
    var start := open + 3;
    var end := LanguageEnd(s, start);
    LanguageExtends(s, more, start);
    assert s[start..end] == t[start..end];
    BodyExtends(s, more, end);
  }

  // ---------- shrinking ----------

  const BREAK := "\n"

  lemma BreakCompletes(s: string, after: nat)
    requires OpenHeader(s, after)
    ensures BodyStart(s + BREAK, after) == Some(|s| + 1)
  {
    var t := s + BREAK;
    assert t[after] == s[after] && t[|s|] == '\n';
    LastBreak(s, after);
    BreakExtends(s, BREAK, after);
    assert t[|s| - 1] == s[|s| - 1];
  }

  lemma {:induction false} ShownIsInput(segments: seq<Segment>, rich: bool)
    requires '\n' !in Raw(segments)
    ensures '\n' !in Shown(segments, rich)
  {
    if segments != [] {
      ShownIsInput(segments[1..], rich || segments[0].Payload?);
    }
  }

  lemma OpenLineHasNoBreak(s: string, start: nat)
    requires start <= |s| && OpenHeader(s, LanguageEnd(s, start))
    ensures '\n' !in s[start..]
  {
    var end := LanguageEnd(s, start);
    LastBreak(s, end);
  }

  lemma PrefixCancel(a: string, b: string, c: string)
    requires a + b <= a + c
    ensures b <= c
  {
    assert b == (a + b)[|a|..] && c == (a + c)[|a|..];
  }

  lemma NotPrefixUnder(a: string, b: string, c: string)
    requires !(b <= c)
    ensures !(a + b <= a + c)
  {
    if a + b <= a + c {
      PrefixCancel(a, b, c);
    }
  }

  lemma PastTheLine(b: string, line: string)
    requires b <= line + BREAK && |b| > |line|
    ensures '\n' in b
  {
    assert b[|line|] == '\n';
  }

  lemma NotBeyondLine(b: string, line: string)
    requires '\n' !in b && !(b <= line)
    ensures !(b <= line + BREAK)
  {
    if b <= line + BREAK && |b| > |line| {
      PastTheLine(b, line);
    }
  }

  /** A line break completes the header of an ordinary fence, and all after it is verbatim. */
  lemma BreakShowsAll(valid: Validity, s: string, open: nat, rich: bool)
    requires FenceAt(s, open) && FenceAt(s + BREAK, open)
    requires Head(valid, s, open, false).Opener?
    ensures FromFence(valid, s + BREAK, open, rich) == (s + BREAK)[open..]
    ensures '\n' !in s[open + 3..]
  {
    hide Segments, Shown, BodyStart, FindClose, LanguageEnd, Recognized, MayBeRecognized, Lower, OpenHeader;
    var t := s + BREAK;
    var start := open + 3;
    var end := LanguageEnd(s, start);
    LanguageExtends(s, BREAK, start);
    assert s[start..end] == t[start..end];
    BreakCompletes(s, end);
    NothingCloses(valid, t, Lower(t[start..end]));
    OpenLineHasNoBreak(s, start);
    EndOfText(valid, t, false);
  }

  /** The unfinished header that is not steady: a line break takes back what was shown. */
  lemma UnsteadyOpenerShrinks(valid: Validity, s: string, open: nat, rich: bool)
    requires FenceAt(s, open) && FenceAt(s + BREAK, open)
    requires Head(valid, s, open, false).Opener?
    requires var rest := Segments(valid, s, open + 3, false); !(Shown(rest, rich) <= Raw(rest))
    ensures !(FromFence(valid, s, open, rich) <= FromFence(valid, s + BREAK, open, rich))
  {
    hide Segments, Shown, Raw, Head;
    var start := open + 3;
    var rest := Segments(valid, s, start, false);
    BreakShowsAll(valid, s, open, rich);
    SegmentsAreLossless(valid, s, start, false);
    ShownIsInput(rest, rich);
    NotBeyondLine(Shown(rest, rich), s[start..]);
    NotPrefixUnder(FENCE, Shown(rest, rich), s[start..] + BREAK);
    assert (s + BREAK)[open..] == FENCE + (s[start..] + BREAK);
    assert Mark(Head(valid, s, open, false), rich) == FENCE;
  }

  lemma NothingCloses(valid: Validity, s: string, language: string)
    ensures FindClose(valid, s, |s|, language, |s|).None?
  {
  }

  lemma {:induction false} UnsteadyShrinks(valid: Validity, s: string, cursor: nat, rich: bool)
    requires cursor <= |s| && !Steady(Segments(valid, s, cursor, false), rich)
    ensures !(Shown(Segments(valid, s, cursor, false), rich) <= Shown(Segments(valid, s + BREAK, cursor, false), rich))
    decreases |s| - cursor
  {
    hide Shown, Raw, Head, FindFence, FromFence, HeldTicks;
    var t := s + BREAK;
    if FindFence(s, cursor).None? {
      TailIsSteady(valid, s, cursor, rich);
    }
    var open := FindFence(s, cursor).value;
    var head := Head(valid, s, open, false);
    var next := open + |head.raw|;
    FenceExtends(s, BREAK, cursor);
    ShownFromFence(valid, s, cursor, open, rich);
    ShownFromFence(valid, t, cursor, open, rich);
    assert t[cursor..open] == s[cursor..open];
    SteadyStep(valid, s, cursor, open, rich);
    if head.Opener? {
      UnsteadyOpenerShrinks(valid, s, open, rich);
    } else {
      assert next < |s|;
      HeadIsStable(valid, s, BREAK, open);
      UnsteadyShrinks(valid, s, next, rich || head.Payload?);
      UnsteadyFence(valid, s, open, rich);
    }
    NotPrefixUnder(s[cursor..open], FromFence(valid, s, open, rich), FromFence(valid, t, open, rich));
  }

  lemma TailIsSteady(valid: Validity, s: string, cursor: nat, rich: bool)
    requires cursor <= |s| && FindFence(s, cursor).None?
    ensures Steady(Segments(valid, s, cursor, false), rich)
  {
    if cursor < |s| {
      var segments := Segments(valid, s, cursor, false);
      assert segments[1..][1..] == [];
    }
  }

  lemma UnsteadyFence(valid: Validity, s: string, open: nat, rich: bool)
    requires FenceAt(s, open) && FenceAt(s + BREAK, open)
    requires var head := Head(valid, s, open, false);
             var next, later := open + |head.raw|, rich || head.Payload?;
             && Head(valid, s + BREAK, open, false) == head
             && !(Shown(Segments(valid, s, next, false), later) <= Shown(Segments(valid, s + BREAK, next, false), later))
    ensures !(FromFence(valid, s, open, rich) <= FromFence(valid, s + BREAK, open, rich))
  {
    hide Segments, Shown, Head, FenceAt;
    var head := Head(valid, s, open, false);
    var next, later := open + |head.raw|, rich || head.Payload?;
    var a, b, c := Mark(head, rich), Shown(Segments(valid, s, next, false), later), Shown(Segments(valid, s + BREAK, next, false), later);
    NotPrefixUnder(a, b, c);
    assert FromFence(valid, s, open, rich) == a + b;
    assert FromFence(valid, s + BREAK, open, rich) == a + c;
  }

  /** The plain text of partial input is never taken back by what follows, whatever follows,
      exactly when the input is steady. */
  lemma PlainGrowsExactlyWhenSteady(valid: Validity, s: string)
    ensures Steady(Segments(valid, s, 0, false), false) <==>
            forall more :: Plain(valid, s, false) <= Plain(valid, s + more, false)
  {
    hide Steady, Segments, Shown;
    if Steady(Segments(valid, s, 0, false), false) {
      forall more
        ensures Plain(valid, s, false) <= Plain(valid, s + more, false)
      {
        ShownGrows(valid, s, more, 0, false);
      }
    } else {
      UnsteadyShrinks(valid, s, 0, false);
      assert !(Plain(valid, s, false) <= Plain(valid, s + BREAK, false));
    }
  }

  /** In particular, text is steady when no unfinished header precedes a recognised block. */
  lemma NoPayloadAfterOpenerIsSteady(valid: Validity, s: string)
    requires var segments := Segments(valid, s, 0, false);
             forall i, j | 0 <= i < j < |segments| && segments[i].Opener? :: !segments[j].Payload?
    ensures Steady(Segments(valid, s, 0, false), false)
  {
    hide Segments;
    HeldIsLast(valid, s, 0);
    SteadyWithoutPayload(Segments(valid, s, 0, false), false);
  }

  ghost predicate HeldOnlyLast(segments: seq<Segment>) {
    forall i | 0 <= i < |segments| - 1 :: !segments[i].Held?
  }

  lemma {:induction false} HeldIsLast(valid: Validity, s: string, cursor: nat)
    requires cursor <= |s|
    ensures HeldOnlyLast(Segments(valid, s, cursor, false))
    decreases |s| - cursor
  {
    hide FindFence, Head, Segments, HeldOnlyLast;
    if cursor < |s| && FindFence(s, cursor).Some? {
      var open := FindFence(s, cursor).value;
      var head := Head(valid, s, open, false);
      var rest := Segments(valid, s, open + |head.raw|, false);
      HeldIsLast(valid, s, open + |head.raw|);
      SegmentsStep(valid, s, cursor, false, open);
      HeldEndsText(valid, s, open);
      HeldCons(head, rest);
      HeldCons(Text(s[cursor..open]), [head] + rest);
    } else {
      TailHolds(valid, s, cursor);
    }
  }

  lemma HeldEndsText(valid: Validity, s: string, open: nat)
    requires FenceAt(s, open)
    ensures var head := Head(valid, s, open, false);
            head.Held? ==> Segments(valid, s, open + |head.raw|, false) == []
  {
    hide FindFence, Recognized, MayBeRecognized, BodyStart, FindClose, LanguageEnd, OpenHeader;
  }

  lemma HeldCons(x: Segment, rest: seq<Segment>)
    requires HeldOnlyLast(rest) && (x.Held? ==> rest == [])
    ensures HeldOnlyLast([x] + rest)
  {
    var all := [x] + rest;
    forall i | 0 <= i < |all| - 1 ensures !all[i].Held? {
      assert i > 0 ==> all[i] == rest[i - 1];
    }
  }

  lemma TailHolds(valid: Validity, s: string, cursor: nat)
    requires cursor <= |s| && (cursor == |s| || FindFence(s, cursor).None?)
    ensures HeldOnlyLast(Segments(valid, s, cursor, false))
  {
    hide FindFence, HeldTicks;
  }

  lemma {:induction false} SteadyWithoutPayload(segments: seq<Segment>, rich: bool)
    requires HeldOnlyLast(segments)
    requires forall i, j | 0 <= i < j < |segments| && segments[i].Opener? :: !segments[j].Payload?
    ensures Steady(segments, rich)
  {
    if segments != [] {
      if segments[0].Opener? {
        VerbatimIsPrefix(segments[1..], rich);
      } else {
        SteadyWithoutPayload(segments[1..], rich || segments[0].Payload?);
      }
    }
  }

  lemma {:induction false} VerbatimIsPrefix(segments: seq<Segment>, rich: bool)
    requires HeldOnlyLast(segments) && forall x <- segments :: !x.Payload?
    ensures Shown(segments, rich) <= Raw(segments)
  {
    if segments != [] {
      VerbatimIsPrefix(segments[1..], rich);
      if segments[0].Held? {
        assert segments[1..] == [];
      } else {
        PrefixUnder(segments[0].raw, Shown(segments[1..], rich), Raw(segments[1..]));
      }
    }
  }

  /** An input whose plain text is taken back: the header of the first fence is unfinished, so
      the second fence counts as an authored block until the line ends. */
  const TAKEN_BACK := "```a ```forge-ui{"

  lemma TextCanBeTakenBack(valid: Validity)
    ensures !Steady(Segments(valid, TAKEN_BACK, 0, false), false)
    ensures !(Plain(valid, TAKEN_BACK, false) <= Plain(valid, TAKEN_BACK + BREAK, false))
  {
    hide Segments, Shown, Raw, Head, Steady, FindFence, Recognized, MayBeRecognized, BodyStart, LanguageEnd, FindClose;
    var s := TAKEN_BACK;
    assert FenceAt(s, 0);
    FirstFence(valid);
    SecondFence(valid);
    SteadyStep(valid, s, 0, 0, false);
    SegmentsAreLossless(valid, s, 3, false);
    UnsteadyShrinks(valid, s, 0, false);
  }

  lemma FirstFence(valid: Validity)
    ensures FenceAt(TAKEN_BACK, 0) && Head(valid, TAKEN_BACK, 0, false).Opener?
  {
    hide FindFence, FindClose, LanguageEnd, LineBreak, Recognized;
    var s := TAKEN_BACK;
    assert |s| == 17 && s[3] == 'a' && s[4] == ' ';
    assert LanguageEnd(s, 3) == 4;
    assert forall i | 4 <= i < 17 :: s[i] != '\n' && s[i] != '\r';
    assert LineBreak(s, 4) == 17;
    OneLetter(s[3..4]);
  }

  lemma OneLetter(word: string)
    requires |word| == 1
    ensures !Recognized(Lower(word))
  {
  }

  lemma SecondFence(valid: Validity)
    ensures !(Shown(Segments(valid, TAKEN_BACK, 3, false), false) <= TAKEN_BACK[3..])
  {
    hide Segments, Shown, Head, FindFence, FenceAt;
    SecondHead(valid);
    ShownStep(valid, TAKEN_BACK, 3, false, 5, false);
    assert Shown(Segments(valid, TAKEN_BACK, 3, false), false)[2] == FALLBACK[0];
    assert TAKEN_BACK[3..][2] == '`';
  }

  lemma SecondHead(valid: Validity)
    ensures FindFence(TAKEN_BACK, 3) == Some(5) && FenceAt(TAKEN_BACK, 5)
    ensures Head(valid, TAKEN_BACK, 5, false) == Payload(TAKEN_BACK[5..])
  {
    hide FindFence, FindClose, LanguageEnd, Recognized, Lower;
    var s := TAKEN_BACK;
    assert |s| == 17 && s[3] == 'a' && s[4] == ' ' && s[16] == '{';
    assert FenceAt(s, 5) && !FenceAt(s, 3) && !FenceAt(s, 4);
    assert s[8..16] == "forge-ui";
    assert LanguageEnd(s, 8) == 16;
    LowerWord();
    assert FindFence(s, 16).None?;
    NothingToClose(valid, s, 16, "forge-ui");
  }

  lemma NothingToClose(valid: Validity, s: string, body: nat, language: string)
    requires FindFence(s, body).None?
    ensures FindClose(valid, s, body, language, body).None?
  {
  }

  lemma LowerWord()
    ensures Lower("forge-ui") == "forge-ui" && Recognized("forge-ui")
  {
    assert forall i | 0 <= i < 8 :: LowerByte("forge-ui"[i]) == "forge-ui"[i];
  }
}
