/** Plain text out of authored Markdown: plainAGUIContent of sdk/agui_rendering.go, with the
    fence scanner of sdk/rendered_content.go it relies on.

    A Go string is a sequence of bytes, so positions count bytes; a `char` stands for one. */
module FencedText {
  import opened Common

  const FENCE := "```"
  const FALLBACK := "[Interactive content]"

  /** `json.Valid` after trimming, which the closing rule of authored fences consults. */
  type Validity = string -> bool

  // ---------- the fence scanner ----------

  predicate LanguageByte(c: char) {
    'a' <= c <= 'z' || 'A' <= c <= 'Z' || '0' <= c <= '9' || c == '_' || c == '+' || c == '-'
  }

  function LowerByte(c: char): char {
    if 'A' <= c <= 'Z' then c - 'A' + 'a' else c
  }

  function Lower(s: string): string {
    seq(|s|, i requires 0 <= i < |s| => LowerByte(s[i]))
  }

  predicate FenceAt(s: string, i: nat) {
    i + 3 <= |s| && s[i] == '`' && s[i + 1] == '`' && s[i + 2] == '`'
  }

  /** The first fence at or after `from`. */
  function FindFence(s: string, from: nat): (r: Option<nat>)
    ensures r.Some? ==> from <= r.value && FenceAt(s, r.value)
    ensures forall i | from <= i && FenceAt(s, i) :: r.Some? && r.value <= i
    decreases |s| - from
  {
    if from + 3 > |s| then None
    else if FenceAt(s, from) then Some(from)
    else FindFence(s, from + 1)
  }

  function LanguageEnd(s: string, from: nat): (r: nat)
    requires from <= |s|
    ensures from <= r <= |s|
    ensures forall i | from <= i < r :: LanguageByte(s[i])
    ensures r < |s| ==> !LanguageByte(s[r])
    decreases |s| - from
  {
    if from < |s| && LanguageByte(s[from]) then LanguageEnd(s, from + 1) else from
  }

  predicate Recognized(language: string) {
    language == "forge-ui" || language == "forge-report" || language == "forge-data"
  }

  /** What has been read so far may still grow into a recognised language. */
  predicate MayBeRecognized(language: string) {
    language <= "forge-ui" || language <= "forge-report" || language <= "forge-data"
  }

  function LineBreak(s: string, from: nat): (r: nat)
    requires from <= |s|
    ensures from <= r <= |s|
    ensures forall i | from <= i < r :: s[i] != '\n' && s[i] != '\r'
    ensures r < |s| ==> s[r] == '\n' || s[r] == '\r'
    decreases |s| - from
  {
    if from < |s| && s[from] != '\n' && s[from] != '\r' then LineBreak(s, from + 1) else from
  }

  /** Where the body starts after the language word: None when the header is not valid. */
  function BodyStart(s: string, after: nat): (r: Option<nat>)
    ensures r.Some? ==> after <= r.value <= |s| && after < |s|
  {
    if after >= |s| then None
    else if s[after] == '\n' then Some(after + 1)
    else if s[after] == '\r' then
      if after + 1 < |s| && s[after + 1] == '\n' then Some(after + 2) else None
    else if s[after] == '{' || s[after] == '[' then Some(after)
    else if s[after] == ' ' || s[after] == '\t' then
      var line := LineBreak(s, after);
      if line == |s| then None
      else if s[line] == '\n' then Some(line + 1)
      else if line + 1 < |s| && s[line + 1] == '\n' then Some(line + 2)
      else None
    else None
  }

  /** The header's line ends in a line feed at `n`, with no carriage return but right before it. */
  ghost predicate LineEndsAt(s: string, after: nat, n: nat) {
    after <= n < |s| && s[n] == '\n' && forall i | after <= i < n :: s[i] != '\n' && (s[i] == '\r' ==> i == n - 1)
  }

  /** A header is valid when a brace or bracket follows the word, where the body then starts, or
      when its line, empty or after a blank, ends properly: then the body is what follows. */
  lemma BodyStartMeans(s: string, after: nat, body: nat)
    ensures BodyStart(s, after) == Some(body) <==>
              && after < |s|
              && (if s[after] == '{' || s[after] == '[' then body == after
                  else s[after] in "\r\n \t" && body > 0 && LineEndsAt(s, after, body - 1))
  {
    if after < |s| {
      var line := LineBreak(s, after);
      assert s[after] in "\r\n \t" <==> s[after] == '\r' || s[after] == '\n' || s[after] == ' ' || s[after] == '\t';
      if body > 0 && LineEndsAt(s, after, body - 1) {
        assert line <= body - 1;
        assert line < body - 1 ==> line == body - 2;
      }
    }
  }

  /** An invalid header that further input could still complete. */
  predicate OpenHeader(s: string, after: nat) {
    && after < |s| && BodyStart(s, after).None?
    && (if s[after] == '\r' then after + 1 == |s|
        else (s[after] == ' ' || s[after] == '\t') && LineBreak(s, after) + 1 >= |s|)
  }

  predicate ClosesAt(valid: Validity, s: string, body: nat, language: string, close: nat) {
    && body <= close <= |s|
    && (!Recognized(language) || valid(s[body..close]) || close == body || s[close - 1] == '\n' || s[close - 1] == '\r')
  }

  /** The fences a scan from `from` meets: after each, it goes on behind it. */
  ghost function Fences(s: string, from: nat): (r: seq<nat>)
    ensures forall p <- r :: from <= p && FenceAt(s, p)
    decreases |s| - from
  {
    match FindFence(s, from)
    case None => []
    case Some(p) => [p] + Fences(s, p + 3)
  }

  /** `close` is the first fence of the scan that closes the block, if any does. */
  ghost predicate ClosesFirst(valid: Validity, s: string, body: nat, language: string, from: nat, close: Option<nat>) {
    var fences := Fences(s, from);
    match close
    case None => forall j | 0 <= j < |fences| :: !ClosesAt(valid, s, body, language, fences[j])
    case Some(end) =>
      && ClosesAt(valid, s, body, language, end)
      && exists k :: 0 <= k < |fences| && fences[k] == end
                     && forall j | 0 <= j < k :: !ClosesAt(valid, s, body, language, fences[j])
  }

  lemma ClosesHere(valid: Validity, s: string, body: nat, language: string, from: nat)
    requires FindFence(s, from).Some? && ClosesAt(valid, s, body, language, FindFence(s, from).value)
    ensures ClosesFirst(valid, s, body, language, from, FindFence(s, from))
  {
    assert Fences(s, from)[0] == FindFence(s, from).value;
  }

  lemma ClosesLater(valid: Validity, s: string, body: nat, language: string, from: nat, close: Option<nat>)
    requires FindFence(s, from).Some? && !ClosesAt(valid, s, body, language, FindFence(s, from).value)
    requires ClosesFirst(valid, s, body, language, FindFence(s, from).value + 3, close)
    ensures ClosesFirst(valid, s, body, language, from, close)
  {
    hide ClosesAt, FindFence, FenceAt;
    var p := FindFence(s, from).value;
    var fences, later := Fences(s, from), Fences(s, p + 3);
    assert fences == [p] + later;
    assert forall j | 0 < j < |fences| :: fences[j] == later[j - 1];
    if close.Some? {
      var k :| 0 <= k < |later| && later[k] == close.value
               && forall j | 0 <= j < k :: !ClosesAt(valid, s, body, language, later[j]);
      assert fences[k + 1] == close.value;
    }
  }

  /** The first fence at or after `cursor` that closes the block whose body starts at `body`. */
  function FindClose(valid: Validity, s: string, body: nat, language: string, cursor: nat): (r: Option<nat>)
    requires body <= cursor
    ensures r.Some? ==> cursor <= r.value && FenceAt(s, r.value)
    ensures ClosesFirst(valid, s, body, language, cursor, r)
    decreases |s| - cursor
  {
    match FindFence(s, cursor)
    case None => None
    case Some(close) =>
      if ClosesAt(valid, s, body, language, close) then
        ClosesHere(valid, s, body, language, cursor);
        Some(close)
      else
        var later := FindClose(valid, s, body, language, close + 3);
        ClosesLater(valid, s, body, language, cursor, later);
        later
  }

  // ---------- segments ----------

  /** A text cut into what is shown, what is replaced and what is withheld.
      `Opener` is the fence of a header still unfinished at the end of the input; it is shown. */
  datatype Segment = Text(raw: string) | Opener(raw: string) | Payload(raw: string) | Held(raw: string)

  /** How many final backticks of s[from..] a partial text keeps back. */
  function HeldTicks(s: string, from: nat, complete: bool): (k: nat)
    requires from <= |s|
    ensures k <= 2 && from + k <= |s|
  {
    if complete || |s| == from || s[|s| - 1] != '`' then 0
    else if |s| - from == 1 || s[|s| - 2] != '`' then 1
    else 2
  }

  function Segments(valid: Validity, s: string, cursor: nat, complete: bool): (segments: seq<Segment>)
    requires cursor <= |s|
    decreases |s| - cursor
  {
    if cursor == |s| then [] else
      match FindFence(s, cursor)
      case None =>
        var cut := |s| - HeldTicks(s, cursor, complete);
        [Text(s[cursor..cut]), Held(s[cut..])]
      case Some(open) =>
        var head := Head(valid, s, open, complete);
        [Text(s[cursor..open]), head] + Segments(valid, s, open + |head.raw|, complete)
  }

  /** The segment that a fence starts; when it is the last, it runs to the end. */
  function Head(valid: Validity, s: string, open: nat, complete: bool): (head: Segment)
    requires FenceAt(s, open)
    ensures 3 <= |head.raw| && open + |head.raw| <= |s|
    ensures head.raw == s[open..open + |head.raw|]
    ensures head.Opener? ==> |head.raw| == 3
  {
    var end := LanguageEnd(s, open + 3);
    var language := Lower(s[open + 3..end]);
    if end == |s| && !complete then
      if MayBeRecognized(language) then Held(s[open..]) else Text(s[open..])
    else
      match BodyStart(s, end)
      case None =>
        if Recognized(language) then
          if complete then Payload(s[open..]) else Held(s[open..])
        else if OpenHeader(s, end) then Opener(s[open..open + 3])
        else Text(s[open..open + 3])
      case Some(body) =>
        var close := FindClose(valid, s, body, language, body);
        var block := if close.Some? then s[open..close.value + 3] else s[open..];
        if Recognized(language) then Payload(block) else Text(block)
  }

  // ---------- what is shown ----------

  function Raw(segments: seq<Segment>): string {
    if segments == [] then "" else segments[0].raw + Raw(segments[1..])
  }

  predicate Rich(segments: seq<Segment>) {
    exists x <- segments :: x.Payload?
  }

  /** `rich` says that an earlier payload has already left its marker. */
  function Shown(segments: seq<Segment>, rich: bool): string {
    if segments == [] then "" else
      match segments[0]
      case Text(raw) => raw + Shown(segments[1..], rich)
      case Opener(raw) => raw + Shown(segments[1..], rich)
      case Payload(_) => (if rich then "" else FALLBACK) + Shown(segments[1..], true)
      case Held(_) => Shown(segments[1..], rich)
  }

  function Plain(valid: Validity, s: string, complete: bool): string {
    Shown(Segments(valid, s, 0, complete), false)
  }

  /** What one segment adds to the output. */
  function Mark(x: Segment, rich: bool): string {
    match x
    case Text(raw) => raw
    case Opener(raw) => raw
    case Payload(_) => if rich then "" else FALLBACK
    case Held(_) => ""
  }

  lemma ShownCons(x: Segment, rest: seq<Segment>, rich: bool)
    ensures Shown([x] + rest, rich) == Mark(x, rich) + Shown(rest, rich || x.Payload?)
    ensures Rich([x] + rest) <==> x.Payload? || Rich(rest)
  {
    assert ([x] + rest)[1..] == rest;
  }

  /** One round of the cursor loop. */
  lemma SegmentsStep(valid: Validity, s: string, cursor: nat, complete: bool, open: nat)
    requires cursor < |s| && FindFence(s, cursor) == Some(open)
    ensures var head := Head(valid, s, open, complete);
            Segments(valid, s, cursor, complete)
            == [Text(s[cursor..open])] + ([head] + Segments(valid, s, open + |head.raw|, complete))
  {
    hide Head, FindFence, FenceAt, HeldTicks;
    var head := Head(valid, s, open, complete);
    var rest := Segments(valid, s, open + |head.raw|, complete);
    assert [Text(s[cursor..open]), head] + rest == [Text(s[cursor..open])] + ([head] + rest);
  }

  lemma ShownStep(valid: Validity, s: string, cursor: nat, complete: bool, open: nat, rich: bool)
    requires cursor < |s| && FindFence(s, cursor) == Some(open)
    ensures var head := Head(valid, s, open, complete);
            var rest := Segments(valid, s, open + |head.raw|, complete);
            && Shown(Segments(valid, s, cursor, complete), rich)
               == s[cursor..open] + Mark(head, rich) + Shown(rest, rich || head.Payload?)
            && (Rich(Segments(valid, s, cursor, complete)) <==> head.Payload? || Rich(rest))
  {
    hide Head, FindFence, FenceAt, Segments, Shown, Rich;
    var head := Head(valid, s, open, complete);
    var rest := Segments(valid, s, open + |head.raw|, complete);
    var text := Text(s[cursor..open]);
    SegmentsStep(valid, s, cursor, complete, open);
    ShownCons(text, [head] + rest, rich);
    ShownCons(head, rest, rich);
  }

  method ReadLanguage(raw: string, start: nat) returns (end: nat)
    requires start <= |raw|
    ensures end == LanguageEnd(raw, start)
  {
    end := start;
    while end < |raw| && LanguageByte(raw[end])
      invariant start <= end <= |raw|
      invariant LanguageEnd(raw, start) == LanguageEnd(raw, end)
    {
      end := end + 1;
    }
  }

  /** The loop body of plainAGUIContent from a fence on: what it writes, and where it goes on;
      `next == |raw|` is the source's `break`. */
  method ReadFence(valid: Validity, raw: string, open: nat, complete: bool, rich: bool)
    returns (piece: string, richSeen: bool, next: nat)
    requires FenceAt(raw, open)
    ensures var head := Head(valid, raw, open, complete);
            piece == Mark(head, rich) && richSeen == (rich || head.Payload?) && next == open + |head.raw|
  {
    hide Recognized, MayBeRecognized, BodyStart, FindClose, LanguageEnd, OpenHeader;
    var languageStart := open + 3;
    var languageEnd := ReadLanguage(raw, languageStart);
    richSeen := rich;
    var language := Lower(raw[languageStart..languageEnd]);
    var recognized := Recognized(language);
    if languageEnd == |raw| && !complete {
      return if MayBeRecognized(language) then "" else raw[open..], richSeen, |raw|;
    }
    var body := BodyStart(raw, languageEnd);
    if body.None? {
      if recognized {
        if !complete {
          return "", richSeen, |raw|;
        }
        piece := if !richSeen then FALLBACK else "";
        return piece, true, |raw|;
      }
      return FENCE, richSeen, languageStart;
    }
    var close := FindClose(valid, raw, body.value, language, body.value);
    next := if close.None? then |raw| else close.value + 3;
    if recognized {
      piece := if !richSeen then FALLBACK else "";
      richSeen := true;
    } else {
      piece := raw[open..next];
    }
  }

  /** The last text of the input; up to two final backticks of a partial text are kept back. */
  method ReadTail(raw: string, cursor: nat, complete: bool) returns (tail: string)
    requires cursor <= |raw|
    ensures tail == raw[cursor..|raw| - HeldTicks(raw, cursor, complete)]
  {
    tail := raw[cursor..];
    if !complete {
      var count := 0;
      while count < 2 && tail != "" && tail[|tail| - 1] == '`'
        invariant 0 <= count <= 2 && count <= |raw| - cursor
        invariant tail == raw[cursor..|raw| - count]
        invariant forall i | |raw| - count <= i < |raw| :: raw[i] == '`'
      {
        tail := tail[..|tail| - 1];
        count := count + 1;
      }
      assert count == HeldTicks(raw, cursor, complete);
    }
  }

  lemma Regroup(a: string, b: string, c: string, d: string)
    ensures a + b + c + d == a + (b + c + d)
  {
  }

  /** plainAGUIContent: the cursor loop. */
  method PlainContent(valid: Validity, raw: string, complete: bool) returns (out: string, rich: bool)
    ensures out == Plain(valid, raw, complete)
    ensures rich == Rich(Segments(valid, raw, 0, complete))
  {
    hide FindFence, FenceAt, Head, HeldTicks, Segments, Shown, Rich, Mark;
    EndOfText(valid, raw, complete);
    out, rich := "", false;
    var cursor := 0;
    while cursor < |raw|
      invariant 0 <= cursor <= |raw|
      invariant out + Shown(Segments(valid, raw, cursor, complete), rich) == Plain(valid, raw, complete)
      invariant (rich || Rich(Segments(valid, raw, cursor, complete))) == Rich(Segments(valid, raw, 0, complete))
      decreases |raw| - cursor
    {
      var index := FindFence(raw, cursor);
      if index.None? {
        var tail := ReadTail(raw, cursor, complete);
        HeldTail(valid, raw, cursor, complete, rich);
        out := out + tail;
        return;
      }
      ShownStep(valid, raw, cursor, complete, index.value, rich);
      ghost var before, text := out, raw[cursor..index.value];
      out := out + raw[cursor..index.value];
      var piece;
      piece, rich, cursor := ReadFence(valid, raw, index.value, complete, rich);
      out := out + piece;
      Regroup(before, text, piece, Shown(Segments(valid, raw, cursor, complete), rich));
    }
  }

  lemma EndOfText(valid: Validity, s: string, complete: bool)
    ensures forall rich :: Shown(Segments(valid, s, |s|, complete), rich) == ""
    ensures !Rich(Segments(valid, s, |s|, complete))
  {
  }

  lemma HeldTail(valid: Validity, s: string, cursor: nat, complete: bool, rich: bool)
    requires cursor < |s| && FindFence(s, cursor).None?
    ensures Shown(Segments(valid, s, cursor, complete), rich) == s[cursor..|s| - HeldTicks(s, cursor, complete)]
    ensures !Rich(Segments(valid, s, cursor, complete))
  {
    var cut := |s| - HeldTicks(s, cursor, complete);
    var held := [Held(s[cut..])];
    assert Segments(valid, s, cursor, complete) == [Text(s[cursor..cut])] + held;
    assert Shown(held, rich) == "";
  }

  // ---------- what the segments are ----------

  /** Cutting loses nothing: the segments spell the text. */
  lemma {:induction false} SegmentsAreLossless(valid: Validity, s: string, cursor: nat, complete: bool)
    requires cursor <= |s|
    ensures Raw(Segments(valid, s, cursor, complete)) == s[cursor..]
    decreases |s| - cursor
  {
    hide Head, HeldTicks, FindFence, FenceAt, Raw, Segments;
    if cursor < |s| && FindFence(s, cursor).Some? {
      var open := FindFence(s, cursor).value;
      var head := Head(valid, s, open, complete);
      var next := open + |head.raw|;
      SegmentsStep(valid, s, cursor, complete, open);
      SegmentsAreLossless(valid, s, next, complete);
      RawCons(Text(s[cursor..open]), [head] + Segments(valid, s, next, complete));
      RawCons(head, Segments(valid, s, next, complete));
      assert s[cursor..] == s[cursor..open] + (s[open..next] + s[next..]);
    } else {
      RawOfTail(valid, s, cursor, complete);
    }
  }

  lemma RawCons(x: Segment, rest: seq<Segment>)
    ensures Raw([x] + rest) == x.raw + Raw(rest)
  {
    assert ([x] + rest)[1..] == rest;
  }

  lemma RawOfTail(valid: Validity, s: string, cursor: nat, complete: bool)
    requires cursor <= |s| && (cursor == |s| || FindFence(s, cursor).None?)
    ensures Raw(Segments(valid, s, cursor, complete)) == s[cursor..]
  {
    hide FindFence, HeldTicks, Raw;
    var cut := |s| - HeldTicks(s, cursor, complete);
    assert Raw([]) == "" by { NothingSpells(); }
    if cursor < |s| {
      assert Segments(valid, s, cursor, complete) == [Text(s[cursor..cut])] + ([Held(s[cut..])] + []);
      RawCons(Text(s[cursor..cut]), [Held(s[cut..])] + []);
      RawCons(Held(s[cut..]), []);
      assert s[cursor..] == s[cursor..cut] + s[cut..];
    }
  }

  lemma NothingSpells()
    ensures Raw([]) == ""
  {
  }

  /** A block whose body starts at `body` and that stops at `stop`: behind the first fence of the
      scan that closes it, or at the end of the text if none does. */
  ghost predicate BlockStops(valid: Validity, s: string, body: nat, language: string, stop: nat) {
    || (stop >= 3 && ClosesFirst(valid, s, body, language, body, Some(stop - 3)))
    || (stop == |s| && ClosesFirst(valid, s, body, language, body, None))
  }

  /** What a fence at `open` makes of the text from there up to `stop`. Recognised blocks are
      payloads, blocks in another language and bare fences are shown, and a partial text holds
      back what may still become a payload. */
  ghost predicate Spans(valid: Validity, s: string, open: nat, stop: nat, x: Segment, complete: bool) {
    && FenceAt(s, open) && open + 3 <= stop <= |s|
    && var end := LanguageEnd(s, open + 3);
       var language := Lower(s[open + 3..end]);
       var body := BodyStart(s, end);
       match x
       case Payload(_) =>
         && Recognized(language) && (complete || end < |s|)
         && (if body.Some? then BlockStops(valid, s, body.value, language, stop) else complete && stop == |s|)
       case Text(_) =>
         && !Recognized(language)
         && (if end == |s| && !complete then !MayBeRecognized(language) && stop == |s|
             else if body.Some? then BlockStops(valid, s, body.value, language, stop)
             else stop == open + 3 && !OpenHeader(s, end))
       case Opener(_) => !Recognized(language) && OpenHeader(s, end) && stop == open + 3
       case Held(_) =>
         && !complete && stop == |s|
         && (if end == |s| then MayBeRecognized(language) else Recognized(language) && body.None?)
  }

  /** No fence starts in s[from..to]. */
  ghost predicate NoFence(s: string, from: nat, to: nat) {
    forall p | from <= p < to :: !FenceAt(s, p)
  }

  /** What a segment starting at `at` is: text without a fence, what a fence makes of the text, or
      the final backticks of a partial text. */
  ghost predicate Fits(valid: Validity, s: string, at: nat, x: Segment, complete: bool) {
    var stop := at + |x.raw|;
    && stop <= |s| && x.raw == s[at..stop]
    && (|| (x.Text? && NoFence(s, at, stop))
        || Spans(valid, s, at, stop, x, complete)
        || (x.Held? && stop == |s| && NoFence(s, at, stop) && (x.raw == "" || (!complete && |x.raw| <= 2 && forall c <- x.raw :: c == '`'))))
  }

  /** Every segment is what the text makes of it at its place; a payload, in particular, ends
      where its block does, and no shown text hides a fence that starts one. */
  lemma {:induction false} SegmentsAreSound(valid: Validity, s: string, cursor: nat, complete: bool, i: nat)
    requires cursor <= |s| && i < |Segments(valid, s, cursor, complete)|
    ensures var segments := Segments(valid, s, cursor, complete);
            Fits(valid, s, cursor + |Raw(segments[..i])|, segments[i], complete)
    decreases |s| - cursor
  {
    hide Head, FindFence, HeldTicks, Fits, Raw, Segments;
    var segments := Segments(valid, s, cursor, complete);
    NothingSpells();
    SegmentsOfTail(valid, s, cursor, complete);
    if cursor < |s| && FindFence(s, cursor).Some? {
      var open := FindFence(s, cursor).value;
      var head := Head(valid, s, open, complete);
      var text := Text(s[cursor..open]);
      var rest := Segments(valid, s, open + |head.raw|, complete);
      SegmentsStep(valid, s, cursor, complete, open);
      if i == 0 {
        TextFits(valid, s, cursor, open, complete);
        assert segments[..0] == [] && segments[0] == text;
      } else if i == 1 {
        assert segments[..1] == [text] + [] && segments[1] == head;
        RawCons(text, []);
        HeadFits(valid, s, open, complete);
      } else {
        SegmentsAreSound(valid, s, open + |head.raw|, complete, i - 2);
        PastTwo(text, head, rest, i);
        RawCons(text, [head] + rest[..i - 2]);
        RawCons(head, rest[..i - 2]);
      }
    } else {
      var cut := |s| - HeldTicks(s, cursor, complete);
      if i == 0 {
        TextFits(valid, s, cursor, cut, complete);
        assert segments[..0] == [];
      } else {
        TailFits(valid, s, cursor, complete);
        assert segments[..1] == [segments[0]] + [];
        RawCons(segments[0], []);
      }
    }
  }

  lemma PastTwo<T>(x: T, y: T, rest: seq<T>, i: nat)
    requires 2 <= i < 2 + |rest|
    ensures ([x] + ([y] + rest))[..i] == [x] + ([y] + rest[..i - 2])
    ensures ([x] + ([y] + rest))[i] == rest[i - 2]
  {
  }

  lemma SegmentsOfTail(valid: Validity, s: string, cursor: nat, complete: bool)
    requires cursor <= |s|
    ensures cursor == |s| ==> Segments(valid, s, cursor, complete) == []
    ensures cursor < |s| && FindFence(s, cursor).None? ==>
              var cut := |s| - HeldTicks(s, cursor, complete);
              Segments(valid, s, cursor, complete) == [Text(s[cursor..cut]), Held(s[cut..])]
  {
    hide HeldTicks, FindFence, Head;
  }

  lemma TextFits(valid: Validity, s: string, from: nat, to: nat, complete: bool)
    requires from <= to <= |s|
    requires FindFence(s, from) == None || FindFence(s, from).value >= to
    ensures Fits(valid, s, from, Text(s[from..to]), complete)
  {
    hide Spans, FenceAt;
  }

  lemma TailFits(valid: Validity, s: string, from: nat, complete: bool)
    requires from <= |s| && FindFence(s, from) == None
    ensures var cut := |s| - HeldTicks(s, from, complete);
            Fits(valid, s, cut, Held(s[cut..]), complete)
  {
    hide Spans, FenceAt;
  }

  lemma HeadFits(valid: Validity, s: string, open: nat, complete: bool)
    requires FenceAt(s, open)
    ensures Fits(valid, s, open, Head(valid, s, open, complete), complete)
  {
    hide Recognized, MayBeRecognized, BodyStart, FindClose, OpenHeader, LanguageEnd, Lower, ClosesFirst;
    RecognizedMayBe(Lower(s[open + 3..LanguageEnd(s, open + 3)]));
  }

  lemma RecognizedMayBe(language: string)
    ensures Recognized(language) ==> MayBeRecognized(language)
  {
  }

  // ---------- what is shown, and what is not ----------

  /** The text of the segments that are passed on verbatim. */
  function Prose(segments: seq<Segment>): string {
    if segments == [] then "" else
      (if segments[0].Text? || segments[0].Opener? then segments[0].raw else "") + Prose(segments[1..])
  }

  lemma {:induction false} ShownIsProse(segments: seq<Segment>, rich: bool)
    requires rich || !Rich(segments)
    ensures Shown(segments, rich) == Prose(segments)
  {
    if segments != [] {
      assert segments == [segments[0]] + segments[1..];
      ShownIsProse(segments[1..], rich);
    }
  }

  lemma NotRichCons(x: Segment, rest: seq<Segment>)
    requires !Rich([x] + rest)
    ensures !x.Payload? && !Rich(rest)
  {
    var all := [x] + rest;
    assert x in all && forall y <- rest :: y in all;
  }

  /** Everything shown is the prose in order, with the marker exactly once, where the first
      payload stood. */
  lemma {:induction false} MarkerReplacesFirstPayload(segments: seq<Segment>, i: nat)
    requires i < |segments| && segments[i].Payload? && !Rich(segments[..i])
    ensures Shown(segments, false) == Prose(segments[..i]) + FALLBACK + Prose(segments[i + 1..])
  {
    if i == 0 {
      ShownIsProse(segments[1..], true);
    } else {
      var first, rest := segments[0], segments[1..];
      assert segments[..i] == [first] + rest[..i - 1];
      assert rest[i..] == segments[i + 1..];
      NotRichCons(first, rest[..i - 1]);
      MarkerReplacesFirstPayload(rest, i - 1);
      assert segments[..i][1..] == rest[..i - 1];
      assert segments[0] == segments[..i][0];
    }
  }

  /** On complete text without a recognised block, nothing changes. */
  lemma PlainTextIsUnchanged(valid: Validity, s: string)
    requires !Rich(Segments(valid, s, 0, true))
    ensures Plain(valid, s, true) == s
  {
    var segments := Segments(valid, s, 0, true);
    SegmentsAreLossless(valid, s, 0, true);
    forall x | x in segments && x.Held?
      ensures x.raw == ""
    {
      var i :| 0 <= i < |segments| && segments[i] == x;
      SegmentsAreSound(valid, s, 0, true, i);
    }
    ShownIsProse(segments, false);
    ProseOfAllText(segments);
    assert s[0..] == s;
  }

  lemma {:induction false} ProseOfAllText(segments: seq<Segment>)
    requires forall x <- segments :: !x.Payload? && (x.Held? ==> x.raw == "")
    ensures Prose(segments) == Raw(segments)
  {
    if segments != [] {
      ProseOfAllText(segments[1..]);
    }
  }

  /** On complete text with a recognised block: the payloads are exactly the recognised blocks,
      each from its fence to the first fence that closes it; they are deleted, the marker stands
      once in the place of the first, and the rest of the input is kept in order. */
  lemma PayloadsAreReplaced(valid: Validity, s: string) returns (i: nat)
    requires Rich(Segments(valid, s, 0, true))
    ensures var segments := Segments(valid, s, 0, true);
            && i < |segments| && segments[i].Payload? && !Rich(segments[..i])
            && Raw(segments) == s
            && (forall k | 0 <= k < |segments| :: Fits(valid, s, |Raw(segments[..k])|, segments[k], true))
            && Plain(valid, s, true) == Prose(segments[..i]) + FALLBACK + Prose(segments[i + 1..])
  {
    hide Fits, Segments, Rich, Raw, Prose, Shown;
    var segments := Segments(valid, s, 0, true);
    SegmentsAreLossless(valid, s, 0, true);
    forall k | 0 <= k < |segments|
      ensures Fits(valid, s, |Raw(segments[..k])|, segments[k], true)
    {
      SegmentsAreSound(valid, s, 0, true, k);
    }
    assert s[0..] == s;
    i := FirstPayload(segments);
    MarkerReplacesFirstPayload(segments, i);
  }

  lemma {:induction false} FirstPayload(segments: seq<Segment>) returns (i: nat)
    requires Rich(segments)
    ensures i < |segments| && segments[i].Payload? && !Rich(segments[..i])
  {
    if segments[0].Payload? {
      i := 0;
    } else {
      assert segments == [segments[0]] + segments[1..];
      var j := FirstPayload(segments[1..]);
      i := j + 1;
      assert segments[..i] == [segments[0]] + segments[1..][..j];
    }
  }
}
