/** The streaming filter that separates reasoning inside <think>...</think> from
    user-facing text (src/application/gateway/demuxer.py).

    The reference is `Scan`, which reads a whole text and labels every character of it
    as said, thought, part of a tag, or still buffered.  The class works chunk by chunk
    with a carry buffer; the lemmas say that no way of cutting the text is visible in
    the result, that nothing is lost, and when demuxing undoes rendering. */
module Demuxer {

  const THINK_OPEN: string := "<think>"
  const THINK_CLOSE: string := "</think>"

  datatype Piece = Said(c: char) | Thought(c: char) | OpenTag | CloseTag

  datatype Scanned = Scanned(pieces: seq<Piece>, inside: bool, buffer: string)

  // ---------------------------------------------------------------- reading the pieces

  function Awaited(inside: bool): string {
    if inside then THINK_CLOSE else THINK_OPEN
  }

  function TagPiece(inside: bool): Piece {
    if inside then CloseTag else OpenTag
  }

  function Letter(inside: bool, c: char): Piece {
    if inside then Thought(c) else Said(c)
  }

  function Letters(inside: bool, s: string): seq<Piece> {
    seq(|s|, i requires 0 <= i < |s| => Letter(inside, s[i]))
  }

  /** Three readings of the pieces: the raw text they came from, what is shown to the
      user, and the reasoning. */
  datatype View = Raw | User | Reasoning

  function PieceText(view: View, p: Piece): string {
    match p
    case Said(c) => if view.Reasoning? then "" else [c]
    case Thought(c) => if view.User? then "" else [c]
    case OpenTag => if view.Raw? then THINK_OPEN else ""
    case CloseTag => if view.Raw? then THINK_CLOSE else ""
  }

  function Text(view: View, ps: seq<Piece>): string {
    if ps == [] then "" else PieceText(view, ps[0]) + Text(view, ps[1..])
  }

  lemma {:induction false} TextOfConcat(view: View, a: seq<Piece>, b: seq<Piece>)
    ensures Text(view, a + b) == Text(view, a) + Text(view, b)
  {
    if a == [] {
      assert a + b == b;
    } else {
      assert (a + b)[1..] == a[1..] + b;
      TextOfConcat(view, a[1..], b);
      assert (a + b)[0] == a[0];
    }
  }

  lemma {:induction false} TextOfLetters(view: View, inside: bool, s: string)
    ensures Text(view, Letters(inside, s)) ==
      if view == (if inside then User else Reasoning) then "" else s
  {
    if s != "" {
      assert Letters(inside, s)[1..] == Letters(inside, s[1..]);
      TextOfLetters(view, inside, s[1..]);
      assert s == [s[0]] + s[1..];
    }
  }

  /** What one call returns. */
  function Outputs(ps: seq<Piece>): (string, string) {
    (Text(User, ps), Text(Reasoning, ps))
  }

  // ---------------------------------------------------------------- the reference scan

  /** A text that is a prefix of the awaited tag (the whole tag included) is held back. */
  function Scan(inside: bool, s: string): Scanned
    decreases |s|
  {
    if s <= Awaited(inside) then Scanned([], inside, s)
    else if Awaited(inside) <= s then
      Prefixed([TagPiece(inside)], Scan(!inside, s[|Awaited(inside)|..]))
    else Prefixed([Letter(inside, s[0])], Scan(inside, s[1..]))
  }

  function Prefixed(ps: seq<Piece>, r: Scanned): Scanned {
    r.(pieces := ps + r.pieces)
  }

  /** What the demuxer may carry between two calls. */
  predicate CarryOk(inside: bool, buffer: string) {
    buffer <= Awaited(inside)
  }

  /** Tags alternate: an opening tag only outside, a closing tag only inside. */
  predicate Alternates(inside: bool, ps: seq<Piece>, after: bool)
    decreases |ps|
  {
    if ps == [] then inside == after
    else match ps[0]
      case Said(_) => !inside && Alternates(inside, ps[1..], after)
      case Thought(_) => inside && Alternates(inside, ps[1..], after)
      case OpenTag => !inside && Alternates(true, ps[1..], after)
      case CloseTag => inside && Alternates(false, ps[1..], after)
  }

  ghost predicate LosesNothing(inside: bool, s: string, r: Scanned) {
    && Text(Raw, r.pieces) + r.buffer == s
    && CarryOk(r.inside, r.buffer)
    && Alternates(inside, r.pieces, r.inside)
  }

  /** Conservation: every character of the input is in the pieces, in order, or in the
      buffer, and what is said or thought agrees with the tags read so far. */
  lemma {:induction false} ScanLosesNothing(inside: bool, s: string)
    ensures LosesNothing(inside, s, Scan(inside, s))
  {
    var p := (m: bool, t: string) => LosesNothing(m, t, Scan(m, t));
    forall m: bool, t: string | t <= Awaited(m) ensures p(m, t) {
      assert "" + t == t;
    }
    forall m: bool, t: string | Awaited(m) < t && p(!m, t[|Awaited(m)|..]) ensures p(m, t) {
      TagLosesNothing(m, t);
    }
    forall m: bool, t: string | NoTagFirst(m, t) && p(m, t[1..]) ensures p(m, t) {
      LetterLosesNothing(m, t);
    }
    ScanInduction(p, inside, s);
  }

  /** The scan passes over the first character. */
  predicate NoTagFirst(inside: bool, s: string) {
    !(s <= Awaited(inside)) && !(Awaited(inside) <= s)
  }

  /** What holds of a held-back end, and holds before a tag or a character when it holds
      after it, holds of every text. */
  lemma {:induction false} ScanInduction(p: (bool, string) -> bool, inside: bool, s: string)
    requires forall m: bool, t: string :: t <= Awaited(m) ==> p(m, t)
    requires forall m: bool, t: string :: Awaited(m) < t && p(!m, t[|Awaited(m)|..]) ==> p(m, t)
    requires forall m: bool, t: string :: NoTagFirst(m, t) && p(m, t[1..]) ==> p(m, t)
    ensures p(inside, s)
    decreases |s|
  {
    if s <= Awaited(inside) {
    } else if Awaited(inside) <= s {
      ScanInduction(p, !inside, s[|Awaited(inside)|..]);
    } else {
      ScanInduction(p, inside, s[1..]);
    }
  }

  lemma {:induction false} TagLosesNothing(inside: bool, s: string)
    requires Awaited(inside) < s
    requires LosesNothing(!inside, s[|Awaited(inside)|..], Scan(!inside, s[|Awaited(inside)|..]))
    ensures LosesNothing(inside, s, Scan(inside, s))
  {
    var rest := s[|Awaited(inside)|..];
    AfterTag(inside, rest, Scan(!inside, rest), s);
  }

  lemma {:induction false} AfterTag(inside: bool, rest: string, r: Scanned, s: string)
    requires Awaited(inside) <= s && rest == s[|Awaited(inside)|..] && LosesNothing(!inside, rest, r)
    ensures LosesNothing(inside, s, Prefixed([TagPiece(inside)], r))
  {
    RawOfOne(TagPiece(inside), r, rest);
    assert s == Awaited(inside) + rest;
  }

  lemma {:induction false} LetterLosesNothing(inside: bool, s: string)
    requires NoTagFirst(inside, s) && LosesNothing(inside, s[1..], Scan(inside, s[1..]))
    ensures LosesNothing(inside, s, Scan(inside, s))
  {
    AfterLetter(inside, s[0], s[1..], Scan(inside, s[1..]), s);
  }

  lemma {:induction false} AfterLetter(inside: bool, c: char, rest: string, r: Scanned, s: string)
    requires s != "" && c == s[0] && rest == s[1..] && LosesNothing(inside, rest, r)
    ensures LosesNothing(inside, s, Prefixed([Letter(inside, c)], r))
  {
    RawOfOne(Letter(inside, c), r, rest);
    assert s == [c] + rest;
  }

  lemma {:induction false} RawOfOne(p: Piece, r: Scanned, rest: string)
    requires Text(Raw, r.pieces) + r.buffer == rest
    ensures Text(Raw, [p] + r.pieces) + r.buffer == PieceText(Raw, p) + rest
    ensures ([p] + r.pieces)[1..] == r.pieces
  {
    assert Text(Raw, [p] + r.pieces) == PieceText(Raw, p) + Text(Raw, r.pieces);
    assert PieceText(Raw, p) + Text(Raw, r.pieces) + r.buffer == PieceText(Raw, p) + rest;
  }

  /** One cut: scanning s + t is scanning s, then the carry of s followed by t. */
  lemma {:induction false} ScanOfCut(inside: bool, s: string, t: string)
    ensures var r := Scan(inside, s);
      Scan(inside, s + t) == Prefixed(r.pieces, Scan(r.inside, r.buffer + t))
    decreases |s|
  {
    var tag := Awaited(inside);
    if s <= tag {
      assert [] + Scan(inside, s + t).pieces == Scan(inside, s + t).pieces;
    } else if tag <= s {
      assert (s + t)[|tag|..] == s[|tag|..] + t;
      ScanOfCut(!inside, s[|tag|..], t);
      PrefixedTwice([TagPiece(inside)], Scan(!inside, s[|tag|..]), t);
    } else {
      assert (s + t)[1..] == s[1..] + t;
      NoPrefixEitherWay(s, t, tag);
      ScanOfCut(inside, s[1..], t);
      PrefixedTwice([Letter(inside, s[0])], Scan(inside, s[1..]), t);
    }
  }

  lemma {:induction false} PrefixedTwice(ps: seq<Piece>, r: Scanned, t: string)
    ensures var rest := Scan(r.inside, r.buffer + t);
      Prefixed(ps, Prefixed(r.pieces, rest)) == Prefixed(Prefixed(ps, r).pieces, rest)
  {
    var rest := Scan(r.inside, r.buffer + t);
    assert ps + (r.pieces + rest.pieces) == (ps + r.pieces) + rest.pieces;
  }

  lemma {:induction false} NoPrefixEitherWay(s: string, t: string, tag: string)
    requires !(s <= tag) && !(tag <= s)
    ensures !(s + t <= tag) && !(tag <= s + t)
  {
    var k := 0;
    while k < |s| && k < |tag| && s[k] == tag[k]
      invariant k <= |s| && k <= |tag| && s[..k] == tag[..k]
    {
      k := k + 1;
    }
    assert (s + t)[k] == s[k] != tag[k];
  }

  // ---------------------------------------------------------------- whole streams of text

  function Join(chunks: seq<string>): string {
    if chunks == [] then "" else chunks[0] + Join(chunks[1..])
  }

  /** What consecutive calls give: the pieces so far and the state after the last call. */
  function Fed(inside: bool, buffer: string, chunks: seq<string>): Scanned
    decreases |chunks|
  {
    if chunks == [] then Scanned([], inside, buffer)
    else
      var r := Scan(inside, buffer + chunks[0]);
      Prefixed(r.pieces, Fed(r.inside, r.buffer, chunks[1..]))
  }

  /** Chunking independence: any cutting gives the pieces, mode and carry of one call. */
  lemma {:induction false} ChunkingIsInvisible(inside: bool, buffer: string, chunks: seq<string>)
    requires CarryOk(inside, buffer)
    ensures Fed(inside, buffer, chunks) == Scan(inside, buffer + Join(chunks))
    decreases |chunks|
  {
    if chunks == [] {
      assert buffer + "" == buffer;
    } else {
      var first := buffer + chunks[0];
      var r := Scan(inside, first);
      ScanLosesNothing(inside, first);
      ChunkingIsInvisible(r.inside, r.buffer, chunks[1..]);
      ScanOfCut(inside, first, Join(chunks[1..]));
      FirstChunk(buffer, chunks);
    }
  }

  lemma FirstChunk(buffer: string, chunks: seq<string>)
    requires chunks != []
    ensures buffer + Join(chunks) == (buffer + chunks[0]) + Join(chunks[1..])
  {
  }

  // ---------------------------------------------------------------- what the scan means

  /** A complete awaited tag at k, with at least one more character after it. */
  predicate TagAt(inside: bool, s: string, k: nat) {
    k + |Awaited(inside)| < |s| && Awaited(inside) <= s[k..]
  }

  lemma TagAtInTail(inside: bool, s: string)
    requires s != ""
    ensures TagAt(inside, s, 0) <==> Awaited(inside) < s
    ensures forall j: nat :: TagAt(inside, s[1..], j) <==> TagAt(inside, s, j + 1)
  {
    assert s[0..] == s;
    forall j: nat ensures TagAt(inside, s[1..], j) <==> TagAt(inside, s, j + 1) {
      if j < |s| {
        assert s[1..][j..] == s[j + 1..];
      }
    }
  }

  lemma LetterFirst(inside: bool, s: string, r: Scanned)
    requires s != ""
    ensures Prefixed([Letter(inside, s[0])], Prefixed(Letters(inside, s[1..]), r)) == Prefixed(Letters(inside, s), r)
  {
    assert Letters(inside, s) == [Letter(inside, s[0])] + Letters(inside, s[1..]);
    assert [Letter(inside, s[0])] + (Letters(inside, s[1..]) + r.pieces) == Letters(inside, s) + r.pieces;
  }

  /** The scan splits at the first awaited tag that is not the very end of the text. */
  lemma {:induction false} ScanSplitsAtFirstTag(inside: bool, s: string, k: nat)
    requires TagAt(inside, s, k)
    requires forall j: nat :: j < k ==> !TagAt(inside, s, j)
    ensures Scan(inside, s) ==
      Prefixed(Letters(inside, s[..k]), Prefixed([TagPiece(inside)], Scan(!inside, s[k + |Awaited(inside)|..])))
    decreases |s|
  {
    var tag := Awaited(inside);
    var rest := Prefixed([TagPiece(inside)], Scan(!inside, s[k + |tag|..]));
    TagAtInTail(inside, s);
    if k == 0 {
      assert Letters(inside, s[..0]) + rest.pieces == rest.pieces;
    } else {
      assert !TagAt(inside, s, 0) && !(s <= tag) && !(tag <= s);
      assert TagAt(inside, s[1..], k - 1);
      forall j: nat | j < k - 1 ensures !TagAt(inside, s[1..], j) {
        assert !TagAt(inside, s, j + 1);
      }
      ScanSplitsAtFirstTag(inside, s[1..], k - 1);
      assert s[1..][k - 1 + |tag|..] == s[k + |tag|..];
      LetterFirst(inside, s[..k], rest);
      assert s[..k][1..] == s[1..][..k - 1];
    }
  }

  /** Nothing but an end of the text that begins the awaited tag is held back, and the
      longest such end is. */
  ghost predicate HoldsBackEnd(inside: bool, s: string, r: Scanned) {
    && r.inside == inside
    && |r.buffer| <= |s| && r.buffer == s[|s| - |r.buffer|..] <= Awaited(inside)
    && r.pieces == Letters(inside, s[..|s| - |r.buffer|])
    && (forall j: nat :: j < |s| - |r.buffer| ==> !(s[j..] <= Awaited(inside)))
  }

  /** With no such tag the mode does not change, and only an end is held back. */
  lemma {:induction false} ScanWithoutTag(inside: bool, s: string)
    requires forall j: nat :: !TagAt(inside, s, j)
    ensures HoldsBackEnd(inside, s, Scan(inside, s))
    decreases |s|
  {
    var tag := Awaited(inside);
    if s <= tag {
      assert s[0..] == s && Letters(inside, s[..0]) == [];
    } else {
      TagAtInTail(inside, s);
      assert !TagAt(inside, s, 0) && !(tag <= s);
      forall j: nat ensures !TagAt(inside, s[1..], j) {
        assert !TagAt(inside, s, j + 1);
      }
      ScanWithoutTag(inside, s[1..]);
      HoldsBackEndAfter(inside, s, Scan(inside, s[1..]));
    }
  }

  lemma HoldsBackEndAfter(inside: bool, s: string, r: Scanned)
    requires s != "" && !(s <= Awaited(inside)) && HoldsBackEnd(inside, s[1..], r)
    ensures HoldsBackEnd(inside, s, Prefixed([Letter(inside, s[0])], r))
  {
    var n := |s| - |r.buffer|;
    assert s[..n][1..] == s[1..][..n - 1] && s[..n][0] == s[0];
    assert Letters(inside, s[..n]) == [Letter(inside, s[0])] + Letters(inside, s[1..][..n - 1]);
    assert s[n..] == s[1..][n - 1..];
    forall j: nat | j < n ensures !(s[j..] <= Awaited(inside)) {
      if j == 0 {
        assert s[0..] == s;
      } else {
        assert s[j..] == s[1..][j - 1..];
      }
    }
  }

  // ---------------------------------------------------------------- demuxing undoes rendering

  /** Reasoning followed by the plain text after it. */
  datatype Segment = Segment(thought: string, plain: string)

  function Render(plain: string, segments: seq<Segment>): string
    decreases |segments|
  {
    if segments == [] then plain
    else plain + (THINK_OPEN + (segments[0].thought + (THINK_CLOSE + Render(segments[0].plain, segments[1..]))))
  }

  function Plains(plain: string, segments: seq<Segment>): string
    decreases |segments|
  {
    if segments == [] then plain else plain + Plains(segments[0].plain, segments[1..])
  }

  function Thoughts(segments: seq<Segment>): string {
    if segments == [] then "" else segments[0].thought + Thoughts(segments[1..])
  }

  predicate TagFree(s: string) {
    '<' !in s
  }

  predicate Renderable(plain: string, segments: seq<Segment>) {
    TagFree(plain) && forall seg <- segments :: TagFree(seg.thought) && TagFree(seg.plain)
  }

  /** The text ends in a closing tag: the last plain part after some reasoning is empty. */
  predicate EndsInTag(segments: seq<Segment>) {
    segments != [] && segments[|segments| - 1].plain == ""
  }

  /** What has come out once the carry is flushed as well. */
  function Flushed(r: Scanned): (string, string) {
    var (user, reasoning) := Outputs(r.pieces);
    if r.inside then (user, reasoning + r.buffer) else (user + r.buffer, reasoning)
  }

  lemma {:induction false} ScanSkipsPlain(inside: bool, s: string, rest: string)
    requires TagFree(s)
    ensures Scan(inside, s + rest) == Prefixed(Letters(inside, s), Scan(inside, rest))
    decreases |s|
  {
    if s == "" {
      assert s + rest == rest && Letters(inside, s) == [];
      assert [] + Scan(inside, rest).pieces == Scan(inside, rest).pieces;
    } else {
      assert (s + rest)[1..] == s[1..] + rest;
      ScanSkipsPlain(inside, s[1..], rest);
      assert Awaited(inside)[0] == '<' != (s + rest)[0];
      LetterFirst(inside, s, Scan(inside, rest));
    }
  }

  lemma {:induction false} OutputsAfterPlain(inside: bool, s: string, rest: string)
    requires TagFree(s)
    ensures var r, t := Scan(inside, s + rest), Scan(inside, rest);
      && r.inside == t.inside && r.buffer == t.buffer
      && Text(User, r.pieces) == (if inside then "" else s) + Text(User, t.pieces)
      && Text(Reasoning, r.pieces) == (if inside then s else "") + Text(Reasoning, t.pieces)
  {
    var t := Scan(inside, rest);
    ScanSkipsPlain(inside, s, rest);
    TextOfConcat(User, Letters(inside, s), t.pieces);
    TextOfConcat(Reasoning, Letters(inside, s), t.pieces);
    TextOfLetters(User, inside, s);
    TextOfLetters(Reasoning, inside, s);
  }

  lemma {:induction false} OutputsAfterTag(inside: bool, rest: string)
    requires rest != ""
    ensures var r, t := Scan(inside, Awaited(inside) + rest), Scan(!inside, rest);
      r.inside == t.inside && r.buffer == t.buffer && Outputs(r.pieces) == Outputs(t.pieces)
  {
    var t := Scan(!inside, rest);
    assert (Awaited(inside) + rest)[|Awaited(inside)|..] == rest;
    TextOfConcat(User, [TagPiece(inside)], t.pieces);
    TextOfConcat(Reasoning, [TagPiece(inside)], t.pieces);
    assert Text(User, [TagPiece(inside)]) == "" == Text(Reasoning, [TagPiece(inside)]);
    assert "" + Text(User, t.pieces) == Text(User, t.pieces);
    assert "" + Text(Reasoning, t.pieces) == Text(Reasoning, t.pieces);
  }

  /** A plain part, a thought between tags, and what follows: when nothing follows, the
      closing tag is still held back. */
  lemma {:induction false} ScanOfSegment(plain: string, thought: string, after: string)
    requires TagFree(plain) && TagFree(thought)
    ensures var r := Scan(false, plain + (THINK_OPEN + (thought + (THINK_CLOSE + after))));
      var t := if after == "" then Scanned([], true, THINK_CLOSE) else Scan(false, after);
      && r.inside == t.inside && r.buffer == t.buffer
      && Outputs(r.pieces) == (plain + Text(User, t.pieces), thought + Text(Reasoning, t.pieces))
  {
    var closing := THINK_CLOSE + after;
    OutputsAfterPlain(false, plain, THINK_OPEN + (thought + closing));
    OutputsAfterTag(false, thought + closing);
    OutputsAfterPlain(true, thought, closing);
    if after == "" {
      assert closing == THINK_CLOSE;
    } else {
      OutputsAfterTag(true, after);
    }
    var middle := Scan(true, thought + closing).pieces;
    assert "" + Text(Reasoning, middle) == Text(Reasoning, middle);
    assert "" + Text(User, Scan(true, closing).pieces) == Text(User, Scan(true, closing).pieces);
  }

  lemma {:induction false} ScanOfRender(plain: string, segments: seq<Segment>)
    requires Renderable(plain, segments)
    ensures var r := Scan(false, Render(plain, segments));
      && Outputs(r.pieces) == (Plains(plain, segments), Thoughts(segments))
      && r.inside == EndsInTag(segments)
      && r.buffer == if EndsInTag(segments) then THINK_CLOSE else ""
    decreases |segments|
  {
    if segments == [] {
      assert plain + "" == plain;
      OutputsAfterPlain(false, plain, "");
    } else {
      var more := segments[1..];
      ScanOfSegment(plain, segments[0].thought, Render(segments[0].plain, more));
      ScanOfRender(segments[0].plain, more);
      EndsInTagTail(segments);
      if Render(segments[0].plain, more) == "" {
        assert more == [];
        assert plain + "" == plain && segments[0].thought + "" == segments[0].thought;
      }
    }
  }

  lemma EndsInTagTail(segments: seq<Segment>)
    requires segments != []
    ensures EndsInTag(segments) ==
      if |segments| == 1 then segments[0].plain == "" else EndsInTag(segments[1..])
  {
  }

  /** Under any chunking, followed by a flush, the plain text and the reasoning come back
      exactly -- if and only if the rendered text does not stop at a closing tag, in which
      case that tag itself is delivered at the end of the reasoning. */
  lemma {:induction false} DemuxUndoesRender(plain: string, segments: seq<Segment>, chunks: seq<string>)
    requires Renderable(plain, segments)
    requires Join(chunks) == Render(plain, segments)
    ensures Flushed(Fed(false, "", chunks)) ==
      (Plains(plain, segments), Thoughts(segments) + if EndsInTag(segments) then THINK_CLOSE else "")
    ensures Flushed(Fed(false, "", chunks)) == (Plains(plain, segments), Thoughts(segments))
      <==> !EndsInTag(segments)
  {
    ChunkingIsInvisible(false, "", chunks);
    assert "" + Join(chunks) == Join(chunks);
    ScanOfRender(plain, segments);
    assert |Thoughts(segments) + THINK_CLOSE| > |Thoughts(segments)|;
    assert Plains(plain, segments) + "" == Plains(plain, segments);
    assert Thoughts(segments) + "" == Thoughts(segments);
  }

  // ---------------------------------------------------------------- the filter itself

  /** A provider chunk: text and reasoning deltas, what is passed through, the end marker. */
  datatype StreamChunk = StreamChunk(
    content: string, reasoning: string, toolCalls: seq<string>, finishReason: string,
    finished: bool, usage: string, notice: string)

  /** With (user, reasoning) already out, `rest` completes what `whole` gives. */
  ghost predicate Completes(user: string, reasoning: string, rest: Scanned, whole: Scanned) {
    && Text(User, whole.pieces) == user + Text(User, rest.pieces)
    && Text(Reasoning, whole.pieces) == reasoning + Text(Reasoning, rest.pieces)
    && whole.inside == rest.inside && whole.buffer == rest.buffer
  }

  /** Text in the current mode, as shown and as reasoning. */
  function Shown(inside: bool, s: string): string {
    if inside then "" else s
  }

  function Hidden(inside: bool, s: string): string {
    if inside then s else ""
  }

  /** Emitting text without '<' in the current mode. */
  lemma {:induction false} PlainOut(inside: bool, text: string, rest: string)
    requires TagFree(text)
    ensures Completes(Shown(inside, text), Hidden(inside, text), Scan(inside, rest), Scan(inside, text + rest))
  {
    OutputsAfterPlain(inside, text, rest);
  }

  /** Emitting a '<' that begins no tag. */
  lemma {:induction false} FalseAlarmOut(inside: bool, s: string)
    requires !(s <= Awaited(inside)) && !(Awaited(inside) <= s)
    ensures Completes(Shown(inside, [s[0]]), Hidden(inside, [s[0]]), Scan(inside, s[1..]), Scan(inside, s))
  {
    OneMore(Letter(inside, s[0]), Scan(inside, s[1..]));
  }

  lemma {:induction false} OneMore(p: Piece, r: Scanned)
    ensures Completes(PieceText(User, p), PieceText(Reasoning, p), r, Prefixed([p], r))
  {
    assert ([p] + r.pieces)[1..] == r.pieces && ([p] + r.pieces)[0] == p;
  }

  /** Crossing a tag emits nothing. */
  lemma {:induction false} TagOut(inside: bool, s: string)
    requires Awaited(inside) < s
    ensures Completes("", "", Scan(!inside, s[|Awaited(inside)|..]), Scan(inside, s))
  {
    OneMore(TagPiece(inside), Scan(!inside, s[|Awaited(inside)|..]));
  }

  lemma {:induction false} StartOut(whole: Scanned)
    ensures Completes("", "", whole, whole)
  {
    assert "" + Text(User, whole.pieces) == Text(User, whole.pieces);
    assert "" + Text(Reasoning, whole.pieces) == Text(Reasoning, whole.pieces);
  }

  lemma {:induction false} ThenOut(user: string, reasoning: string, userPart: string, reasoningPart: string,
                                   after: Scanned, before: Scanned, whole: Scanned)
    requires Completes(user, reasoning, before, whole)
    requires Completes(userPart, reasoningPart, after, before)
    ensures Completes(user + userPart, reasoning + reasoningPart, after, whole)
  {
  }

  lemma {:induction false} AllOut(user: string, reasoning: string, inside: bool, buffer: string, whole: Scanned)
    requires CarryOk(inside, buffer) && Completes(user, reasoning, Scan(inside, buffer), whole)
    ensures (user, reasoning) == Outputs(whole.pieces) && whole.inside == inside && whole.buffer == buffer
  {
    assert user + "" == user && reasoning + "" == reasoning;
  }

  /** One round of the loop: text up to the next '<', then a tag, a false alarm, or an
      end that has to wait (`held`). */
  method Round(combined: string, i: nat, inside: bool)
    returns (next: nat, mode: bool, held: string, user: string, reasoning: string)
    requires i < |combined|
    ensures i <= next <= |combined|
    ensures Completes(user, reasoning, Scan(mode, combined[next..]), Scan(inside, combined[i..]))
    ensures held != "" ==> held == combined[next..] && CarryOk(mode, held)
    ensures held == "" ==> i < next
  {
    var at := Find('<', combined, i);
    var text, remaining := combined[i..at], combined[at..];
    UpToTag(combined, i, at, inside);
    user, reasoning := Shown(inside, text), Hidden(inside, text);
    next, mode, held := at, inside, "";
    if at == |combined| {
    } else if remaining <= Awaited(inside) {
      held := remaining;
    } else if Awaited(inside) <= remaining {
      next, mode := at + |Awaited(inside)|, !inside;
      assert combined[next..] == remaining[|Awaited(inside)|..];
      ThenTag(user, reasoning, inside, remaining, Scan(inside, combined[i..]));
    } else {
      next := at + 1;
      assert combined[next..] == remaining[1..];
      ThenFalseAlarm(user, reasoning, inside, remaining, Scan(inside, combined[i..]));
      user, reasoning := user + Shown(inside, [remaining[0]]), reasoning + Hidden(inside, [remaining[0]]);
    }
  }

  lemma {:induction false} UpToTag(combined: string, i: nat, at: nat, inside: bool)
    requires i <= at <= |combined| && '<' !in combined[i..at]
    ensures Completes(Shown(inside, combined[i..at]), Hidden(inside, combined[i..at]),
                      Scan(inside, combined[at..]), Scan(inside, combined[i..]))
  {
    assert combined[i..] == combined[i..at] + combined[at..];
    PlainOut(inside, combined[i..at], combined[at..]);
  }

  lemma {:induction false} ThenTag(user: string, reasoning: string, inside: bool, s: string, whole: Scanned)
    requires Awaited(inside) < s && Completes(user, reasoning, Scan(inside, s), whole)
    ensures Completes(user, reasoning, Scan(!inside, s[|Awaited(inside)|..]), whole)
  {
    TagOut(inside, s);
    ThenOut(user, reasoning, "", "", Scan(!inside, s[|Awaited(inside)|..]), Scan(inside, s), whole);
    assert user + "" == user && reasoning + "" == reasoning;
  }

  lemma {:induction false} ThenFalseAlarm(user: string, reasoning: string, inside: bool, s: string, whole: Scanned)
    requires !(s <= Awaited(inside)) && !(Awaited(inside) <= s)
    requires Completes(user, reasoning, Scan(inside, s), whole)
    ensures Completes(user + Shown(inside, [s[0]]), reasoning + Hidden(inside, [s[0]]), Scan(inside, s[1..]), whole)
  {
    FalseAlarmOut(inside, s);
    var c := [s[0]];
    ThenOut(user, reasoning, Shown(inside, c), Hidden(inside, c), Scan(inside, s[1..]), Scan(inside, s), whole);
  }

  class ReasoningDemuxer {
    var insideThink: bool
    var buffer: string

    ghost predicate Valid()
      reads this
    {
      CarryOk(insideThink, buffer)
    }

    constructor ()
      ensures Valid() && !insideThink && buffer == ""
    {
      insideThink, buffer := false, "";
    }

    method ProcessText(text: string) returns (user: string, reasoning: string)
      requires Valid()
      modifies this
      ensures Valid()
      ensures var r := Scan(old(insideThink), old(buffer) + text);
        insideThink == r.inside && buffer == r.buffer && (user, reasoning) == Outputs(r.pieces)
    {
      if text == "" {
        assert buffer + text == buffer;
        return "", "";
      }
      var combined := buffer + text;
      buffer := "";
      user, reasoning := "", "";
      var i, n := 0, |combined|;
      ghost var whole := Scan(insideThink, combined);
      StartOut(whole);
      assert combined[0..] == combined;
      while i < n && buffer == ""
        invariant 0 <= i <= n == |combined|
        invariant buffer != "" ==> buffer == combined[i..] && Valid()
        invariant Completes(user, reasoning, Scan(insideThink, combined[i..]), whole)
        decreases n - i, buffer == ""
      {
        ghost var before := Scan(insideThink, combined[i..]);
        var userPart, reasoningPart;
        i, insideThink, buffer, userPart, reasoningPart := Round(combined, i, insideThink);
        ThenOut(user, reasoning, userPart, reasoningPart, Scan(insideThink, combined[i..]), before, whole);
        user, reasoning := user + userPart, reasoning + reasoningPart;
      }
      AllOut(user, reasoning, insideThink, combined[i..], whole);
    }

    method Flush() returns (user: string, reasoning: string)
      modifies this
      ensures insideThink == old(insideThink) && buffer == ""
      ensures (user, reasoning) == if insideThink then ("", old(buffer)) else (old(buffer), "")
    {
      if buffer == "" {
        return "", "";
      }
      var held := buffer;
      buffer := "";
      if insideThink {
        return "", held;
      }
      return held, "";
    }

    /** The wrapped stream: `stream` chunk by chunk, with what is emitted in its place. */
    method DemuxStream(stream: seq<StreamChunk>) returns (out: seq<StreamChunk>)
      requires Valid()
      modifies this
      ensures Valid()
      ensures Streamed(old(insideThink), old(buffer), stream) == (out, insideThink, buffer)
    {
      out := [];
      for k := 0 to |stream|
        invariant Valid()
        invariant Streamed(old(insideThink), old(buffer), stream[..k]) == (out, insideThink, buffer)
      {
        StreamedNext(old(insideThink), old(buffer), stream[..k], stream[k]);
        assert stream[..k] + [stream[k]] == stream[..k + 1];
        var emitted := Step(stream[k]);
        out := out + emitted;
      }
      assert stream[..|stream|] == stream;
    }

    /** The body of that loop: what is yielded for one incoming chunk. */
    method Step(chunk: StreamChunk) returns (emitted: seq<StreamChunk>)
      requires Valid()
      modifies this
      ensures Valid()
      ensures Emitted(old(insideThink), old(buffer), chunk) == (emitted, insideThink, buffer)
    {
      if chunk.content != "" {
        var user, reasoning := ProcessText(chunk.content);
        return [StreamChunk(user, reasoning, chunk.toolCalls, chunk.finishReason, chunk.finished, "", "")];
      } else if chunk.finished {
        var user, reasoning := Flush();
        if user != "" || reasoning != "" {
          return [StreamChunk(user, reasoning, [], "", false, "", ""), chunk];
        }
      }
      return [chunk];
    }
  }

  lemma {:induction false} StreamedNext(inside: bool, buffer: string, stream: seq<StreamChunk>, chunk: StreamChunk)
    ensures var before := Streamed(inside, buffer, stream);
      var step := Emitted(before.1, before.2, chunk);
      Streamed(inside, buffer, stream + [chunk]) == (before.0 + step.0, step.1, step.2)
    decreases |stream|
  {
    if stream == [] {
      var step := Emitted(inside, buffer, chunk);
      assert [chunk][1..] == [] && step.0 + [] == step.0 == [] + step.0;
    } else {
      assert (stream + [chunk])[1..] == stream[1..] + [chunk];
      var step := Emitted(inside, buffer, stream[0]);
      StreamedNext(step.1, step.2, stream[1..], chunk);
      var rest := Streamed(step.1, step.2, stream[1..]);
      var last := Emitted(rest.1, rest.2, chunk);
      assert step.0 + (rest.0 + last.0) == (step.0 + rest.0) + last.0;
    }
  }

  /** str.find: the first index of c from i on, or |s| when there is none. */
  function Find(c: char, s: string, i: nat): (at: nat)
    requires i <= |s|
    ensures i <= at <= |s|
    ensures c !in s[i..at]
    ensures at < |s| ==> s[at] == c
    decreases |s| - i
  {
    if i == |s| || s[i] == c then i
    else
      var at := Find(c, s, i + 1);
      assert s[i..at] == [s[i]] + s[i + 1..at];
      at
  }

  // ---------------------------------------------------------------- whole provider streams

  /** What stands in for one chunk, and the state after it. */
  function Emitted(inside: bool, buffer: string, chunk: StreamChunk): (seq<StreamChunk>, bool, string) {
    if chunk.content != "" then
      var r := Scan(inside, buffer + chunk.content);
      var (user, reasoning) := Outputs(r.pieces);
      ([StreamChunk(user, reasoning, chunk.toolCalls, chunk.finishReason, chunk.finished, "", "")], r.inside, r.buffer)
    else if chunk.finished then
      (if buffer == "" then [chunk] else [HeldChunk(inside, buffer), chunk], inside, "")
    else ([chunk], inside, buffer)
  }

  function HeldChunk(inside: bool, buffer: string): StreamChunk {
    if inside then StreamChunk("", buffer, [], "", false, "", "") else StreamChunk(buffer, "", [], "", false, "", "")
  }

  function Streamed(inside: bool, buffer: string, stream: seq<StreamChunk>): (seq<StreamChunk>, bool, string)
    decreases |stream|
  {
    if stream == [] then ([], inside, buffer)
    else
      var step := Emitted(inside, buffer, stream[0]);
      var rest := Streamed(step.1, step.2, stream[1..]);
      (step.0 + rest.0, rest.1, rest.2)
  }

  function Contents(chunks: seq<StreamChunk>): string {
    if chunks == [] then "" else chunks[0].content + Contents(chunks[1..])
  }

  function Reasonings(chunks: seq<StreamChunk>): string {
    if chunks == [] then "" else chunks[0].reasoning + Reasonings(chunks[1..])
  }

  lemma {:induction false} ContentsOfConcat(a: seq<StreamChunk>, b: seq<StreamChunk>)
    ensures Contents(a + b) == Contents(a) + Contents(b)
    ensures Reasonings(a + b) == Reasonings(a) + Reasonings(b)
  {
    if a == [] {
      assert a + b == b;
    } else {
      assert (a + b)[1..] == a[1..] + b;
      ContentsOfConcat(a[1..], b);
    }
  }
}
