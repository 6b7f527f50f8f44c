/** What a whole provider stream delivers
    (src/application/gateway/demuxer.py, lines 90-127).

    Provider chunks may carry reasoning of their own, and several chunks may close the
    stream.  The content between two closing chunks is one text for the demuxer. */
module DemuxStreams {
  import opened Demuxer

  /** Finished and without content: the chunk before which the held end is flushed. */
  predicate IsClosing(chunk: StreamChunk) {
    chunk.content == "" && chunk.finished
  }

  // ---------------------------------------------------------------- what is dropped

  /** A chunk with content loses the provider's own reasoning, its usage and its notice. */
  function Reduced(stream: seq<StreamChunk>): seq<StreamChunk> {
    seq(|stream|, k requires 0 <= k < |stream| =>
      if stream[k].content == "" then stream[k] else stream[k].(reasoning := "", usage := "", notice := ""))
  }

  /** Exactly that is dropped: without it the stream gives the same chunks and state. */
  lemma {:induction false} ReducedIsTheSame(inside: bool, buffer: string, stream: seq<StreamChunk>)
    ensures Streamed(inside, buffer, Reduced(stream)) == Streamed(inside, buffer, stream)
    decreases |stream|
  {
    if stream != [] {
      assert Reduced(stream)[1..] == Reduced(stream[1..]);
      var step := Emitted(inside, buffer, stream[0]);
      assert Emitted(inside, buffer, Reduced(stream)[0]) == step;
      ReducedIsTheSame(step.1, step.2, stream[1..]);
    }
  }

  // ---------------------------------------------------------------- the texts between closing chunks

  /** The texts and the passed reasoning with one more chunk in front. */
  function MoreTexts(chunk: StreamChunk, texts: seq<string>): seq<string>
    requires texts != []
  {
    if IsClosing(chunk) then [""] + texts else [chunk.content + texts[0]] + texts[1..]
  }

  function MorePassed(chunk: StreamChunk, passed: string): string {
    (if chunk.content == "" then chunk.reasoning else "") + passed
  }

  function Sections(stream: seq<StreamChunk>): (texts: seq<string>)
    ensures texts != []
  {
    if stream == [] then [""]
    else MoreTexts(stream[0], Sections(stream[1..]))
  }

  /** The reasoning of the chunks that are passed on as they are. */
  function Passed(stream: seq<StreamChunk>): string {
    if stream == [] then "" else MorePassed(stream[0], Passed(stream[1..]))
  }

  datatype Delivery = Delivery(user: string, reasoning: string, inside: bool, held: string)

  /** Each text is read by the scan, which starts it in the mode that the last one ended in;
      all but the last are flushed. */
  function Deliver(inside: bool, carry: string, texts: seq<string>): Delivery
    requires texts != []
    decreases |texts|
  {
    var r := Scan(inside, carry + texts[0]);
    if |texts| == 1 then Delivery(Text(User, r.pieces), Text(Reasoning, r.pieces), r.inside, r.buffer)
    else
      var (user, reasoning) := Flushed(r);
      var rest := Deliver(r.inside, "", texts[1..]);
      Delivery(user + rest.user, reasoning + rest.reasoning, rest.inside, rest.held)
  }

  // ---------------------------------------------------------------- two texts interleaved

  /** w is made of a and b, each in its own order. */
  predicate Interleaves(w: string, a: string, b: string)
    decreases |w|
  {
    if w == "" then a == "" && b == ""
    else
      || (a != "" && w[0] == a[0] && Interleaves(w[1..], a[1..], b))
      || (b != "" && w[0] == b[0] && Interleaves(w[1..], a, b[1..]))
  }

  lemma {:induction false} InterleavesLeft(x: string, w: string, a: string, b: string)
    requires Interleaves(w, a, b)
    ensures Interleaves(x + w, x + a, b)
  {
    if x == "" {
      assert x + w == w && x + a == a;
    } else {
      InterleavesLeft(x[1..], w, a, b);
      assert (x + w)[1..] == x[1..] + w && (x + a)[1..] == x[1..] + a;
    }
  }

  lemma {:induction false} InterleavesRight(x: string, w: string, a: string, b: string)
    requires Interleaves(w, a, b)
    ensures Interleaves(x + w, a, x + b)
  {
    if x == "" {
      assert x + w == w && x + b == b;
    } else {
      InterleavesRight(x[1..], w, a, b);
      assert (x + w)[1..] == x[1..] + w && (x + b)[1..] == x[1..] + b;
    }
  }

  // ---------------------------------------------------------------- whole streams

  /** out delivers d, with the passed reasoning in between. */
  ghost predicate Delivers(out: seq<StreamChunk>, mode: bool, held: string, d: Delivery, passed: string) {
    && Contents(out) == d.user && Interleaves(Reasonings(out), d.reasoning, passed)
    && mode == d.inside && held == d.held
  }

  /** d with more in front. */
  function Before(user: string, reasoning: string, d: Delivery): Delivery {
    d.(user := user + d.user, reasoning := reasoning + d.reasoning)
  }

  /** More text at the front of the first section. */
  lemma {:induction false} DeliverAfter(inside: bool, carry: string, x: string, texts: seq<string>)
    requires texts != []
    ensures var r := Scan(inside, carry + x);
      Deliver(inside, carry, [x + texts[0]] + texts[1..])
      == Before(Text(User, r.pieces), Text(Reasoning, r.pieces), Deliver(r.inside, r.buffer, texts))
  {
    var r, more := Scan(inside, carry + x), [x + texts[0]] + texts[1..];
    var t := Scan(r.inside, r.buffer + texts[0]);
    ScanOfCut(inside, carry + x, texts[0]);
    assert carry + more[0] == carry + x + texts[0];
    if |texts| == 1 {
      TextOfConcat(User, r.pieces, t.pieces);
      TextOfConcat(Reasoning, r.pieces, t.pieces);
    } else {
      assert more[1..] == texts[1..];
      DeliverFirst(inside, carry, more);
      DeliverFirst(r.inside, r.buffer, texts);
      FlushAfter(r.pieces, t);
      BeforeTwice(Text(User, r.pieces), Text(Reasoning, r.pieces), Flushed(t).0, Flushed(t).1,
                  Deliver(t.inside, "", texts[1..]));
    }
  }

  lemma {:induction false} BeforeTwice(a: string, b: string, x: string, y: string, d: Delivery)
    ensures Before(a, b, Before(x, y, d)) == Before(a + x, b + y, d)
  {
    Regroup(a, x, d.user);
    Regroup(b, y, d.reasoning);
  }

  lemma {:induction false} Regroup(a: string, b: string, c: string)
    ensures (a + b) + c == a + (b + c)
  {
  }

  lemma {:induction false} FlushAfter(ps: seq<Piece>, t: Scanned)
    ensures Flushed(Prefixed(ps, t)) == (Text(User, ps) + Flushed(t).0, Text(Reasoning, ps) + Flushed(t).1)
  {
    TextOfConcat(User, ps, t.pieces);
    TextOfConcat(Reasoning, ps, t.pieces);
    Regroup(Text(User, ps), Text(User, t.pieces), t.buffer);
    Regroup(Text(Reasoning, ps), Text(Reasoning, t.pieces), t.buffer);
  }

  lemma {:induction false} OneChunk(chunk: StreamChunk)
    ensures Contents([chunk]) == chunk.content && Reasonings([chunk]) == chunk.reasoning
  {
    assert [chunk][1..] == [] && chunk.content + "" == chunk.content && chunk.reasoning + "" == chunk.reasoning;
  }

  /** A chunk with content adds what the scan of it gives. */
  lemma {:induction false} ContentDelivers(inside: bool, carry: string, chunk: StreamChunk, out: seq<StreamChunk>,
                                           mode: bool, held: string, texts: seq<string>, passed: string)
    requires chunk.content != "" && texts != []
    requires var r := Scan(inside, carry + chunk.content);
      Delivers(out, mode, held, Deliver(r.inside, r.buffer, texts), passed)
    ensures Delivers(Emitted(inside, carry, chunk).0 + out, mode, held,
                     Deliver(inside, carry, [chunk.content + texts[0]] + texts[1..]), passed)
  {
    var r := Scan(inside, carry + chunk.content);
    var emitted := Emitted(inside, carry, chunk).0;
    DeliverAfter(inside, carry, chunk.content, texts);
    OneChunk(emitted[0]);
    ContentsOfConcat(emitted, out);
    InterleavesLeft(Text(Reasoning, r.pieces), Reasonings(out), Deliver(r.inside, r.buffer, texts).reasoning, passed);
  }

  /** A chunk that is passed on as it is adds its reasoning. */
  lemma {:induction false} PassedDelivers(chunk: StreamChunk, out: seq<StreamChunk>, mode: bool, held: string,
                                          d: Delivery, passed: string)
    requires chunk.content == "" && Delivers(out, mode, held, d, passed)
    ensures Delivers([chunk] + out, mode, held, d, chunk.reasoning + passed)
  {
    OneChunk(chunk);
    ContentsOfConcat([chunk], out);
    assert "" + Contents(out) == Contents(out);
    InterleavesRight(chunk.reasoning, Reasonings(out), d.reasoning, passed);
  }

  /** A flush adds the held end. */
  lemma {:induction false} HeldDelivers(inside: bool, carry: string, out: seq<StreamChunk>, mode: bool, held: string,
                                        d: Delivery, passed: string)
    requires Delivers(out, mode, held, d, passed)
    ensures Delivers([HeldChunk(inside, carry)] + out, mode, held,
                     Before(if inside then "" else carry, if inside then carry else "", d), passed)
  {
    OneChunk(HeldChunk(inside, carry));
    ContentsOfConcat([HeldChunk(inside, carry)], out);
    InterleavesLeft(if inside then carry else "", Reasonings(out), d.reasoning, passed);
  }

  /** A closing chunk starts a new section with nothing carried. */
  lemma {:induction false} DeliverFlushed(inside: bool, carry: string, texts: seq<string>)
    requires CarryOk(inside, carry) && texts != []
    ensures Deliver(inside, carry, [""] + texts)
      == Before(if inside then "" else carry, if inside then carry else "", Deliver(inside, "", texts))
  {
    assert carry + "" == carry && ([""] + texts)[1..] == texts && "" + carry == carry;
  }

  lemma {:induction false} ClosingDelivers(inside: bool, carry: string, chunk: StreamChunk, out: seq<StreamChunk>,
                                           mode: bool, held: string, texts: seq<string>, passed: string)
    requires CarryOk(inside, carry) && IsClosing(chunk) && texts != []
    requires Delivers(out, mode, held, Deliver(inside, "", texts), passed)
    ensures Delivers(Emitted(inside, carry, chunk).0 + out, mode, held,
                     Deliver(inside, carry, [""] + texts), chunk.reasoning + passed)
  {
    var d := Deliver(inside, "", texts);
    PassedDelivers(chunk, out, mode, held, d, passed);
    DeliverFlushed(inside, carry, texts);
    if carry == "" {
      assert "" + d.user == d.user && "" + d.reasoning == d.reasoning;
    } else {
      HeldDelivers(inside, carry, [chunk] + out, mode, held, d, chunk.reasoning + passed);
      assert [HeldChunk(inside, carry), chunk] + out == [HeldChunk(inside, carry)] + ([chunk] + out);
    }
  }

  /** For every stream: the user text is what the sections deliver; the reasoning is what they
      deliver interleaved with the provider's own reasoning of the chunks without content,
      each in its order; and mode and held end are those of the last section. */
  lemma {:induction false} StreamDelivers(inside: bool, carry: string, stream: seq<StreamChunk>)
    requires CarryOk(inside, carry)
    ensures var (out, mode, held) := Streamed(inside, carry, stream);
      Delivers(out, mode, held, Deliver(inside, carry, Sections(stream)), Passed(stream))
    decreases |stream|
  {
    if stream == [] {
      EmptyDelivers(inside, carry);
    } else {
      var chunk, more := stream[0], stream[1..];
      var step := Emitted(inside, carry, chunk);
      ScanLosesNothing(inside, carry + chunk.content);
      StreamDelivers(step.1, step.2, more);
      var rest := Streamed(step.1, step.2, more);
      ChunkDelivers(inside, carry, chunk, rest.0, rest.1, rest.2, Sections(more), Passed(more));
    }
  }

  lemma {:induction false} ChunkDelivers(inside: bool, carry: string, chunk: StreamChunk, out: seq<StreamChunk>,
                                         mode: bool, held: string, texts: seq<string>, passed: string)
    requires CarryOk(inside, carry) && texts != []
    requires var step := Emitted(inside, carry, chunk);
      Delivers(out, mode, held, Deliver(step.1, step.2, texts), passed)
    ensures Delivers(Emitted(inside, carry, chunk).0 + out, mode, held,
                     Deliver(inside, carry, MoreTexts(chunk, texts)), MorePassed(chunk, passed))
  {
    if chunk.content != "" {
      ContentDelivers(inside, carry, chunk, out, mode, held, texts, passed);
      assert "" + passed == passed;
    } else if chunk.finished {
      ClosingDelivers(inside, carry, chunk, out, mode, held, texts, passed);
    } else {
      PassedDelivers(chunk, out, mode, held, Deliver(inside, carry, texts), passed);
      assert "" + texts[0] == texts[0] && [texts[0]] + texts[1..] == texts;
    }
  }

  lemma {:induction false} EmptyDelivers(inside: bool, carry: string)
    requires CarryOk(inside, carry)
    ensures Delivers([], inside, carry, Deliver(inside, carry, [""]), "")
  {
    assert carry + "" == carry;
  }

  // ---------------------------------------------------------------- when something stays held

  /** x is the longest end of s that begins the tag. */
  ghost predicate LongestEnd(x: string, s: string, tag: string) {
    && |x| <= |s| && x == s[|s| - |x|..] && x <= tag
    && forall j: nat :: j < |s| - |x| ==> !(s[j..] <= tag)
  }

  /** Some end of s, of at least one character, begins the tag. */
  ghost predicate EndBegins(s: string, tag: string) {
    exists j: nat :: j < |s| && s[j..] <= tag
  }

  lemma {:induction false} OnlyOneOpens(inside: bool, k: nat)
    requires 0 < k < |Awaited(inside)|
    ensures Awaited(inside)[k] != '<'
  {
  }

  lemma {:induction false} TagsDiffer(inside: bool)
    ensures Awaited(inside)[1] != Awaited(!inside)[1]
  {
  }

  /** An end that starts within a tag begins no tag. */
  lemma {:induction false} WithinTag(inside: bool, mode: bool, s: string, j: nat)
    requires Awaited(inside) < s && j < |Awaited(inside)|
    ensures !(s[j..] <= Awaited(mode))
  {
    if j == 0 {
      assert s[0..] == s;
      if mode != inside {
        TagsDiffer(inside);
        assert s[1] == Awaited(inside)[1];
      }
    } else {
      OnlyOneOpens(inside, j);
      assert s[j..][0] == s[j] == Awaited(inside)[j] && Awaited(mode)[0] == '<';
    }
  }

  lemma {:induction false} LongestAfter(x: string, rest: string, s: string, n: nat, tag: string)
    requires n <= |s| && rest == s[n..] && LongestEnd(x, rest, tag)
    requires forall j: nat :: j < n ==> !(s[j..] <= tag)
    ensures LongestEnd(x, s, tag)
  {
    assert s[|s| - |x|..] == rest[|rest| - |x|..];
    forall j: nat | n <= j < |s| - |x| ensures !(s[j..] <= tag) {
      assert s[j..] == rest[j - n..];
    }
  }

  /** Text without '<' leaves the mode as it is. */
  lemma {:induction false} PlainKeepsMode(inside: bool, s: string)
    requires TagFree(s)
    ensures Scan(inside, s).inside == inside
  {
    ScanSkipsPlain(inside, s, "");
    assert s + "" == s;
  }

  /** A text that is passed over from its first character begins no tag that is awaited
      after it. */
  lemma {:induction false} PassedOver(inside: bool, s: string)
    requires NoTagFirst(inside, s)
    ensures !(s <= Awaited(Scan(inside, s[1..]).inside))
  {
    var mode := Scan(inside, s[1..]).inside;
    if s <= Awaited(mode) {
      forall k | 0 <= k < |s[1..]| ensures s[1..][k] != '<' {
        OnlyOneOpens(mode, k + 1);
      }
      PlainKeepsMode(inside, s[1..]);
      assert false;
    }
  }

  /** After every text, the scan holds back the longest end that begins the awaited tag. */
  lemma {:induction false} ScanHoldsLongest(inside: bool, s: string)
    ensures LongestEnd(Scan(inside, s).buffer, s, Awaited(Scan(inside, s).inside))
  {
    var p := (m: bool, t: string) => LongestEnd(Scan(m, t).buffer, t, Awaited(Scan(m, t).inside));
    forall m: bool, t: string | t <= Awaited(m) ensures p(m, t) {
      assert t[0..] == t;
    }
    forall m: bool, t: string | Awaited(m) < t && p(!m, t[|Awaited(m)|..]) ensures p(m, t) {
      HoldsAfterTag(m, t);
    }
    forall m: bool, t: string | NoTagFirst(m, t) && p(m, t[1..]) ensures p(m, t) {
      HoldsAfterLetter(m, t);
    }
    ScanInduction(p, inside, s);
  }

  lemma {:induction false} HoldsAfterTag(m: bool, t: string)
    requires Awaited(m) < t
    requires var r := Scan(!m, t[|Awaited(m)|..]); LongestEnd(r.buffer, t[|Awaited(m)|..], Awaited(r.inside))
    ensures LongestEnd(Scan(m, t).buffer, t, Awaited(Scan(m, t).inside))
  {
    var n := |Awaited(m)|;
    var r := Scan(!m, t[n..]);
    forall j: nat | j < n ensures !(t[j..] <= Awaited(r.inside)) {
      WithinTag(m, r.inside, t, j);
    }
    LongestAfter(r.buffer, t[n..], t, n, Awaited(r.inside));
  }

  lemma {:induction false} HoldsAfterLetter(m: bool, t: string)
    requires NoTagFirst(m, t)
    requires var r := Scan(m, t[1..]); LongestEnd(r.buffer, t[1..], Awaited(r.inside))
    ensures LongestEnd(Scan(m, t).buffer, t, Awaited(Scan(m, t).inside))
  {
    var r := Scan(m, t[1..]);
    PassedOver(m, t);
    assert t[0..] == t;
    LongestAfter(r.buffer, t[1..], t, 1, Awaited(r.inside));
  }

  lemma {:induction false} LongestIsEmpty(x: string, s: string, tag: string)
    requires LongestEnd(x, s, tag)
    ensures x == "" <==> !EndBegins(s, tag)
  {
    if x != "" {
      assert s[|s| - |x|..] <= tag;
    }
  }

  /** The text that the last section reads, the carry included if it is the only one. */
  function LastText(carry: string, texts: seq<string>): string
    requires texts != []
  {
    if |texts| == 1 then carry + texts[0] else texts[|texts| - 1]
  }

  /** The mode in which the last section begins. */
  function LastMode(inside: bool, carry: string, texts: seq<string>): bool
    requires texts != []
    decreases |texts|
  {
    if |texts| == 1 then inside else LastMode(Scan(inside, carry + texts[0]).inside, "", texts[1..])
  }

  lemma {:induction false} DeliverFirst(inside: bool, carry: string, texts: seq<string>)
    requires |texts| > 1
    ensures var r := Scan(inside, carry + texts[0]);
      Deliver(inside, carry, texts) == Before(Flushed(r).0, Flushed(r).1, Deliver(r.inside, "", texts[1..]))
  {
  }

  lemma {:induction false} LastSection(inside: bool, carry: string, texts: seq<string>)
    requires texts != []
    ensures var d, r := Deliver(inside, carry, texts), Scan(LastMode(inside, carry, texts), LastText(carry, texts));
      d.held == r.buffer && d.inside == r.inside
    decreases |texts|
  {
    if |texts| > 1 {
      DeliverFirst(inside, carry, texts);
      LastSection(Scan(inside, carry + texts[0]).inside, "", texts[1..]);
      assert "" + texts[1] == texts[1];
    }
  }

  lemma {:induction false} HeldIsLongest(inside: bool, carry: string, texts: seq<string>)
    requires texts != []
    ensures var d := Deliver(inside, carry, texts); LongestEnd(d.held, LastText(carry, texts), Awaited(d.inside))
  {
    LastSection(inside, carry, texts);
    ScanHoldsLongest(LastMode(inside, carry, texts), LastText(carry, texts));
  }

  lemma {:induction false} SectionsOfClosed(stream: seq<StreamChunk>, c: StreamChunk)
    requires IsClosing(c)
    ensures Sections(stream + [c]) == Sections(stream) + [""]
  {
    if stream == [] {
      assert [c][1..] == [] && [""] + [""] == Sections([c]) && [] + [c] == [c];
    } else {
      SectionsOfClosed(stream[1..], c);
      assert (stream + [c])[1..] == stream[1..] + [c];
    }
  }

  /** One more closing chunk delivers exactly the held end, and starts a new section. */
  lemma {:induction false} CloseDelivers(inside: bool, carry: string, stream: seq<StreamChunk>, c: StreamChunk)
    requires IsClosing(c)
    ensures Sections(stream + [c]) == Sections(stream) + [""]
    ensures var (out, mode, held) := Streamed(inside, carry, stream);
      var (closed, after, rest) := Streamed(inside, carry, stream + [c]);
      && Contents(closed) == Contents(out) + (if mode then "" else held)
      && Reasonings(closed) == Reasonings(out) + (if mode then held else "") + c.reasoning
      && after == mode && rest == ""
  {
    var (out, mode, held) := Streamed(inside, carry, stream);
    SectionsOfClosed(stream, c);
    StreamedNext(inside, carry, stream, c);
    ContentsOfConcat(out, Emitted(mode, held, c).0);
    ClosingEmits(mode, held, c);
  }

  lemma {:induction false} ClosingEmits(mode: bool, held: string, c: StreamChunk)
    requires IsClosing(c)
    ensures var emitted := Emitted(mode, held, c).0;
      && Contents(emitted) == (if mode then "" else held)
      && Reasonings(emitted) == (if mode then held else "") + c.reasoning
  {
    OneChunk(c);
    if held != "" {
      OneChunk(HeldChunk(mode, held));
      ContentsOfConcat([HeldChunk(mode, held)], [c]);
      assert [HeldChunk(mode, held)] + [c] == [HeldChunk(mode, held), c];
    }
  }

  /** Nothing is missing at the end of a stream -- a closing chunk would add nothing of it -- if
      and only if no end of its last section begins the tag that is awaited there. */
  lemma {:induction false} NothingMissingIff(inside: bool, carry: string, stream: seq<StreamChunk>, c: StreamChunk)
    requires CarryOk(inside, carry) && IsClosing(c)
    ensures var (out, mode, _) := Streamed(inside, carry, stream);
      var closed := Streamed(inside, carry, stream + [c]).0;
      (Contents(closed) == Contents(out) && Reasonings(closed) == Reasonings(out) + c.reasoning)
      <==> !EndBegins(LastText(carry, Sections(stream)), Awaited(mode))
  {
    var (out, mode, held) := Streamed(inside, carry, stream);
    var texts := Sections(stream);
    StreamDelivers(inside, carry, stream);
    CloseDelivers(inside, carry, stream, c);
    HeldIsLongest(inside, carry, texts);
    LongestIsEmpty(held, LastText(carry, texts), Awaited(mode));
    EndMatters(Contents(out), held, "");
    EndMatters(Reasonings(out), held, c.reasoning);
    assert Contents(out) + "" == Contents(out) && Reasonings(out) + "" == Reasonings(out);
    assert Contents(out) + held + "" == Contents(out) + held;
  }

  lemma {:induction false} EndMatters(a: string, b: string, c: string)
    ensures a + b + c == a + c <==> b == ""
  {
    if b == "" {
      assert a + b == a;
    } else {
      assert |a + b + c| > |a + c|;
    }
  }

  // ---------------------------------------------------------------- a stream that keeps something back

  /** A last chunk with content. */
  function LastChunk(text: string): StreamChunk {
    StreamChunk(text, "", [], "stop", true, "", "")
  }

  /** Text that ends in '<', in a finished chunk: the last character is not delivered, and
      would be by a closing chunk. */
  lemma {:induction false} LastCharacterIsKept(text: string)
    requires TagFree(text)
    ensures var stream := [LastChunk(text + "<")];
      && Streamed(false, "", stream) == ([LastChunk(text)], false, "<")
      && Contents(Streamed(false, "", stream).0) == text
      && Contents(Streamed(false, "", stream + [LastChunk("")]).0) == text + "<"
  {
    var chunk, stream := LastChunk(text + "<"), [LastChunk(text + "<")];
    HeldAfter(text);
    assert "" + (text + "<") == text + "<" && stream[1..] == [];
    assert Emitted(false, "", chunk) == ([LastChunk(text)], false, "<");
    assert [LastChunk(text)] + [] == [LastChunk(text)];
    OneChunk(LastChunk(text));
    CloseDelivers(false, "", stream, LastChunk(""));
  }

  lemma {:induction false} HeldAfter(text: string)
    requires TagFree(text)
    ensures var r := Scan(false, text + "<");
      Outputs(r.pieces) == (text, "") && !r.inside && r.buffer == "<"
  {
    OutputsAfterPlain(false, text, "<");
    assert text + "" == text;
  }
}
