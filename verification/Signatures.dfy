/** What the signature of a batch of tool calls distinguishes
    (src/application/kernel/cycle_detector.py, lines 30-37). */
module Signatures {
  import opened Texts
  import opened Copies
  import opened JsonTexts

  /** `arguments` is the text that json.dumps gives for the call's arguments, keys sorted. */
  datatype ToolCall = ToolCall(name: string, arguments: string)

  function CallText(call: ToolCall): string {
    call.name + ":" + call.arguments
  }

  /** What is hashed; the hash itself is taken as injective and left out. */
  function Signature(calls: seq<ToolCall>): string {
    Join("|", seq(|calls|, i requires 0 <= i < |calls| => CallText(calls[i])))
  }

  // ---------------------------------------------------------------- one call

  /** What stands before the first c is fixed. */
  lemma {:induction false} FirstSeparator(c: char, a: string, b: string, x: string, y: string)
    requires c !in a && c !in b && a + [c] + x == b + [c] + y
    ensures a == b && x == y
  {
    var s := a + [c] + x;
    assert s[|a|] == c && s[|b|] == c;
    assert forall i :: 0 <= i < |a| ==> s[i] == a[i] && a[i] in a;
    assert forall i :: 0 <= i < |b| ==> s[i] == b[i] && b[i] in b;
    assert s[..|a|] == a && s[..|b|] == b;
    assert s[|a| + 1..] == x && s[|b| + 1..] == y;
  }

  lemma {:induction false} SameCallText(c: ToolCall, d: ToolCall)
    requires ':' !in c.name && ':' !in d.name
    ensures CallText(c) == CallText(d) <==> c == d
  {
    if CallText(c) == CallText(d) {
      FirstSeparator(':', c.name, d.name, c.arguments, d.arguments);
    }
  }

  lemma {:induction false} SignatureOfOne(c: ToolCall)
    ensures Signature([c]) == CallText(c)
  {
  }

  /** Two single calls have one signature if and only if name and arguments are the same. */
  lemma {:induction false} OneCallSignature(c: ToolCall, d: ToolCall)
    requires ':' !in c.name && ':' !in d.name
    ensures Signature([c]) == Signature([d]) <==> c == d
  {
    SignatureOfOne(c);
    SignatureOfOne(d);
    SameCallText(c, d);
  }

  // ---------------------------------------------------------------- batches

  /** No name holds a colon, and each argument text is that of one object. */
  predicate Separable(calls: seq<ToolCall>) {
    forall c <- calls :: ':' !in c.name && IsObject(c.arguments)
  }

  /** What follows the first call: nothing, or a bar and the others. */
  function AfterFirst(calls: seq<ToolCall>): string
    requires calls != []
  {
    if |calls| == 1 then "" else "|" + Signature(calls[1..])
  }

  lemma {:induction false} SignatureStarts(calls: seq<ToolCall>)
    requires calls != []
    ensures Signature(calls) == calls[0].name + [':'] + (calls[0].arguments + AfterFirst(calls))
  {
    var texts := seq(|calls|, i requires 0 <= i < |calls| => CallText(calls[i]));
    var rest := seq(|calls| - 1, i requires 0 <= i < |calls| - 1 => CallText(calls[1..][i]));
    assert texts[1..] == rest;
    assert calls[0].name + ":" + calls[0].arguments + "|" + Join("|", rest)
      == calls[0].name + ":" + (calls[0].arguments + ("|" + Join("|", rest)));
  }

  /** Two batches have one signature if and only if they are the same calls in the same order. */
  lemma {:induction false} BatchSignature(a: seq<ToolCall>, b: seq<ToolCall>)
    requires Separable(a) && Separable(b)
    ensures Signature(a) == Signature(b) <==> a == b
    decreases |a|
  {
    if a == [] || b == [] {
      EmptySignature(a);
      EmptySignature(b);
    } else if Signature(a) == Signature(b) {
      SameStart(a, b);
      assert a == [a[0]] + a[1..] && b == [b[0]] + b[1..];
      assert (forall c <- a[1..] :: c in a) && forall c <- b[1..] :: c in b;
      BatchSignature(a[1..], b[1..]);
    }
  }

  lemma {:induction false} EmptySignature(a: seq<ToolCall>)
    ensures Signature(a) == "" <==> a == []
  {
    if a != [] {
      SignatureStarts(a);
    }
  }

  /** Equal signatures start with the same call and go on with equal ones. */
  lemma {:induction false} SameStart(a: seq<ToolCall>, b: seq<ToolCall>)
    requires Separable(a) && Separable(b) && a != [] && b != [] && Signature(a) == Signature(b)
    ensures a[0] == b[0] && Signature(a[1..]) == Signature(b[1..])
  {
    SignatureStarts(a);
    SignatureStarts(b);
    assert a[0] in a && b[0] in b;
    FirstSeparator(':', a[0].name, b[0].name, a[0].arguments + AfterFirst(a), b[0].arguments + AfterFirst(b));
    ObjectsEnd(a[0].arguments, AfterFirst(a), b[0].arguments, AfterFirst(b));
    if |a| > 1 {
      assert AfterFirst(a)[1..] == Signature(a[1..]) && AfterFirst(b)[1..] == Signature(b[1..]);
    } else {
      assert a[1..] == b[1..];
    }
  }

  /** With a colon in a name two batches can have one signature. */
  lemma ColonsCanCollide()
    ensures Signature([ToolCall("f:{}|g", "{}")]) == Signature([ToolCall("f", "{}"), ToolCall("g", "{}")])
  {
    var one, two := [ToolCall("f:{}|g", "{}")], [ToolCall("f", "{}"), ToolCall("g", "{}")];
    SignatureOfOne(one[0]);
    SignatureStarts(two);
    assert two[1..] == [ToolCall("g", "{}")];
    SignatureOfOne(two[1]);
  }

  // ---------------------------------------------------------------- copies among batches and signatures

  function SignaturesOf(batches: seq<seq<ToolCall>>): seq<string> {
    seq(|batches|, i requires 0 <= i < |batches| => Signature(batches[i]))
  }

  predicate AllSeparable(batches: seq<seq<ToolCall>>) {
    forall b <- batches :: Separable(b)
  }

  lemma {:induction false} SameSequences(a: seq<seq<ToolCall>>, b: seq<seq<ToolCall>>)
    requires AllSeparable(a) && AllSeparable(b)
    ensures SignaturesOf(a) == SignaturesOf(b) <==> a == b
  {
    if SignaturesOf(a) == SignaturesOf(b) {
      assert |SignaturesOf(a)| == |a| && |SignaturesOf(b)| == |b|;
      forall i | 0 <= i < |a| ensures a[i] == b[i] {
        assert SignaturesOf(a)[i] == SignaturesOf(b)[i];
        BatchSignature(a[i], b[i]);
      }
    }
  }

  lemma {:induction false} PartsOf(a: seq<seq<ToolCall>>, k: nat)
    requires k <= |a|
    ensures SignaturesOf(a)[..k] == SignaturesOf(a[..k]) && SignaturesOf(a)[k..] == SignaturesOf(a[k..])
    ensures AllSeparable(a) ==> AllSeparable(a[..k]) && AllSeparable(a[k..])
  {
  }

  lemma {:induction false} SameEnding(a: seq<seq<ToolCall>>, b: seq<seq<ToolCall>>)
    requires AllSeparable(a) && AllSeparable(b)
    ensures EndsWith(SignaturesOf(a), SignaturesOf(b)) <==> EndsWith(a, b)
  {
    if |b| <= |a| {
      PartsOf(a, |a| - |b|);
      SameSequences(a[|a| - |b|..], b);
    }
  }

  lemma {:induction false} SameWalk(a: seq<seq<ToolCall>>, block: seq<seq<ToolCall>>, n: nat)
    requires AllSeparable(a) && AllSeparable(block)
    ensures Walk(SignaturesOf(a), SignaturesOf(block), n) <==> Walk(a, block, n)
    decreases n
  {
    if n > 0 {
      SameEnding(a, block);
      if EndsWith(a, block) {
        PartsOf(a, |a| - |block|);
        SameWalk(a[..|a| - |block|], block, n - 1);
      }
    }
  }

  /** Copies among the signatures are copies among the batches. */
  lemma {:induction false} SameCopies(a: seq<seq<ToolCall>>, p: nat, n: nat)
    requires AllSeparable(a) && n >= 1
    ensures EndsInCopies(SignaturesOf(a), p, n) <==> EndsInCopies(a, p, n)
  {
    CopiedIsEnding(a, p, n);
    CopiedIsEnding(SignaturesOf(a), p, n);
    SameCopied(a, p, n);
  }

  lemma {:induction false} SameCopied(a: seq<seq<ToolCall>>, p: nat, n: nat)
    requires AllSeparable(a)
    ensures Copied(SignaturesOf(a), p, n) <==> Copied(a, p, n)
  {
    if p <= |a| {
      PartsOf(a, |a| - p);
      SameWalk(a, Last(a, p), n);
    }
  }
}
