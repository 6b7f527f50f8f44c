/** What a provider stream passes on beside its text
    (src/application/gateway/demuxer.py, lines 100-127). */
module DemuxPassing {
  import opened Demuxer

  /** The tool calls of a stream, in order. */
  function ToolCalls(stream: seq<StreamChunk>): seq<string> {
    if stream == [] then [] else stream[0].toolCalls + ToolCalls(stream[1..])
  }

  /** A chunk that only brings held text: nothing else is in it. */
  predicate OnlyText(o: StreamChunk) {
    o.toolCalls == [] && o.finishReason == "" && !o.finished && o.usage == "" && o.notice == ""
    && (o.content == "" || o.reasoning == "")
  }

  /** o stands for the incoming chunk c: it carries the same calls and the same end, and is c
      itself unless c has content; then usage and notice are dropped. */
  predicate StandsFor(o: StreamChunk, c: StreamChunk) {
    && o.toolCalls == c.toolCalls && o.finishReason == c.finishReason && o.finished == c.finished
    && (if c.content == "" then o == c else o.usage == "" && o.notice == "")
  }

  /** Chunk by chunk one outgoing chunk stands for each incoming one, and nothing is added but
      held text before a chunk that closes the stream. */
  predicate Corresponds(out: seq<StreamChunk>, stream: seq<StreamChunk>)
    decreases |stream|
  {
    if stream == [] then out == []
    else
      || (out != [] && StandsFor(out[0], stream[0]) && Corresponds(out[1..], stream[1..]))
      || (|out| >= 2 && stream[0].finished && stream[0].content == "" && OnlyText(out[0])
          && StandsFor(out[1], stream[0]) && Corresponds(out[2..], stream[1..]))
  }

  lemma {:induction false} EmittedStandsFor(inside: bool, buffer: string, chunk: StreamChunk)
    ensures var out := Emitted(inside, buffer, chunk).0;
      || (|out| == 1 && StandsFor(out[0], chunk))
      || (|out| == 2 && chunk.finished && chunk.content == "" && OnlyText(out[0]) && StandsFor(out[1], chunk))
  {
  }

  /** For every stream, in every state of the demuxer: tool calls, finish reasons and end marks
      go through with the chunk that brought them, and chunks without content go through as
      they are. */
  lemma {:induction false} StreamCorresponds(inside: bool, buffer: string, stream: seq<StreamChunk>)
    ensures Corresponds(Streamed(inside, buffer, stream).0, stream)
    decreases |stream|
  {
    if stream != [] {
      var step := Emitted(inside, buffer, stream[0]);
      var rest := Streamed(step.1, step.2, stream[1..]).0;
      EmittedStandsFor(inside, buffer, stream[0]);
      StreamCorresponds(step.1, step.2, stream[1..]);
      InFront(step.0, rest, stream);
    }
  }

  lemma {:induction false} InFront(first: seq<StreamChunk>, rest: seq<StreamChunk>, stream: seq<StreamChunk>)
    requires stream != [] && Corresponds(rest, stream[1..])
    requires
      || (|first| == 1 && StandsFor(first[0], stream[0]))
      || (|first| == 2 && stream[0].finished && stream[0].content == "" && OnlyText(first[0])
          && StandsFor(first[1], stream[0]))
    ensures Corresponds(first + rest, stream)
  {
    assert (first + rest)[|first|..] == rest;
  }

  lemma {:induction false} CorrespondingCalls(out: seq<StreamChunk>, stream: seq<StreamChunk>)
    requires Corresponds(out, stream)
    ensures ToolCalls(out) == ToolCalls(stream)
    decreases |stream|
  {
    if stream != [] {
      if StandsFor(out[0], stream[0]) && Corresponds(out[1..], stream[1..]) {
        CorrespondingCalls(out[1..], stream[1..]);
      } else {
        CorrespondingCalls(out[2..], stream[1..]);
        assert out[1..][1..] == out[2..] && out[1..][0] == out[1];
        assert [] + (out[1].toolCalls + ToolCalls(out[2..])) == out[1].toolCalls + ToolCalls(out[2..]);
      }
    }
  }

  /** No tool call is lost, added or moved before another. */
  lemma {:induction false} CallsGoThrough(inside: bool, buffer: string, stream: seq<StreamChunk>)
    ensures ToolCalls(Streamed(inside, buffer, stream).0) == ToolCalls(stream)
  {
    StreamCorresponds(inside, buffer, stream);
    CorrespondingCalls(Streamed(inside, buffer, stream).0, stream);
  }

  /** For example a finished chunk with text and a call. */
  lemma {:induction false} CallBesideText(text: string, call: string, reason: string)
    requires text != ""
    ensures var out := Streamed(false, "", [StreamChunk(text, "", [call], reason, true, "", "")]).0;
      |out| == 1 && out[0].toolCalls == [call] && out[0].finishReason == reason && out[0].finished
  {
    var chunk := StreamChunk(text, "", [call], reason, true, "", "");
    StreamCorresponds(false, "", [chunk]);
    var out := Streamed(false, "", [chunk]).0;
    assert [chunk][1..] == [] && out[1..] == [];
  }
}
