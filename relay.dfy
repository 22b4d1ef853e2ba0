/** The chat endpoint (main.py:66-93): the bounded context window sent to the
    backend and the relay that turns backend chunks into response fragments.
    The inference client is abstract: a call is answered by a finite sequence
    of chunks, optionally followed by a raised failure. */
module Relay {
  import opened Wrappers
  import opened Schema
  import Registry

  /** Number of most recent messages forwarded to the backend. */
  const ContextWindow := 20

  /** The last `ContextWindow` messages, oldest discarded first (main.py:74-76). */
  function BoundContext(messages: seq<Message>): (sent: seq<Message>)
    ensures |sent| == if |messages| > ContextWindow then ContextWindow else |messages|
    ensures sent == messages[|messages| - |sent|..]
  {
    if |messages| > ContextWindow then messages[|messages| - ContextWindow..] else messages
  }

  /** Bounding an already bounded window changes nothing. */
  lemma BoundContextIdempotent(messages: seq<Message>)
    ensures BoundContext(BoundContext(messages)) == BoundContext(messages)
  {
  }

  /** The `message` part of a backend chunk; its `content` key may be missing. */
  datatype ChunkMessage = ChunkMessage(content: Option<string>)

  /** One streamed backend chunk; its `message` key may be missing. */
  datatype Chunk = Chunk(message: Option<ChunkMessage>)

  /** What the backend does for one call: it delivers `chunks` in order and
      then, when `failure` is `Some(e)`, raises an exception whose text is `e`.
      A backend that fails after k chunks has exactly k chunks here; one that
      fails to start has none. */
  datatype Backend = Backend(chunks: seq<Chunk>, failure: Option<string>)

  /** What the gateway passes to the backend. */
  datatype BackendCall = BackendCall(model: string, messages: seq<Message>)

  /** The chunk carries `message.content` (main.py:88). */
  predicate HasContent(c: Chunk) {
    c.message.Some? && c.message.value.content.Some?
  }

  function ContentOf(c: Chunk): string
    requires HasContent(c)
  {
    c.message.value.content.value
  }

  /** The fragment a single chunk contributes: its content, or nothing. */
  function FragmentOf(c: Chunk): seq<string> {
    if HasContent(c) then [ContentOf(c)] else []
  }

  /** The fragments relayed for a sequence of chunks, in arrival order. */
  function Fragments(chunks: seq<Chunk>): (fragments: seq<string>)
    decreases |chunks|
    ensures |fragments| <= |chunks|
    ensures (forall i :: 0 <= i < |chunks| ==> !HasContent(chunks[i])) ==> fragments == []
  {
    if chunks == [] then []
    else Fragments(chunks[..|chunks| - 1]) + FragmentOf(chunks[|chunks| - 1])
  }

  /** The positions of the chunks that carry content, in increasing order: an
      independent description of which chunks the relay forwards. */
  function ContentPositions(chunks: seq<Chunk>): (ps: seq<nat>)
    decreases |chunks|
    ensures forall k :: 0 <= k < |ps| ==> ps[k] < |chunks| && HasContent(chunks[ps[k]])
    ensures forall i :: 0 <= i < |chunks| && HasContent(chunks[i]) ==> i in ps
    ensures forall k, l :: 0 <= k < l < |ps| ==> ps[k] < ps[l]
  {
    if chunks == [] then []
    else
      var init := chunks[..|chunks| - 1];
      var ps := ContentPositions(init);
      assert forall k :: 0 <= k < |ps| ==> chunks[ps[k]] == init[ps[k]];
      if HasContent(chunks[|chunks| - 1]) then ps + [|chunks| - 1] else ps
  }

  /** The relay forwards the content of exactly the content-carrying chunks,
      in backend order, and nothing else: the k-th fragment is the content of
      the k-th chunk that has one. */
  lemma {:induction false} FragmentsAreContents(chunks: seq<Chunk>)
    ensures |Fragments(chunks)| == |ContentPositions(chunks)|
    ensures forall k :: 0 <= k < |ContentPositions(chunks)| ==>
      Fragments(chunks)[k] == ContentOf(chunks[ContentPositions(chunks)[k]])
    decreases |chunks|
  {
    if chunks != [] {
      var init := chunks[..|chunks| - 1];
      FragmentsAreContents(init);
      var ps := ContentPositions(init);
      var last := chunks[|chunks| - 1];
      assert Fragments(chunks) == Fragments(init) + FragmentOf(last);
      assert forall k :: 0 <= k < |ps| ==> chunks[ps[k]] == init[ps[k]];
      if HasContent(last) {
        assert ContentPositions(chunks) == ps + [|chunks| - 1];
      } else {
        assert ContentPositions(chunks) == ps;
      }
    }
  }

  /** Relaying two stretches of the stream one after the other gives the two
      relayed outputs one after the other. */
  lemma {:induction false} FragmentsAppend(a: seq<Chunk>, b: seq<Chunk>)
    ensures Fragments(a + b) == Fragments(a) + Fragments(b)
    decreases |b|
  {
    if b == [] {
      assert a + b == a;
    } else {
      var b' := b[..|b| - 1];
      assert (a + b)[..|a + b| - 1] == a + b';
      FragmentsAppend(a, b');
    }
  }

  /** Whatever has been relayed after the first n chunks is a prefix of what
      is relayed in the end, however the stream ends: nothing is emitted
      before the backend produces it, and nothing emitted is taken back. */
  lemma EmittedSoFarIsPrefix(b: Backend, n: nat)
    requires n <= |b.chunks|
    ensures Fragments(b.chunks[..n]) <= RelayOutput(b)
  {
    assert b.chunks == b.chunks[..n] + b.chunks[n..];
    FragmentsAppend(b.chunks[..n], b.chunks[n..]);
  }

  /** The whole relayed output of one backend call (main.py:78-91). */
  function RelayOutput(b: Backend): (out: seq<string>)
    ensures Fragments(b.chunks) <= out
    ensures |out| == |Fragments(b.chunks)| + if b.failure.Some? then 1 else 0
  {
    Fragments(b.chunks) + if b.failure.Some? then ["Error: " + b.failure.value] else []
  }

  /** A backend failure after the delivered chunks ends the output with exactly
      one fragment that starts with "Error: " and carries the failure's text;
      everything before it is the relayed content. Without a failure the
      output is the relayed content alone. */
  lemma RelayOutcome(b: Backend)
    ensures b.failure.None? ==> RelayOutput(b) == Fragments(b.chunks)
    ensures b.failure.Some? ==>
      var out := RelayOutput(b);
      && |out| == |Fragments(b.chunks)| + 1
      && out[..|out| - 1] == Fragments(b.chunks)
      && out[|out| - 1][..7] == "Error: "
      && out[|out| - 1][7..] == b.failure.value
  {
  }

  /** The relay loop: walks the chunks, yields each content, and on a failure
      yields one error fragment and stops. */
  method Generate(b: Backend) returns (out: seq<string>)
    ensures out == RelayOutput(b)
  {
    out := [];
    var i := 0;
    while i < |b.chunks|
      invariant 0 <= i <= |b.chunks|
      invariant out == Fragments(b.chunks[..i])
    {
      var chunk := b.chunks[i];
      if chunk.message.Some? && chunk.message.value.content.Some? {
        out := out + [chunk.message.value.content.value];
      }
      assert b.chunks[..i + 1][..i] == b.chunks[..i];
      i := i + 1;
    }
    assert b.chunks[..i] == b.chunks;
    if b.failure.Some? {
      out := out + ["Error: " + b.failure.value];
    }
  }

  /** One chat call: resolve the model, bound the context, ask the backend
      (`backend` answers each call) and relay its stream. */
  method ChatStream(request: ChatRequest, backend: BackendCall -> Backend)
    returns (call: BackendCall, fragments: seq<string>)
    ensures call.model == Registry.ModelName(request.modelKey)
    ensures call.messages == BoundContext(request.messages)
    ensures fragments == RelayOutput(backend(call))
  {
    var modelName := Registry.ModelName(request.modelKey);
    var messages := request.messages;
    if |messages| > ContextWindow {
      messages := messages[|messages| - ContextWindow..];
    }
    call := BackendCall(modelName, messages);
    fragments := Generate(backend(call));
  }

  /** Concatenation of relayed fragments, as the client sees the body. */
  function Concat(fragments: seq<string>): string
    decreases |fragments|
  {
    if fragments == [] then "" else fragments[0] + Concat(fragments[1..])
  }

  function TextChunk(s: string): Chunk {
    Chunk(Some(ChunkMessage(Some(s))))
  }

  /** A backend streaming "Hel", "lo", " world" yields a body "Hello world". */
  lemma HelloWorldExample()
    ensures Concat(RelayOutput(Backend([TextChunk("Hel"), TextChunk("lo"), TextChunk(" world")], None)))
      == "Hello world"
  {
    var cs := [TextChunk("Hel"), TextChunk("lo"), TextChunk(" world")];
    assert cs[..2][..1] == [TextChunk("Hel")];
    assert [TextChunk("Hel")][..0] == [];
    assert Fragments([TextChunk("Hel")]) == ["Hel"];
    assert cs[..2] == [TextChunk("Hel"), TextChunk("lo")];
    assert Fragments(cs[..2]) == ["Hel", "lo"];
    assert Fragments(cs) == ["Hel", "lo", " world"];
    assert Concat([" world"]) == " world";
    assert Concat(["lo", " world"]) == "lo world";
  }

  /** A backend that sends "Par", "tial" and then fails keeps the partial
      content and ends with one error fragment. */
  lemma PartialFailureExample(e: string)
    ensures RelayOutput(Backend([TextChunk("Par"), TextChunk("tial")], Some(e)))
      == ["Par", "tial", "Error: " + e]
  {
    var cs := [TextChunk("Par"), TextChunk("tial")];
    assert cs[..1] == [TextChunk("Par")];
    assert [TextChunk("Par")][..0] == [];
    assert Fragments([TextChunk("Par")]) == ["Par"];
    assert Fragments(cs) == ["Par", "tial"];
  }
}
