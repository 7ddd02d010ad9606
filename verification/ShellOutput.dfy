// What a shell command's output is kept and shown as
// (packages/core/src/agent-runtime/coding-shell-process.ts): chunks of two channels against one
// budget for the result and another for an artifact, and previews of what was kept.
module ShellOutput {
  import opened Prelude
  import opened UriComponent
  import opened Utf8Align

  type Bytes = seq<Byte>

  datatype Channel = Stdout | Stderr

  datatype Chunk = Chunk(channel: Channel, data: Bytes)

  // ---- the stream of a command -------------------------------------------------------------------

  /** Everything a command wrote, byte by byte, with the channel of each byte. */
  datatype Written = Written(channel: Channel, byte: Byte)

  function Tagged(chunk: Chunk): (written: seq<Written>)
    ensures |written| == |chunk.data|
    ensures forall i | 0 <= i < |chunk.data| :: written[i] == Written(chunk.channel, chunk.data[i])
  {
    seq(|chunk.data|, i requires 0 <= i < |chunk.data| => Written(chunk.channel, chunk.data[i]))
  }

  function Stream(chunks: seq<Chunk>): seq<Written> {
    if chunks == [] then [] else Stream(chunks[..|chunks| - 1]) + Tagged(chunks[|chunks| - 1])
  }

  /** The bytes of one channel, in order. */
  function On(written: seq<Written>, channel: Channel): Bytes {
    if written == [] then [] else
      var last := written[|written| - 1];
      On(written[..|written| - 1], channel) + if last.channel == channel then [last.byte] else []
  }

  /** The first `limit` bytes of a stream, or all of it. */
  function Within(written: seq<Written>, limit: nat): (kept: seq<Written>)
    ensures |kept| <= limit && kept <= written
  {
    if |written| <= limit then written else written[..limit]
  }

  lemma {:induction false} OnAdd(a: seq<Written>, b: seq<Written>, channel: Channel)
    ensures On(a + b, channel) == On(a, channel) + On(b, channel)
  {
    if b == [] {
      assert a + b == a;
    } else {
      OnAdd(a, b[..|b| - 1], channel);
      assert (a + b)[..|a + b| - 1] == a + b[..|b| - 1];
    }
  }

  lemma TaggedSnoc(channel: Channel, data: Bytes)
    requires data != []
    ensures Tagged(Chunk(channel, data)) ==
              Tagged(Chunk(channel, data[..|data| - 1])) + [Written(channel, data[|data| - 1])]
  {
  }

  lemma {:induction false} OnSnoc(written: seq<Written>, last: Written, channel: Channel)
    ensures On(written + [last], channel) == On(written, channel) + if last.channel == channel then [last.byte] else []
  {
    assert (written + [last])[..|written|] == written;
  }

  lemma {:induction false} OnTagged(channel: Channel, data: Bytes, other: Channel)
    ensures On(Tagged(Chunk(channel, data)), other) == if other == channel then data else []
  {
    if data != [] {
      var init, last := data[..|data| - 1], data[|data| - 1];
      OnTagged(channel, init, other);
      TaggedSnoc(channel, data);
      OnSnoc(Tagged(Chunk(channel, init)), Written(channel, last), other);
      assert data == init + [last];
    }
  }

  lemma {:induction false} OnSizes(written: seq<Written>)
    ensures |On(written, Stdout)| + |On(written, Stderr)| == |written|
  {
    if written != [] {
      OnSizes(written[..|written| - 1]);
    }
  }

  /** What is kept of a channel of a cut stream is the beginning of that channel. */
  lemma KeptIsPrefix(written: seq<Written>, limit: nat, channel: Channel)
    ensures On(Within(written, limit), channel) <= On(written, channel)
  {
    if |written| > limit {
      OnAdd(written[..limit], written[limit..], channel);
      assert written == written[..limit] + written[limit..];
    }
  }

  // ---- keeping a chunk ------------------------------------------------------------------------------

  /** The part of a chunk there is room for. */
  function Fitting(data: Bytes, room: nat): (kept: Bytes)
    ensures |kept| <= room && kept <= data
  {
    if |data| <= room then data else data[..room]
  }

  function OnChannel(data: Bytes, channel: Channel, of: Channel): Bytes {
    if channel == of then data else []
  }

  /** What one more chunk adds to what is kept within a limit: what still fits of it. */
  lemma WithinNext(before: seq<Written>, channel: Channel, data: Bytes, limit: nat)
    ensures var kept := Fitting(data, limit - |Within(before, limit)|);
            var after := Within(before + Tagged(Chunk(channel, data)), limit);
            && |after| == |Within(before, limit)| + |kept|
            && On(after, Stdout) == On(Within(before, limit), Stdout) + OnChannel(kept, channel, Stdout)
            && On(after, Stderr) == On(Within(before, limit), Stderr) + OnChannel(kept, channel, Stderr)
  {
    var kept := Fitting(data, limit - |Within(before, limit)|);
    var after := before + Tagged(Chunk(channel, data));
    var tagged := Tagged(Chunk(channel, kept));
    assert Within(after, limit) == Within(before, limit) + tagged;
    OnAdd(Within(before, limit), tagged, Stdout);
    OnAdd(Within(before, limit), tagged, Stderr);
    OnTagged(channel, kept, Stdout);
    OnTagged(channel, kept, Stderr);
  }

  /** These bytes of the two channels are what is kept of a stream within a limit. */
  ghost predicate Kept(stream: seq<Written>, limit: nat, out: Bytes, err: Bytes, count: nat) {
    && out == On(Within(stream, limit), Stdout)
    && err == On(Within(stream, limit), Stderr)
    && count == |Within(stream, limit)|
  }

  lemma KeptNext(stream: seq<Written>, limit: nat, out: Bytes, err: Bytes, count: nat,
                                    channel: Channel, data: Bytes)
    requires Kept(stream, limit, out, err, count)
    ensures var kept := Fitting(data, limit - count);
            Kept(stream + Tagged(Chunk(channel, data)), limit, out + OnChannel(kept, channel, Stdout),
                 err + OnChannel(kept, channel, Stderr), count + |kept|)
    ensures |data| > limit - count <==> data != [] && |stream + Tagged(Chunk(channel, data))| > limit
  {
    WithinNext(stream, channel, data, limit);
  }

  lemma StreamNext(chunks: seq<Chunk>, chunk: Chunk)
    ensures Stream(chunks + [chunk]) == Stream(chunks) + Tagged(chunk)
  {
    assert (chunks + [chunk])[..|chunks|] == chunks;
  }

  class ShellCapture {
    const maxOutput: nat
    /** The room an artifact has for output beside its headers; absent without artifacts. */
    const artifactLimit: Option<nat>
    var stdout: Bytes
    var stderr: Bytes
    var artifactStdout: Bytes
    var artifactStderr: Bytes
    var retained: nat
    var artifactBytes: nat
    /** The chunks the command has written so far. */
    ghost var chunks: seq<Chunk>

    /** What is kept is exactly the stream up to the limits, channel by channel. */
    ghost predicate Valid()
      reads this
    {
      && Kept(Stream(chunks), maxOutput, stdout, stderr, retained)
      && (if artifactLimit.Some?
          then Kept(Stream(chunks), artifactLimit.value, artifactStdout, artifactStderr, artifactBytes)
          else artifactStdout == [] && artifactStderr == [] && artifactBytes == 0)
    }

    /** The limit that ends the command: the artifact's where there is one. */
    function Limit(): nat {
      if artifactLimit.Some? then artifactLimit.value else maxOutput
    }

    constructor (maxOutput: nat, artifactLimit: Option<nat>)
      ensures this.maxOutput == maxOutput && this.artifactLimit == artifactLimit
      ensures Valid() && chunks == []
    {
      this.maxOutput, this.artifactLimit := maxOutput, artifactLimit;
      stdout, stderr, artifactStdout, artifactStderr, retained, artifactBytes := [], [], [], [], 0, 0;
      chunks := [];
    }

    /** `retain`: keep what fits. The limit error is raised by exactly the chunks with a byte beyond
        the limit, hence first by the chunk that crosses it. */
    method Retain(channel: Channel, data: Bytes) returns (fits: bool)
      requires Valid()
      modifies this
      ensures Valid() && chunks == old(chunks) + [Chunk(channel, data)]
      ensures !fits <==> data != [] && |Stream(chunks)| > Limit()
    {
      StreamNext(chunks, Chunk(channel, data));
      fits := RetainResult(channel, data, Stream(chunks));
      if artifactLimit.Some? {
        fits := RetainArtifact(channel, data, Stream(chunks));
      }
      chunks := chunks + [Chunk(channel, data)];
    }

    method RetainResult(channel: Channel, data: Bytes, ghost stream: seq<Written>) returns (fits: bool)
      requires Kept(stream, maxOutput, stdout, stderr, retained)
      modifies this`stdout, this`stderr, this`retained
      ensures Kept(stream + Tagged(Chunk(channel, data)), maxOutput, stdout, stderr, retained)
      ensures !fits <==> data != [] && |stream + Tagged(Chunk(channel, data))| > maxOutput
    {
      KeptNext(stream, maxOutput, stdout, stderr, retained, channel, data);
      var remaining := maxOutput - retained;
      if remaining > 0 {
        var kept := Fitting(data, remaining);
        if channel == Stdout { stdout := stdout + kept; } else { stderr := stderr + kept; }
        retained := retained + |kept|;
      }
      fits := |data| <= remaining;
    }

    method RetainArtifact(channel: Channel, data: Bytes, ghost stream: seq<Written>) returns (fits: bool)
      requires artifactLimit.Some? && Kept(stream, artifactLimit.value, artifactStdout, artifactStderr, artifactBytes)
      modifies this`artifactStdout, this`artifactStderr, this`artifactBytes
      ensures Kept(stream + Tagged(Chunk(channel, data)), artifactLimit.value, artifactStdout, artifactStderr, artifactBytes)
      ensures !fits <==> data != [] && |stream + Tagged(Chunk(channel, data))| > artifactLimit.value
    {
      KeptNext(stream, artifactLimit.value, artifactStdout, artifactStderr, artifactBytes, channel, data);
      var remaining := artifactLimit.value - artifactBytes;
      if remaining > 0 {
        var kept := Fitting(data, remaining);
        if channel == Stdout { artifactStdout := artifactStdout + kept; }
        else { artifactStderr := artifactStderr + kept; }
        artifactBytes := artifactBytes + |kept|;
      }
      fits := |data| <= remaining;
    }
  }

  // ---- previews ---------------------------------------------------------------------------------------

  datatype Preview = Preview(data: Bytes, headBytes: nat, tailBytes: nat, omittedBytes: nat)

  function HalfUp(n: nat): nat {
    (n + 1) / 2
  }

  /** `preview`: a head and a tail, both moved onto character boundaries. */
  function PreviewOf(data: Bytes, budget: nat): Preview {
    if |data| <= budget then Preview(data, |data|, 0, 0)
    else
      var headEnd := AlignedEnd(data, 0, HalfUp(budget));
      var aligned := StartFrom(data, |data| - budget / 2, |data|);
      var tailStart := if headEnd > aligned then headEnd else aligned;
      Preview(data[..headEnd] + data[tailStart..], headEnd, |data| - tailStart, tailStart - headEnd)
  }

  /** `retainedPreview`: the whole characters of what was retained. */
  function RetainedPreview(data: Bytes): Preview {
    var end := AlignedEnd(data, 0, |data|);
    Preview(data[..end], end, 0, |data| - end)
  }

  /** Head, tail and omission account for every byte; the head may run past its half by what is left
      of one character, so that the budget is exceeded by three bytes at most. */
  lemma PreviewAccounts(data: Bytes, budget: nat)
    ensures var p := PreviewOf(data, budget);
            && p.headBytes + p.tailBytes + p.omittedBytes == |data|
            && p.data == data[..p.headBytes] + data[|data| - p.tailBytes..]
            && p.headBytes + p.tailBytes <= budget + 3
            && (p.headBytes <= HalfUp(budget) ==> p.headBytes + p.tailBytes <= budget)
  {
  }

  /** Of single-byte characters exactly the budget is shown, the odd byte in front. */
  lemma PlainPreview(data: Bytes, budget: nat)
    requires |data| > budget && forall i | 0 <= i < |data| :: data[i] < 0x80
    ensures PreviewOf(data, budget).data == data[..budget - budget / 2] + data[|data| - budget / 2..]
  {
    var head, tail := HalfUp(budget), |data| - budget / 2;
    assert AlignedEnd(data, 0, head) == head;
    assert StartFrom(data, tail, |data|) == tail;
  }

  /** Whatever the bytes are, head and tail keep to the budget exactly when the head gains no more by
      its alignment than the tail loses. */
  lemma PreviewFitsBytes(data: Bytes, budget: nat)
    requires |data| > budget
    ensures var p := PreviewOf(data, budget);
            var head, tail := HalfUp(budget), |data| - budget / 2;
            var headEnd, tailStart := AlignedEnd(data, 0, head), StartFrom(data, tail, |data|);
            && p.headBytes == headEnd && p.tailBytes == |data| - (if headEnd > tailStart then headEnd else tailStart)
            && (p.headBytes + p.tailBytes <= budget <==> headEnd - head <= tailStart - tail)
  {
  }

  /** Of a prefix of a UTF-8 text: exactly when the head stops short of its half, in front of a character
      that the prefix ends in, or when no more bytes are left of the character at its cut than of the one
      at the cut of the tail. In a whole text it never stops short. */
  lemma {:induction false} PreviewFits(text: string, data: Bytes, budget: nat)
    requires data <= Encoded(text) && |data| > budget
    ensures var p := PreviewOf(data, budget);
            var head, tail := HalfUp(budget), |data| - budget / 2;
            && (p.headBytes + p.tailBytes <= budget <==>
                  || p.headBytes < head
                  || StartFrom(data, head, |data|) - head <= StartFrom(data, tail, |data|) - tail)
            && (data == Encoded(text) ==> p.headBytes >= head)
  {
    PreviewFitsBytes(data, budget);
    EndIsStart(text, data, HalfUp(budget));
    StartsAscend(data, HalfUp(budget), |data| - budget / 2);
  }

  /** They do not always: here one byte was asked for and two are shown. */
  lemma HeadOverruns()
    ensures var data: Bytes := [0xC3, 0xA9]; PreviewOf(data, 1).headBytes + PreviewOf(data, 1).tailBytes == 2
  {
    var data: Bytes := [0xC3, 0xA9];
    assert AlignedEnd(data, 0, 1) == 2;
  }

  /** Of a prefix of a UTF-8 text the head ends between characters and the tail begins between them,
      unless all of it is shown; of a whole text nothing is split at all. */
  lemma {:induction false} PreviewSplitsNothing(text: string, data: Bytes, budget: nat)
    requires data <= Encoded(text)
    ensures var p := PreviewOf(data, budget);
            && (if |data| <= budget then p.data == data else Boundary(text, p.headBytes))
            && (|data| > budget && p.tailBytes > 0 ==> Boundary(text, |data| - p.tailBytes))
            && (data == Encoded(text) ==> Boundary(text, p.headBytes) && Boundary(text, |data| - p.tailBytes))
  {
    WholeIsBoundary(text);
    if |data| > budget {
      EndIsBoundary(text, data, HalfUp(budget));
      StartIsBoundary(text, data, |data| - budget / 2);
    }
  }

  /** The tail of a prefix that ends inside a character ends inside it as well. */
  lemma CutTailIsSplit()
    ensures var text, data: Bytes := "aa\U{E9}", [0x61, 0x61, 0xC3];
            && data <= Encoded(text) && PreviewOf(data, 2).tailBytes == 1 && !Boundary(text, |data|)
  {
    var text, data: Bytes := "aa\U{E9}", [0x61, 0x61, 0xC3];
    assert text[1..] == "a\U{E9}" && text[1..][1..] == "\U{E9}" && text[1..][1..][1..] == [];
    assert Encoded(text) == [0x61, 0x61, 0xC3, 0xA9];
    assert StartFrom(data, 2, 3) == 2;
    assert IsContinuation(Encoded(text)[3]);
    if Boundary(text, 3) {
      BoundaryBegins(text, 3);
    }
  }

  /** Nor does the retained prefix, which leaves out three bytes at most. */
  lemma RetainedSplitsNothing(text: string, data: Bytes)
    requires data <= Encoded(text)
    ensures var p := RetainedPreview(data);
            && Boundary(text, p.headBytes) && p.data <= data
            && p.headBytes + p.tailBytes + p.omittedBytes == |data| && p.omittedBytes <= 3
  {
    EndIsBoundary(text, data, |data|);
  }

  // ---- the result -------------------------------------------------------------------------------------

  /** The headers of an artifact: `--- stdout ---` and `--- stderr ---` with their line breaks. */
  const STDOUT_HEADER: nat := 15
  const STDERR_HEADER: nat := 16

  function Budget(maxOutput: nat, own: Bytes, other: Bytes, rest: nat): nat {
    if |other| == 0 then maxOutput else rest
  }

  /** With an artifact the previews account for all of its output, and show no more than the result
      may hold but for a character of each channel. */
  lemma ArtifactIsAccounted(capture: ShellCapture, maxArtifactBytes: nat)
    requires capture.Valid()
    requires maxArtifactBytes >= STDOUT_HEADER + STDERR_HEADER
    requires capture.artifactLimit == Some(maxArtifactBytes - STDOUT_HEADER - STDERR_HEADER)
    ensures var outBudget := Budget(capture.maxOutput, capture.artifactStdout, capture.artifactStderr,
                                    HalfUp(capture.maxOutput));
            var errBudget := Budget(capture.maxOutput, capture.artifactStderr, capture.artifactStdout, capture.maxOutput / 2);
            var out, err := PreviewOf(capture.artifactStdout, outBudget), PreviewOf(capture.artifactStderr, errBudget);
            && out.headBytes + err.headBytes + out.tailBytes + err.tailBytes + out.omittedBytes + err.omittedBytes
                 == capture.artifactBytes
            && |out.data| + |err.data| <= capture.maxOutput + 6
            && (outBudget + errBudget == capture.maxOutput
                || (outBudget == capture.maxOutput && capture.artifactStderr == [])
                || (errBudget == capture.maxOutput && capture.artifactStdout == []))
            && STDOUT_HEADER + |capture.artifactStdout| + STDERR_HEADER + |capture.artifactStderr| <= maxArtifactBytes
            && capture.retained <= capture.maxOutput
  {
    var stream := Within(Stream(capture.chunks), capture.artifactLimit.value);
    OnSizes(stream);
    PreviewAccounts(capture.artifactStdout,
                    Budget(capture.maxOutput, capture.artifactStdout, capture.artifactStderr, HalfUp(capture.maxOutput)));
    PreviewAccounts(capture.artifactStderr,
                    Budget(capture.maxOutput, capture.artifactStderr, capture.artifactStdout, capture.maxOutput / 2));
  }

  /** Whatever is kept of a channel is a prefix of what the command wrote on it. */
  lemma CaptureIsPrefix(capture: ShellCapture)
    requires capture.Valid()
    ensures capture.stdout <= On(Stream(capture.chunks), Stdout)
    ensures capture.stderr <= On(Stream(capture.chunks), Stderr)
    ensures capture.artifactStdout <= On(Stream(capture.chunks), Stdout)
    ensures capture.artifactStderr <= On(Stream(capture.chunks), Stderr)
  {
    var stream := Stream(capture.chunks);
    KeptIsPrefix(stream, capture.maxOutput, Stdout);
    KeptIsPrefix(stream, capture.maxOutput, Stderr);
    if capture.artifactLimit.Some? {
      KeptIsPrefix(stream, capture.artifactLimit.value, Stdout);
      KeptIsPrefix(stream, capture.artifactLimit.value, Stderr);
    }
  }
}
