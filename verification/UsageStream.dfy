/**
 Token usage in server-sent event streams: the incremental parser that keeps the
 latest usage totals, and the forwarder that hides usage events from clients that
 did not ask for them.  Both cut the stream into events as chunks arrive; neither
 result depends on where the chunks were cut.
 */
module UsageStream {
  import opened Options

  newtype byte = b: int | 0 <= b < 256

  const CR: byte := 13
  const LF: byte := 10

  datatype Json =
    | Null
    | Bool(flag: bool)
    | Number(number: real)
    | Text(text: string)
    | Array(items: seq<Json>)
    | Object(fields: map<string, Json>)

  /** The parser's and the forwarder's decoders of an event, and that of a decimal literal. */
  datatype Codec = Codec(
    payload: seq<byte> -> Option<map<string, Json>>,
    forwarded: seq<byte> -> Option<map<string, Json>>,
    integer: string -> Option<int>)

  function Concat(chunks: seq<seq<byte>>): seq<byte> {
    if chunks == [] then [] else chunks[0] + Concat(chunks[1..])
  }

  lemma {:induction false} ConcatAppend(a: seq<seq<byte>>, b: seq<seq<byte>>)
    ensures Concat(a + b) == Concat(a) + Concat(b)
  {
    if a == [] {
      assert a + b == b;
    } else {
      assert (a + b)[1..] == a[1..] + b;
      ConcatAppend(a[1..], b);
    }
  }

  // ----- the parser's event boundary: a newline twice, each LF or CR LF

  function NewlineEnd(b: seq<byte>, i: nat): (r: Option<nat>)
    ensures r.Some? ==> i < r.value <= |b|
  {
    if i < |b| && b[i] == LF then Some(i + 1)
    else if i + 1 < |b| && b[i] == CR && b[i + 1] == LF then Some(i + 2)
    else None
  }

  function BoundaryEnd(b: seq<byte>, i: nat): (r: Option<nat>)
    ensures r.Some? ==> i < r.value <= |b|
  {
    match NewlineEnd(b, i)
    case None => None
    case Some(j) => NewlineEnd(b, j)
  }

  /** A boundary is two newlines, each LF or CR LF, and nothing else is. */
  lemma BoundaryIs(b: seq<byte>, i: nat, e: nat)
    ensures BoundaryEnd(b, i) == Some(e) <==>
      i <= e <= |b| && b[i..e] in {[LF, LF], [CR, LF, LF], [LF, CR, LF], [CR, LF, CR, LF]}
  {
    if i <= e <= |b| {
      var t := b[i..e];
      assert forall k :: 0 <= k < |t| ==> t[k] == b[i + k];
      if BoundaryEnd(b, i) == Some(e) {
        assert t == if |t| == 2 then [LF, LF] else if |t| == 4 then [CR, LF, CR, LF]
                    else if t[0] == CR then [CR, LF, LF] else [LF, CR, LF];
      }
    }
  }

  /** The leftmost boundary at or after `i`, as the index where it starts. */
  function Search(b: seq<byte>, i: nat): (r: Option<nat>)
    requires i <= |b|
    ensures r.Some? ==> i <= r.value < |b| && BoundaryEnd(b, r.value).Some?
    ensures forall k :: i <= k < (if r.Some? then r.value else |b|) ==> BoundaryEnd(b, k).None?
    decreases |b| - i
  {
    if i == |b| then None
    else if BoundaryEnd(b, i).Some? then Some(i)
    else Search(b, i + 1)
  }

  /** A boundary that starts earlier never ends later. */
  lemma EarlierEndsEarlier(b: seq<byte>, i: nat, j: nat)
    requires i < j && BoundaryEnd(b, i).Some? && BoundaryEnd(b, j).Some?
    ensures BoundaryEnd(b, i).value <= BoundaryEnd(b, j).value
  {
  }

  lemma BoundaryInPrefix(a: seq<byte>, b: seq<byte>, i: nat)
    ensures BoundaryEnd(a, i).Some? ==> BoundaryEnd(a + b, i) == BoundaryEnd(a, i) && BoundaryEnd(a, i).value <= |a|
    ensures BoundaryEnd(a + b, i).Some? && BoundaryEnd(a + b, i).value <= |a| ==>
      BoundaryEnd(a, i) == BoundaryEnd(a + b, i)
  {
  }

  /** More input never moves a boundary that was already found. */
  lemma SearchIsStable(a: seq<byte>, b: seq<byte>)
    requires Search(a, 0).Some?
    ensures Search(a + b, 0) == Search(a, 0)
    ensures BoundaryEnd(a + b, Search(a, 0).value) == BoundaryEnd(a, Search(a, 0).value)
  {
    var start := Search(a, 0).value;
    BoundaryInPrefix(a, b, start);
    forall k | 0 <= k < start ensures BoundaryEnd(a + b, k).None? {
      BoundaryInPrefix(a, b, k);
      if BoundaryEnd(a + b, k).Some? { EarlierEndsEarlier(a + b, k, start); }
    }
  }

  /** Complete events in order, without their boundaries, and the unfinished rest. */
  function Split(b: seq<byte>): (seq<seq<byte>>, seq<byte>)
    decreases |b|
  {
    var start := Search(b, 0);
    if start.None? then ([], b)
    else
      var (events, rest) := Split(b[BoundaryEnd(b, start.value).value..]);
      ([b[..start.value]] + events, rest)
  }

  lemma Regroup(x: seq<seq<byte>>, y: seq<seq<byte>>, z: seq<seq<byte>>)
    ensures (x + y) + z == x + (y + z)
  {
  }

  /** Splitting can stop anywhere and resume with what was left over. */
  lemma {:induction false} SplitResumes(a: seq<byte>, b: seq<byte>)
    ensures var (events, rest) := Split(a); var (more, tail) := Split(rest + b);
      Split(a + b).0 == events + more && Split(a + b).1 == tail
    decreases |a|
  {
    var start := Search(a, 0);
    if start.None? {
      assert Split(a).0 + Split(a + b).0 == Split(a + b).0;
    } else {
      SearchIsStable(a, b);
      var end := BoundaryEnd(a, start.value).value;
      assert (a + b)[end..] == a[end..] + b;
      assert (a + b)[..start.value] == a[..start.value];
      SplitResumes(a[end..], b);
      Regroup([a[..start.value]], Split(a[end..]).0, Split(Split(a[end..]).1 + b).0);
    }
  }

  /** No event and no rest contains a complete boundary. */
  lemma {:induction false} SplitIsComplete(b: seq<byte>)
    ensures var (events, rest) := Split(b);
      Search(rest, 0).None? && forall e :: e in events ==> Search(e, 0).None?
    decreases |b|
  {
    var start := Search(b, 0);
    if start.Some? {
      var first := b[..start.value];
      assert first + b[start.value..] == b;
      forall k | 0 <= k < |first| ensures BoundaryEnd(first, k).None? {
        BoundaryInPrefix(first, b[start.value..], k);
      }
      SplitIsComplete(b[BoundaryEnd(b, start.value).value..]);
    }
  }

  // ----- what an event says about usage

  datatype Protocol = OpenAI | OpenAIResponses | AnthropicMessages

  datatype Usage = Usage(prompt: nat, completion: nat, total: nat, raw: map<string, Json>)

  const TOKEN_KEYS := {"prompt_tokens", "completion_tokens", "input_tokens", "output_tokens", "total_tokens",
                       "cache_creation_input_tokens", "cache_read_input_tokens"}

  function TokenCount(codec: Codec, fields: map<string, Json>, key: string): Option<nat> {
    if key !in fields then None
    else
      match fields[key]
      case Number(n) => if n.Floor as real == n && n >= 0.0 then Some(n.Floor) else None
      case Text(t) =>
        var parsed := codec.integer(t);
        if parsed.Some? && parsed.value >= 0 then Some(parsed.value) else None
      case _ => None
  }

  function Tokens(codec: Codec, fields: map<string, Json>, key: string): nat {
    var count := TokenCount(codec, fields, key);
    if count.Some? then count.value else 0
  }

  function FieldObject(fields: map<string, Json>, key: string): Option<map<string, Json>> {
    if key in fields && fields[key].Object? then Some(fields[key].fields) else None
  }

  function NestedUsage(payload: map<string, Json>, envelope: string): Option<map<string, Json>> {
    var inner := FieldObject(payload, envelope);
    if inner.Some? then FieldObject(inner.value, "usage") else None
  }

  function UsageBlock(payload: map<string, Json>): Option<map<string, Json>> {
    if FieldObject(payload, "usage").Some? then FieldObject(payload, "usage")
    else if NestedUsage(payload, "response").Some? then NestedUsage(payload, "response")
    else if NestedUsage(payload, "message").Some? then NestedUsage(payload, "message")
    else if NestedUsage(payload, "delta").Some? then NestedUsage(payload, "delta")
    else if payload.Keys * TOKEN_KEYS != {} then Some(payload)
    else None
  }

  function Normalize(codec: Codec, protocol: Protocol, usage: map<string, Json>): Option<Usage> {
    if usage.Keys * TOKEN_KEYS == {} then None
    else
      var prompt :=
        if protocol.AnthropicMessages? then
          Tokens(codec, usage, "input_tokens") + Tokens(codec, usage, "cache_creation_input_tokens")
          + Tokens(codec, usage, "cache_read_input_tokens")
        else Tokens(codec, usage, if "prompt_tokens" in usage then "prompt_tokens" else "input_tokens");
      var completion :=
        if protocol.AnthropicMessages? then Tokens(codec, usage, "output_tokens")
        else Tokens(codec, usage, if "completion_tokens" in usage then "completion_tokens" else "output_tokens");
      var reported := TokenCount(codec, usage, "total_tokens");
      Some(Usage(prompt, completion, if reported.Some? then reported.value else prompt + completion, usage))
  }

  /** The parser's fields; `merged` accumulates the Anthropic counters. */
  datatype Parser = Parser(buffer: seq<byte>, latest: Option<Usage>, merged: map<string, Json>)

  function Consume(codec: Codec, protocol: Protocol, p: Parser, event: seq<byte>): Parser {
    var payload := codec.payload(event);
    var block := if payload.Some? then UsageBlock(payload.value) else None;
    if block.None? then p
    else
      var merged :=
        if protocol.AnthropicMessages? then p.merged + (map k | k in block.value && k in TOKEN_KEYS :: block.value[k])
        else p.merged;
      var normalized := Normalize(codec, protocol, if protocol.AnthropicMessages? then merged else block.value);
      p.(merged := merged, latest := if normalized.Some? then normalized else p.latest)
  }

  function ConsumeAll(codec: Codec, protocol: Protocol, p: Parser, events: seq<seq<byte>>): Parser
    decreases |events|
  {
    if events == [] then p
    else ConsumeAll(codec, protocol, Consume(codec, protocol, p, events[0]), events[1..])
  }

  function Fed(codec: Codec, protocol: Protocol, p: Parser, chunk: seq<byte>): Parser {
    var (events, rest) := Split(p.buffer + chunk);
    ConsumeAll(codec, protocol, p, events).(buffer := rest)
  }

  function Finished(codec: Codec, protocol: Protocol, p: Parser): Parser {
    if p.buffer == [] then p else Consume(codec, protocol, p.(buffer := []), p.buffer)
  }

  lemma {:induction false} ConsumeAllAppend(codec: Codec, protocol: Protocol, p: Parser, a: seq<seq<byte>>,
      b: seq<seq<byte>>)
    ensures ConsumeAll(codec, protocol, p, a + b) == ConsumeAll(codec, protocol, ConsumeAll(codec, protocol, p, a), b)
    decreases |a|
  {
    if a == [] {
      assert a + b == b;
    } else {
      assert (a + b)[1..] == a[1..] + b;
      ConsumeAllAppend(codec, protocol, Consume(codec, protocol, p, a[0]), a[1..], b);
    }
  }

  lemma {:induction false} ConsumeIgnoresBuffer(codec: Codec, protocol: Protocol, p: Parser, buffer: seq<byte>,
      events: seq<seq<byte>>)
    ensures ConsumeAll(codec, protocol, p.(buffer := buffer), events)
         == ConsumeAll(codec, protocol, p, events).(buffer := buffer)
    decreases |events|
  {
    if events != [] {
      ConsumeIgnoresBuffer(codec, protocol, Consume(codec, protocol, p, events[0]), buffer, events[1..]);
    }
  }

  /** Feeding two chunks is feeding their concatenation. */
  lemma ChunkingInvariance(codec: Codec, protocol: Protocol, p: Parser, a: seq<byte>, b: seq<byte>)
    ensures Fed(codec, protocol, Fed(codec, protocol, p, a), b) == Fed(codec, protocol, p, a + b)
  {
    var (events, rest) := Split(p.buffer + a);
    var (more, tail) := Split(rest + b);
    SplitResumes(p.buffer + a, b);
    assert p.buffer + (a + b) == p.buffer + a + b;
    ConsumeAllAppend(codec, protocol, p, events, more);
    ConsumeIgnoresBuffer(codec, protocol, ConsumeAll(codec, protocol, p, events), rest, more);
  }

  function FedAll(codec: Codec, protocol: Protocol, p: Parser, chunks: seq<seq<byte>>): Parser
    decreases |chunks|
  {
    if chunks == [] then p else FedAll(codec, protocol, Fed(codec, protocol, p, chunks[0]), chunks[1..])
  }

  /** What the parser reports depends only on the bytes, however they were cut. */
  lemma {:induction false} OnlyBytesMatter(codec: Codec, protocol: Protocol, p: Parser, chunks: seq<seq<byte>>)
    requires Search(p.buffer, 0).None?
    ensures FedAll(codec, protocol, p, chunks) == Fed(codec, protocol, p, Concat(chunks))
    decreases |chunks|
  {
    if chunks == [] {
      assert p.buffer + [] == p.buffer;
    } else {
      SplitIsComplete(p.buffer + chunks[0]);
      OnlyBytesMatter(codec, protocol, Fed(codec, protocol, p, chunks[0]), chunks[1..]);
      ChunkingInvariance(codec, protocol, p, chunks[0], Concat(chunks[1..]));
    }
  }

  // ----- what the parser has learnt

  function BlockOf(codec: Codec, event: seq<byte>): Option<map<string, Json>> {
    var payload := codec.payload(event);
    if payload.Some? then UsageBlock(payload.value) else None
  }

  /** The event reports counter `key`. */
  predicate Carries(codec: Codec, event: seq<byte>, key: string) {
    BlockOf(codec, event).Some? && key in BlockOf(codec, event).value
  }

  lemma {:induction false} MergedUnlessCarried(codec: Codec, p: Parser, events: seq<seq<byte>>, key: string)
    requires forall i :: 0 <= i < |events| ==> !Carries(codec, events[i], key)
    ensures var merged := ConsumeAll(codec, AnthropicMessages, p, events).merged;
      (key in merged <==> key in p.merged) && (key in merged ==> merged[key] == p.merged[key])
    decreases |events|
  {
    if events != [] {
      MergedUnlessCarried(codec, Consume(codec, AnthropicMessages, p, events[0]), events[1..], key);
    }
  }

  /** Anthropic counters arrive spread over events; each keeps the value reported last. */
  lemma MergedIsLast(codec: Codec, p: Parser, events: seq<seq<byte>>, key: string, i: nat)
    requires key in TOKEN_KEYS && i < |events| && Carries(codec, events[i], key)
    requires forall j :: i < j < |events| ==> !Carries(codec, events[j], key)
    ensures var merged := ConsumeAll(codec, AnthropicMessages, p, events).merged;
      key in merged && merged[key] == BlockOf(codec, events[i]).value[key]
  {
    var before, rest := events[..i], events[i..];
    assert events == before + rest;
    ConsumeAllAppend(codec, AnthropicMessages, p, before, rest);
    var q := ConsumeAll(codec, AnthropicMessages, p, before);
    MergedUnlessCarried(codec, Consume(codec, AnthropicMessages, q, rest[0]), rest[1..], key);
  }

  /** The totals of a Messages stream are always those of the merged counters. */
  lemma {:induction false} MergedDecides(codec: Codec, p: Parser, events: seq<seq<byte>>)
    requires p.latest == Normalize(codec, AnthropicMessages, p.merged)
    ensures var q := ConsumeAll(codec, AnthropicMessages, p, events);
      q.latest == Normalize(codec, AnthropicMessages, q.merged)
    decreases |events|
  {
    if events != [] {
      var q := Consume(codec, AnthropicMessages, p, events[0]);
      if q.merged.Keys * TOKEN_KEYS == {} {
        assert p.merged.Keys <= q.merged.Keys;
        assert p.merged.Keys * TOKEN_KEYS == {};
      }
      MergedDecides(codec, q, events[1..]);
    }
  }

  /** The event reports usage the other protocols can normalize. */
  predicate Reports(codec: Codec, protocol: Protocol, event: seq<byte>) {
    BlockOf(codec, event).Some? && Normalize(codec, protocol, BlockOf(codec, event).value).Some?
  }

  lemma {:induction false} LatestUnlessReported(codec: Codec, protocol: Protocol, p: Parser, events: seq<seq<byte>>)
    requires !protocol.AnthropicMessages? && forall i :: 0 <= i < |events| ==> !Reports(codec, protocol, events[i])
    ensures ConsumeAll(codec, protocol, p, events).latest == p.latest
    decreases |events|
  {
    if events != [] {
      assert !Reports(codec, protocol, events[0]);
      LatestUnlessReported(codec, protocol, Consume(codec, protocol, p, events[0]), events[1..]);
    }
  }

  /** The totals of any other stream are those of the last event that reports usage. */
  lemma LatestIsLast(codec: Codec, protocol: Protocol, p: Parser, events: seq<seq<byte>>, i: nat)
    requires !protocol.AnthropicMessages? && i < |events| && Reports(codec, protocol, events[i])
    requires forall j :: i < j < |events| ==> !Reports(codec, protocol, events[j])
    ensures ConsumeAll(codec, protocol, p, events).latest == Normalize(codec, protocol, BlockOf(codec, events[i]).value)
  {
    var before, rest := events[..i], events[i..];
    assert events == before + rest;
    ConsumeAllAppend(codec, protocol, p, before, rest);
    var q := ConsumeAll(codec, protocol, p, before);
    LatestUnlessReported(codec, protocol, Consume(codec, protocol, q, rest[0]), rest[1..]);
  }

  class StreamingUsageParser {
    const codec: Codec
    const protocol: Protocol
    var state: Parser

    constructor (codec: Codec, protocol: Protocol)
      ensures this.codec == codec && this.protocol == protocol && state == Parser([], None, map[])
    {
      this.codec, this.protocol, this.state := codec, protocol, Parser([], None, map[]);
    }

    method Feed(chunk: seq<byte>)
      modifies this
      ensures state == Fed(codec, protocol, old(state), chunk)
    {
      var buffer := state.buffer + chunk;
      ghost var whole := Split(buffer);
      ghost var done: seq<seq<byte>> := [];
      while true
        invariant whole.0 == done + Split(buffer).0 && whole.1 == Split(buffer).1
        invariant state == ConsumeAll(codec, protocol, old(state), done)
        decreases |buffer|
      {
        var start := Search(buffer, 0);
        if start.None? {
          assert done + [] == done;
          break;
        }
        var event := buffer[..start.value];
        buffer := buffer[BoundaryEnd(buffer, start.value).value..];
        assert done + ([event] + Split(buffer).0) == done + [event] + Split(buffer).0;
        ConsumeAllAppend(codec, protocol, old(state), done, [event]);
        assert [event][1..] == [];
        state := Consume(codec, protocol, state, event);
        done := done + [event];
      }
      state := state.(buffer := buffer);
    }

    method Finish() returns (usage: Option<Usage>)
      modifies this
      ensures state == Finished(codec, protocol, old(state)) && usage == state.latest
    {
      if state.buffer != [] {
        var event := state.buffer;
        state := state.(buffer := []);
        state := Consume(codec, protocol, state, event);
      }
      return state.latest;
    }
  }

  // ----- forwarding

  function FindPair(b: seq<byte>, i: nat): (r: Option<nat>)
    requires i <= |b|
    ensures r.Some? ==> i <= r.value && r.value + 2 <= |b| && b[r.value] == LF && b[r.value + 1] == LF
    ensures forall k :: i <= k && k + 2 <= |b| && (r.Some? ==> k < r.value) ==> !(b[k] == LF && b[k + 1] == LF)
    decreases |b| - i
  {
    if i + 2 > |b| then None else if b[i] == LF && b[i + 1] == LF then Some(i) else FindPair(b, i + 1)
  }

  predicate QuadAt(b: seq<byte>, i: nat) {
    i + 4 <= |b| && b[i] == CR && b[i + 1] == LF && b[i + 2] == CR && b[i + 3] == LF
  }

  function FindQuad(b: seq<byte>, i: nat): (r: Option<nat>)
    requires i <= |b|
    ensures r.Some? ==> i <= r.value && QuadAt(b, r.value)
    ensures forall k :: i <= k && (r.Some? ==> k < r.value) ==> !QuadAt(b, k)
    decreases |b| - i
  {
    if i + 4 > |b| then None else if QuadAt(b, i) then Some(i) else FindQuad(b, i + 1)
  }

  /** Where the first complete event ends, terminator included. */
  function EventEnd(b: seq<byte>): (r: Option<nat>)
    ensures r.Some? ==> 2 <= r.value <= |b|
  {
    var lf, crlf := FindPair(b, 0), FindQuad(b, 0);
    if lf.None? && crlf.None? then None
    else if lf.None? || (crlf.Some? && crlf.value < lf.value) then Some(crlf.value + 4)
    else Some(lf.value + 2)
  }

  /** A terminator, LF LF or CR LF CR LF, stands at `i` and ends at `e`. */
  predicate Terminates(b: seq<byte>, i: nat, e: nat) {
    i <= e <= |b| && (b[i..e] == [LF, LF] || b[i..e] == [CR, LF, CR, LF])
  }

  lemma TerminatesAt(b: seq<byte>, i: nat, e: nat)
    ensures Terminates(b, i, e) <==>
      || (e == i + 2 && e <= |b| && b[i] == LF && b[i + 1] == LF)
      || (e == i + 4 && QuadAt(b, i))
  {
    if i <= e <= |b| {
      assert forall k :: 0 <= k < e - i ==> b[i..e][k] == b[i + k];
    }
  }

  /** The first event ends with the leftmost terminator, and is complete if there is one. */
  lemma EventEndIs(b: seq<byte>)
    ensures EventEnd(b).None? <==> forall i: nat, e: nat :: !Terminates(b, i, e)
    ensures EventEnd(b).Some? ==>
      exists i: nat :: Terminates(b, i, EventEnd(b).value) && forall j: nat, e: nat :: Terminates(b, j, e) ==> i <= j
  {
    var lf, crlf := FindPair(b, 0), FindQuad(b, 0);
    forall j: nat, e: nat | Terminates(b, j, e)
      ensures (lf.Some? && lf.value <= j) || (crlf.Some? && crlf.value <= j)
    {
      TerminatesAt(b, j, e);
    }
    if EventEnd(b).Some? {
      var i := if lf.None? || (crlf.Some? && crlf.value < lf.value) then crlf.value else lf.value;
      TerminatesAt(b, i, EventEnd(b).value);
    }
  }

  lemma EventEndIsStable(a: seq<byte>, b: seq<byte>)
    requires EventEnd(a).Some?
    ensures EventEnd(a + b) == EventEnd(a)
  {
    var lf, crlf := FindPair(a, 0), FindQuad(a, 0);
    var lf', crlf' := FindPair(a + b, 0), FindQuad(a + b, 0);
    if lf.Some? {
      assert (a + b)[lf.value] == LF && (a + b)[lf.value + 1] == LF;
      assert lf' == lf;
    }
    if crlf.Some? {
      assert QuadAt(a + b, crlf.value);
      assert forall k: nat :: k < crlf.value ==> (QuadAt(a + b, k) ==> QuadAt(a, k));
      assert crlf' == crlf;
      assert lf.None? && lf'.Some? ==> lf'.value > crlf.value;
    } else if crlf'.Some? {
      // A terminator that straddles the end cannot start before the one found.
      assert !QuadAt(a, crlf'.value);
      assert crlf'.value > lf.value;
    }
  }

  /** Complete events with their terminators, and the unfinished tail. */
  function Cut(b: seq<byte>): (seq<seq<byte>>, seq<byte>)
    decreases |b|
  {
    var end := EventEnd(b);
    if end.None? then ([], b)
    else
      var (events, tail) := Cut(b[end.value..]);
      ([b[..end.value]] + events, tail)
  }

  lemma {:induction false} CutResumes(a: seq<byte>, b: seq<byte>)
    ensures var (events, rest) := Cut(a); var (more, tail) := Cut(rest + b);
      Cut(a + b).0 == events + more && Cut(a + b).1 == tail
    decreases |a|
  {
    var end := EventEnd(a);
    if end.None? {
      assert Cut(a).0 + Cut(a + b).0 == Cut(a + b).0;
    } else {
      EventEndIsStable(a, b);
      assert (a + b)[end.value..] == a[end.value..] + b;
      assert (a + b)[..end.value] == a[..end.value];
      CutResumes(a[end.value..], b);
      Regroup([a[..end.value]], Cut(a[end.value..]).0, Cut(Cut(a[end.value..]).1 + b).0);
    }
  }

  /** Cutting loses nothing: events and tail are the bytes that came in. */
  lemma {:induction false} CutConserves(b: seq<byte>)
    ensures Concat(Cut(b).0) + Cut(b).1 == b
    decreases |b|
  {
    var end := EventEnd(b);
    if end.Some? {
      CutConserves(b[end.value..]);
      assert b == b[..end.value] + b[end.value..];
    }
  }

  /** An event that carries usage and an empty list of choices. */
  predicate UsageOnly(codec: Codec, event: seq<byte>) {
    var payload := codec.forwarded(event);
    && payload.Some? && FieldObject(payload.value, "usage").Some?
    && "choices" in payload.value && payload.value["choices"] == Array([])
  }

  function Kept(codec: Codec, visible: bool, events: seq<seq<byte>>): seq<seq<byte>> {
    if events == [] then []
    else (if !visible && UsageOnly(codec, events[0]) then [] else [events[0]]) + Kept(codec, visible, events[1..])
  }

  lemma {:induction false} KeptAppend(codec: Codec, visible: bool, a: seq<seq<byte>>, b: seq<seq<byte>>)
    ensures Kept(codec, visible, a + b) == Kept(codec, visible, a) + Kept(codec, visible, b)
  {
    if a == [] {
      assert a + b == b;
    } else {
      assert (a + b)[1..] == a[1..] + b;
      KeptAppend(codec, visible, a[1..], b);
    }
  }

  lemma KeptOne(codec: Codec, visible: bool, events: seq<seq<byte>>, e: seq<byte>)
    ensures Kept(codec, visible, events + [e])
         == if visible || !UsageOnly(codec, e) then Kept(codec, visible, events) + [e] else Kept(codec, visible, events)
  {
    KeptAppend(codec, visible, events, [e]);
    assert Kept(codec, visible, [e]) == (if !visible && UsageOnly(codec, e) then [] else [e]) +
      Kept(codec, visible, []);
  }

  lemma {:induction false} KeptAll(codec: Codec, events: seq<seq<byte>>)
    ensures Kept(codec, true, events) == events
  {
    if events != [] { KeptAll(codec, events[1..]); }
  }

  /** Hiding drops exactly the events whose payload has a usage object and an empty list
      of choices. */
  lemma {:induction false} HidesExactly(codec: Codec, events: seq<seq<byte>>, e: seq<byte>)
    ensures e in Kept(codec, false, events) <==>
      && e in events
      && !(codec.forwarded(e).Some? && var p := codec.forwarded(e).value;
           "usage" in p && p["usage"].Object? && "choices" in p && p["choices"] == Array([]))
  {
    if events != [] { HidesExactly(codec, events[1..], e); }
  }

  /** Every event is hidden or shown in its place, whatever comes before and after. */
  lemma HidesInPlace(codec: Codec, events: seq<seq<byte>>, i: nat)
    requires i < |events|
    ensures Kept(codec, false, events)
         == Kept(codec, false, events[..i]) + (if UsageOnly(codec, events[i]) then [] else [events[i]])
            + Kept(codec, false, events[i + 1..])
  {
    var before, rest := events[..i], events[i..];
    assert events == before + rest;
    KeptAppend(codec, false, before, rest);
    assert rest[1..] == events[i + 1..];
    Regroup(Kept(codec, false, before), if UsageOnly(codec, events[i]) then [] else [events[i]],
      Kept(codec, false, rest[1..]));
  }

  /** What the client of a tracked stream receives for the upstream bytes `b`. */
  function Delivered(codec: Codec, visible: bool, b: seq<byte>): seq<byte> {
    Concat(Kept(codec, visible, Cut(b).0)) + Cut(b).1
  }

  /** A client that may see usage events receives exactly the upstream bytes. */
  lemma NothingIsLost(codec: Codec, b: seq<byte>)
    ensures Delivered(codec, true, b) == b
  {
    KeptAll(codec, Cut(b).0);
    CutConserves(b);
  }

  /** The forwarding loop over the chunks of one upstream response. */
  method WrapStream(codec: Codec, chunks: seq<seq<byte>>, tracked: bool, asked: bool, forced: bool)
    returns (out: seq<seq<byte>>)
    ensures !tracked ==> out == chunks
    ensures tracked ==> Concat(out) == Delivered(codec, asked || !forced, Concat(chunks))
    ensures asked || !forced || !tracked ==> Concat(out) == Concat(chunks)
  {
    if !tracked { return chunks; }
    out := [];
    var buffer: seq<byte> := [];
    var visible := asked || !forced;
    ghost var events: seq<seq<byte>> := [];
    for i := 0 to |chunks|
      invariant Cut(Concat(chunks[..i])).0 == events && Cut(Concat(chunks[..i])).1 == buffer
      invariant out == Kept(codec, visible, events)
    {
      ConcatOneMore(chunks, i);
      CutResumes(Concat(chunks[..i]), chunks[i]);
      var done;
      ghost var more;
      done, buffer, more := ForwardEvents(codec, visible, buffer + chunks[i]);
      KeptAppend(codec, visible, events, more);
      events, out := events + more, out + done;
    }
    assert chunks[..|chunks|] == chunks;
    NothingIsLost(codec, Concat(chunks));
    ConcatTail(out, buffer);
    if buffer != [] { out := out + [buffer]; }
  }

  lemma ConcatOneMore(chunks: seq<seq<byte>>, i: nat)
    requires i < |chunks|
    ensures Concat(chunks[..i + 1]) == Concat(chunks[..i]) + chunks[i]
  {
    assert chunks[..i + 1] == chunks[..i] + [chunks[i]];
    ConcatAppend(chunks[..i], [chunks[i]]);
    assert Concat([chunks[i]]) == chunks[i] + Concat([]);
  }

  lemma ConcatTail(out: seq<seq<byte>>, tail: seq<byte>)
    ensures Concat(out + [tail]) == Concat(out) + tail
    ensures tail == [] ==> Concat(out) == Concat(out) + tail
  {
    ConcatAppend(out, [tail]);
    assert Concat([tail]) == tail + Concat([]);
  }

  /** The inner loop: forwards every complete event of the buffer. */
  method ForwardEvents(codec: Codec, visible: bool, input: seq<byte>)
    returns (out: seq<seq<byte>>, buffer: seq<byte>, ghost events: seq<seq<byte>>)
    ensures Cut(input) == (events, buffer) && EventEnd(buffer).None?
    ensures out == Kept(codec, visible, events)
  {
    out, buffer, events := [], input, [];
    while true
      invariant Cut(input).0 == events + Cut(buffer).0 && Cut(input).1 == Cut(buffer).1
      invariant out == Kept(codec, visible, events)
      decreases |buffer|
    {
      var end := EventEnd(buffer);
      if end.None? {
        assert events + [] == events;
        break;
      }
      var event := buffer[..end.value];
      buffer := buffer[end.value..];
      Regroup(events, [event], Cut(buffer).0);
      KeptOne(codec, visible, events, event);
      if visible || !UsageOnly(codec, event) { out := out + [event]; }
      events := events + [event];
    }
  }
}
