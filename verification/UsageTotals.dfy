/**
 What the usage parser's totals are, said of the fields of the events: which counter
 becomes the prompt, which the completion, and which the total.
 */
module UsageTotals {
  import opened Options
  import opened UsageStream

  // ----- one field

  /** The field holds the count `n`, as a number or as a decimal literal. */
  ghost predicate Counts(codec: Codec, usage: map<string, Json>, key: string, n: nat) {
    key in usage &&
    (usage[key] == Number(n as real) || (usage[key].Text? && codec.integer(usage[key].text) == Some(n)))
  }

  /** The field is worth `n`: its count, or nothing if it holds none. */
  ghost predicate Worth(codec: Codec, usage: map<string, Json>, key: string, n: nat) {
    Counts(codec, usage, key, n) || (n == 0 && forall m: nat :: !Counts(codec, usage, key, m))
  }

  lemma CountIs(codec: Codec, usage: map<string, Json>, key: string, n: nat)
    ensures TokenCount(codec, usage, key) == Some(n) <==> Counts(codec, usage, key, n)
  {
  }

  lemma WorthIs(codec: Codec, usage: map<string, Json>, key: string, n: nat)
    ensures Tokens(codec, usage, key) == n <==> Worth(codec, usage, key, n)
  {
    CountIs(codec, usage, key, n);
    if TokenCount(codec, usage, key).Some? {
      CountIs(codec, usage, key, TokenCount(codec, usage, key).value);
    } else {
      forall m: nat ensures !Counts(codec, usage, key, m) { CountIs(codec, usage, key, m); }
    }
  }

  // ----- one block

  /** The total is the reported one if it is a count, and else the sum. */
  ghost predicate Totalled(codec: Codec, usage: map<string, Json>, u: Usage) {
    && (forall n: nat :: Counts(codec, usage, "total_tokens", n) ==> u.total == n)
    && ((forall n: nat :: !Counts(codec, usage, "total_tokens", n)) ==> u.total == u.prompt + u.completion)
  }

  lemma TotalIs(codec: Codec, protocol: Protocol, usage: map<string, Json>, u: Usage)
    requires Normalize(codec, protocol, usage) == Some(u)
    ensures Totalled(codec, usage, u) && u.raw == usage
  {
    var t := TokenCount(codec, usage, "total_tokens");
    forall n: nat ensures Counts(codec, usage, "total_tokens", n) <==> t == Some(n) {
      CountIs(codec, usage, "total_tokens", n);
    }
  }

  /** The two OpenAI protocols: the prompt is `prompt_tokens`, or `input_tokens` where that
      is absent, and the completion likewise. */
  lemma OpenAITotals(codec: Codec, protocol: Protocol, usage: map<string, Json>, u: Usage)
    requires !protocol.AnthropicMessages? && Normalize(codec, protocol, usage) == Some(u)
    ensures Worth(codec, usage, if "prompt_tokens" in usage then "prompt_tokens" else "input_tokens", u.prompt)
    ensures Worth(codec, usage, if "completion_tokens" in usage then "completion_tokens" else "output_tokens",
                  u.completion)
    ensures Totalled(codec, usage, u)
  {
    WorthIs(codec, usage, if "prompt_tokens" in usage then "prompt_tokens" else "input_tokens", u.prompt);
    WorthIs(codec, usage, if "completion_tokens" in usage then "completion_tokens" else "output_tokens", u.completion);
    TotalIs(codec, protocol, usage, u);
  }

  /** The Messages protocol: the prompt is all input, cached or not. */
  lemma MessagesTotals(codec: Codec, usage: map<string, Json>, u: Usage, input: nat, created: nat, read: nat,
      output: nat)
    requires Normalize(codec, AnthropicMessages, usage) == Some(u)
    requires Worth(codec, usage, "input_tokens", input) && Worth(codec, usage, "output_tokens", output)
    requires Worth(codec, usage, "cache_creation_input_tokens", created)
    requires Worth(codec, usage, "cache_read_input_tokens", read)
    ensures u.prompt == input + created + read && u.completion == output && Totalled(codec, usage, u)
  {
    WorthIs(codec, usage, "input_tokens", input);
    WorthIs(codec, usage, "cache_creation_input_tokens", created);
    WorthIs(codec, usage, "cache_read_input_tokens", read);
    WorthIs(codec, usage, "output_tokens", output);
    TotalIs(codec, AnthropicMessages, usage, u);
  }

  /** Where an event's usage is looked for: on top, then in its envelopes in this order,
      and last in the event itself. */
  lemma BlockIs(payload: map<string, Json>, inner: map<string, Json>, u: map<string, Json>)
    ensures "usage" in payload && payload["usage"] == Object(u) ==> UsageBlock(payload) == Some(u)
    ensures ("usage" in payload ==> !payload["usage"].Object?) && "usage" in inner && inner["usage"] == Object(u) ==>
      && ("response" in payload && payload["response"] == Object(inner) ==> UsageBlock(payload) == Some(u))
      && ("message" in payload && payload["message"] == Object(inner) && "response" !in payload ==>
            UsageBlock(payload) == Some(u))
      && ("delta" in payload && payload["delta"] == Object(inner) && "response" !in payload && "message" !in payload ==>
            UsageBlock(payload) == Some(u))
    ensures "usage" !in payload && "response" !in payload && "message" !in payload && "delta" !in payload ==>
      UsageBlock(payload) == if exists k :: k in payload && k in TOKEN_KEYS then Some(payload) else None
  {
    if k :| k in payload && k in TOKEN_KEYS {
      assert k in payload.Keys * TOKEN_KEYS;
    } else {
      assert payload.Keys * TOKEN_KEYS == {};
    }
  }

  // ----- one stream

  const FRESH := Parser([], None, map[])

  /** The events of a whole stream, an unterminated last one included. */
  function Events(b: seq<byte>): seq<seq<byte>> {
    Split(b).0 + if Split(b).1 == [] then [] else [Split(b).1]
  }

  lemma FinishedIs(codec: Codec, protocol: Protocol, chunks: seq<seq<byte>>)
    ensures Finished(codec, protocol, FedAll(codec, protocol, FRESH, chunks))
         == ConsumeAll(codec, protocol, FRESH, Events(Concat(chunks)))
  {
    var b := Concat(chunks);
    OnlyBytesMatter(codec, protocol, FRESH, chunks);
    assert FRESH.buffer + b == b;
    var (events, rest) := Split(b);
    var q := ConsumeAll(codec, protocol, FRESH, events);
    ConsumeIgnoresBuffer(codec, protocol, FRESH, [], events);
    assert q.(buffer := []) == q;
    if rest == [] {
      assert events + [] == events;
    } else {
      ConsumeAllAppend(codec, protocol, FRESH, events, [rest]);
      assert ConsumeAll(codec, protocol, q, [rest]) ==
        ConsumeAll(codec, protocol, Consume(codec, protocol, q, rest), []);
    }
  }

  /** The parser at work on one response. */
  method UsageOf(codec: Codec, protocol: Protocol, chunks: seq<seq<byte>>) returns (usage: Option<Usage>)
    ensures usage == ConsumeAll(codec, protocol, FRESH, Events(Concat(chunks))).latest
  {
    var parser := new StreamingUsageParser(codec, protocol);
    for i := 0 to |chunks|
      invariant parser.codec == codec && parser.protocol == protocol
      invariant FedAll(codec, protocol, parser.state, chunks[i..]) == FedAll(codec, protocol, FRESH, chunks)
    {
      assert chunks[i..][1..] == chunks[i + 1..];
      parser.Feed(chunks[i]);
    }
    FinishedIs(codec, protocol, chunks);
    usage := parser.Finish();
  }

  /** The event reports no counter. */
  ghost predicate Silent(codec: Codec, event: seq<byte>) {
    BlockOf(codec, event).Some? ==> forall k :: k in BlockOf(codec, event).value ==> k !in TOKEN_KEYS
  }

  lemma SilentReportsNot(codec: Codec, protocol: Protocol, event: seq<byte>)
    requires Silent(codec, event)
    ensures !Reports(codec, protocol, event)
  {
    if BlockOf(codec, event).Some? {
      assert BlockOf(codec, event).value.Keys * TOKEN_KEYS == {};
    }
  }

  /** After a stream of either OpenAI protocol whose last reporting event counts `p` prompt
      and `q` completion tokens, the parser returns just these. */
  lemma OpenAIStream(codec: Codec, protocol: Protocol, events: seq<seq<byte>>, i: nat, p: nat, q: nat)
    requires !protocol.AnthropicMessages? && i < |events| && BlockOf(codec, events[i]).Some?
    requires forall j :: i < j < |events| ==> Silent(codec, events[j])
    requires var block := BlockOf(codec, events[i]).value;
      && Counts(codec, block, if "prompt_tokens" in block then "prompt_tokens" else "input_tokens", p)
      && Counts(codec, block, if "completion_tokens" in block then "completion_tokens" else "output_tokens", q)
    ensures var latest := ConsumeAll(codec, protocol, FRESH, events).latest;
      && latest.Some? && latest.value.prompt == p && latest.value.completion == q
      && Totalled(codec, BlockOf(codec, events[i]).value, latest.value)
  {
    var block := BlockOf(codec, events[i]).value;
    var key := if "prompt_tokens" in block then "prompt_tokens" else "input_tokens";
    assert key in block.Keys * TOKEN_KEYS;
    forall j | i < j < |events| ensures !Reports(codec, protocol, events[j]) {
      SilentReportsNot(codec, protocol, events[j]);
    }
    LatestIsLast(codec, protocol, FRESH, events, i);
    BlockTotals(codec, protocol, block, p, q);
  }

  lemma BlockTotals(codec: Codec, protocol: Protocol, block: map<string, Json>, p: nat, q: nat)
    requires !protocol.AnthropicMessages? && Normalize(codec, protocol, block).Some?
    requires Counts(codec, block, if "prompt_tokens" in block then "prompt_tokens" else "input_tokens", p)
    requires Counts(codec, block, if "completion_tokens" in block then "completion_tokens" else "output_tokens", q)
    ensures var u := Normalize(codec, protocol, block).value;
      u.prompt == p && u.completion == q && Totalled(codec, block, u)
  {
    var u := Normalize(codec, protocol, block).value;
    WorthIs(codec, block, if "prompt_tokens" in block then "prompt_tokens" else "input_tokens", p);
    WorthIs(codec, block, if "completion_tokens" in block then "completion_tokens" else "output_tokens", q);
    TotalIs(codec, protocol, block, u);
  }

  /** What a counter was worth when it was reported last; nothing if it never was. */
  ghost predicate LastWorth(codec: Codec, events: seq<seq<byte>>, key: string, n: nat) {
    || (n == 0 && forall i :: 0 <= i < |events| ==> !Carries(codec, events[i], key))
    || (exists i: nat :: LastAt(codec, events, key, i) && Worth(codec, BlockOf(codec, events[i]).value, key, n))
  }

  ghost predicate LastAt(codec: Codec, events: seq<seq<byte>>, key: string, i: nat) {
    && i < |events| && Carries(codec, events[i], key)
    && forall j :: i < j < |events| ==> !Carries(codec, events[j], key)
  }

  lemma MergedWorth(codec: Codec, events: seq<seq<byte>>, key: string, n: nat)
    requires key in TOKEN_KEYS && LastWorth(codec, events, key, n)
    ensures Worth(codec, ConsumeAll(codec, AnthropicMessages, FRESH, events).merged, key, n)
  {
    var merged := ConsumeAll(codec, AnthropicMessages, FRESH, events).merged;
    if i: nat :| LastAt(codec, events, key, i) && Worth(codec, BlockOf(codec, events[i]).value, key, n) {
      MergedIsLast(codec, FRESH, events, key, i);
      SameField(codec, BlockOf(codec, events[i]).value, merged, key, n);
    } else {
      MergedUnlessCarried(codec, FRESH, events, key);
      assert key !in merged;
    }
  }

  lemma SameField(codec: Codec, a: map<string, Json>, b: map<string, Json>, key: string, n: nat)
    requires key in a && key in b && a[key] == b[key] && Worth(codec, a, key, n)
    ensures Worth(codec, b, key, n)
  {
    forall m: nat ensures Counts(codec, a, key, m) <==> Counts(codec, b, key, m) {
    }
  }

  /** After a Messages stream the prompt is the sum of the three input counters as last
      reported, and the completion is the output counter as last reported. */
  lemma MessagesStream(codec: Codec, events: seq<seq<byte>>, last: nat, input: nat, created: nat, read: nat,
      output: nat)
    requires LastAt(codec, events, "output_tokens", last)
    requires LastWorth(codec, events, "input_tokens", input) && LastWorth(codec, events, "output_tokens", output)
    requires LastWorth(codec, events, "cache_creation_input_tokens", created)
    requires LastWorth(codec, events, "cache_read_input_tokens", read)
    ensures var latest := ConsumeAll(codec, AnthropicMessages, FRESH, events).latest;
      latest.Some? && latest.value.prompt == input + created + read && latest.value.completion == output
  {
    var q := ConsumeAll(codec, AnthropicMessages, FRESH, events);
    MergedIsLast(codec, FRESH, events, "output_tokens", last);
    assert "output_tokens" in q.merged.Keys * TOKEN_KEYS;
    MergedDecides(codec, FRESH, events);
    MergedWorth(codec, events, "input_tokens", input);
    MergedWorth(codec, events, "cache_creation_input_tokens", created);
    MergedWorth(codec, events, "cache_read_input_tokens", read);
    MergedWorth(codec, events, "output_tokens", output);
    MessagesTotals(codec, q.merged, q.latest.value, input, created, read, output);
  }
}
