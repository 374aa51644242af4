/**
 * The standalone WhatsApp dashboard (src/components/Dashboard.jsx): every
 * conversation's messages in one list, and the integer aggregates shown on
 * its cards (message counts by direction, token totals). The cost sums are
 * decimal and are not part of this model.
 */
module ChatDashboard {
  import opened Js

  /** A message of the conversations endpoint; a token count is `None` when absent. */
  datatype ChatMessage = ChatMessage(direction: Option<string>, text: string, inputTokens: Option<int>, outputTokens: Option<int>)

  /** `Object.values(conversations).flat()`: the per-number lists one after another. */
  function Flatten(convs: seq<seq<ChatMessage>>): (all: seq<ChatMessage>)
    ensures forall m :: m in all <==> exists c :: c in convs && m in c
  {
    if convs == [] then []
    else
      var rest := Flatten(convs[1..]);
      assert forall c :: c in convs <==> c == convs[0] || c in convs[1..];
      convs[0] + rest
  }

  /** The number of messages in all the lists. */
  function TotalLength(convs: seq<seq<ChatMessage>>): nat
  {
    if convs == [] then 0 else |convs[0]| + TotalLength(convs[1..])
  }

  /** Flattening loses and adds no message. */
  lemma {:induction false} FlattenLength(convs: seq<seq<ChatMessage>>)
    ensures |Flatten(convs)| == TotalLength(convs)
  {
    if convs != [] {
      FlattenLength(convs[1..]);
    }
  }

  /** One step of the flattening: the first list, then the flattening of the rest. */
  lemma FlattenUnfold(convs: seq<seq<ChatMessage>>)
    requires convs != []
    ensures Flatten(convs) == convs[0] + Flatten(convs[1..])
  {
  }

  /** Flattening one list gives that list, message for message. */
  lemma FlattenSingle(c: seq<ChatMessage>)
    ensures Flatten([c]) == c
  {
    FlattenUnfold([c]);
    assert [c][1..] == [];
  }

  /** Flattening keeps the lists in order and every message with its multiplicity. */
  lemma {:induction false} FlattenAppend(a: seq<seq<ChatMessage>>, b: seq<seq<ChatMessage>>)
    ensures Flatten(a + b) == Flatten(a) + Flatten(b)
  {
    if a == [] {
      assert a + b == b;
    } else {
      calc {
        Flatten(a + b);
      == { FlattenUnfold(a + b); ConsAppend(a, b); }
        a[0] + Flatten(a[1..] + b);
      == { FlattenAppend(a[1..], b); }
        a[0] + (Flatten(a[1..]) + Flatten(b));
      == { AppendAssoc(a[0], Flatten(a[1..]), Flatten(b)); }
        (a[0] + Flatten(a[1..])) + Flatten(b);
      == { FlattenUnfold(a); }
        Flatten(a) + Flatten(b);
      }
    }
  }

  /** `messages.filter(m => m.direction === d).length`. */
  function CountDirection(ms: seq<ChatMessage>, d: string): (n: nat)
    ensures n <= |ms|
  {
    if ms == [] then 0 else (if ms[0].direction == Some(d) then 1 else 0) + CountDirection(ms[1..], d)
  }

  /** `m.input_tokens || 0` and `m.output_tokens || 0`. */
  function TokenOr0(t: Option<int>): int
  {
    if t.Some? then t.value else 0
  }

  /** `messages.reduce((sum, m) => sum + (m.input_tokens || 0), 0)`. */
  function InputTokens(ms: seq<ChatMessage>): int
  {
    if ms == [] then 0 else InputTokens(ms[..|ms| - 1]) + TokenOr0(ms[|ms| - 1].inputTokens)
  }

  /** The same reduction over `output_tokens`. */
  function OutputTokens(ms: seq<ChatMessage>): int
  {
    if ms == [] then 0 else OutputTokens(ms[..|ms| - 1]) + TokenOr0(ms[|ms| - 1].outputTokens)
  }

  /** A message's own tokens. */
  function MessageTokens(m: ChatMessage): int
  {
    TokenOr0(m.inputTokens) + TokenOr0(m.outputTokens)
  }

  /** The tokens of the messages one by one. */
  function SumMessageTokens(ms: seq<ChatMessage>): int
  {
    if ms == [] then 0 else SumMessageTokens(ms[..|ms| - 1]) + MessageTokens(ms[|ms| - 1])
  }

  /** Incoming and outgoing messages together are at most all messages (other directions count as neither). */
  lemma {:induction false} DirectionsWithinTotal(ms: seq<ChatMessage>)
    ensures CountDirection(ms, "in") + CountDirection(ms, "out") <= |ms|
  {
    if ms != [] {
      DirectionsWithinTotal(ms[1..]);
    }
  }

  /** The Total Tokens card, input plus output, is the sum of every message's own tokens. */
  lemma {:induction false} TotalTokensPerMessage(ms: seq<ChatMessage>)
    ensures InputTokens(ms) + OutputTokens(ms) == SumMessageTokens(ms)
  {
    if ms != [] {
      TotalTokensPerMessage(ms[..|ms| - 1]);
    }
  }

  /** A message with no token counts adds nothing to either total. */
  lemma MissingTokensAddNothing(ms: seq<ChatMessage>, m: ChatMessage)
    requires m.inputTokens.None? && m.outputTokens.None?
    ensures InputTokens(ms + [m]) == InputTokens(ms) && OutputTokens(ms + [m]) == OutputTokens(ms)
  {
    assert (ms + [m])[..|ms + [m]| - 1] == ms;
  }

  /** The integer figures of the cards. */
  datatype Stats = Stats(totalMessages: nat, incoming: nat, outgoing: nat, inputTokens: int, outputTokens: int, totalTokens: int)

  /**
   * The cards over the flattened list: the message count, the two
   * direction counts, the two token sums, and the Total Tokens card as
   * their sum and as the tokens of the messages one by one.
   */
  function StatsOf(convs: seq<seq<ChatMessage>>): (s: Stats)
    ensures s.totalMessages == TotalLength(convs)
    ensures s.incoming == CountDirection(Flatten(convs), "in")
    ensures s.outgoing == CountDirection(Flatten(convs), "out")
    ensures s.inputTokens == InputTokens(Flatten(convs))
    ensures s.outputTokens == OutputTokens(Flatten(convs))
    ensures s.totalTokens == s.inputTokens + s.outputTokens
    ensures s.incoming + s.outgoing <= s.totalMessages
    ensures s.totalTokens == SumMessageTokens(Flatten(convs))
  {
    var ms := Flatten(convs);
    FlattenLength(convs);
    DirectionsWithinTotal(ms);
    TotalTokensPerMessage(ms);
    var input, output := InputTokens(ms), OutputTokens(ms);
    Stats(|ms|, CountDirection(ms, "in"), CountDirection(ms, "out"), input, output, input + output)
  }

  /** One step of the direction count. */
  lemma CountDirectionUnfold(ms: seq<ChatMessage>, d: string)
    requires ms != []
    ensures CountDirection(ms, d) == (if ms[0].direction == Some(d) then 1 else 0) + CountDirection(ms[1..], d)
  {
  }

  /** Counting a direction over two lists one after another adds the two counts. */
  lemma {:induction false} CountDirectionAppend(a: seq<ChatMessage>, b: seq<ChatMessage>, d: string)
    ensures CountDirection(a + b, d) == CountDirection(a, d) + CountDirection(b, d)
  {
    if a == [] {
      assert a + b == b;
    } else {
      CountDirectionUnfold(a + b, d);
      ConsAppend(a, b);
      CountDirectionAppend(a[1..], b, d);
      CountDirectionUnfold(a, d);
    }
  }

  /** The two token sums over two lists one after another add up. */
  lemma {:induction false} TokensAppend(a: seq<ChatMessage>, b: seq<ChatMessage>)
    ensures InputTokens(a + b) == InputTokens(a) + InputTokens(b)
    ensures OutputTokens(a + b) == OutputTokens(a) + OutputTokens(b)
  {
    if b == [] {
      assert a + b == a;
    } else {
      var init := b[..|b| - 1];
      assert (a + b)[..|a + b| - 1] == a + init;
      assert (a + b)[|a + b| - 1] == b[|b| - 1];
      TokensAppend(a, init);
    }
  }

  /**
   * The cards of two groups of conversations together: every count and
   * every token figure is the sum of the two groups' figures.
   */
  lemma StatsAppend(a: seq<seq<ChatMessage>>, b: seq<seq<ChatMessage>>)
    ensures StatsOf(a + b).totalMessages == StatsOf(a).totalMessages + StatsOf(b).totalMessages
    ensures StatsOf(a + b).incoming == StatsOf(a).incoming + StatsOf(b).incoming
    ensures StatsOf(a + b).outgoing == StatsOf(a).outgoing + StatsOf(b).outgoing
    ensures StatsOf(a + b).inputTokens == StatsOf(a).inputTokens + StatsOf(b).inputTokens
    ensures StatsOf(a + b).outputTokens == StatsOf(a).outputTokens + StatsOf(b).outputTokens
    ensures StatsOf(a + b).totalTokens == StatsOf(a).totalTokens + StatsOf(b).totalTokens
  {
    FlattenAppend(a, b);
    var fa, fb := Flatten(a), Flatten(b);
    FlattenLength(a);
    FlattenLength(b);
    FlattenLength(a + b);
    CountDirectionAppend(fa, fb, "in");
    CountDirectionAppend(fa, fb, "out");
    TokensAppend(fa, fb);
  }
}
