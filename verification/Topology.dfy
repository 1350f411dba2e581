/** The broker objects the service declares, and why a rejected message cannot come back. */
module Topology {
  import opened Wrappers
  import opened Strings

  datatype BrokerConfig = BrokerConfig(
    exchangeName: string,
    exchangeKind: string,
    consumeQueue: string,
    deliveryRequested: string)

  /** Where a queue sends the messages that are rejected. */
  datatype DeadLetter = DeadLetter(exchange: string, routingKey: string)

  datatype Binding = Binding(queue: string, routingKey: string, exchange: string)

  class Channel {
    var exchanges: map<string, string>
    var queues: map<string, Option<DeadLetter>>
    var bindings: set<Binding>

    constructor ()
      ensures exchanges == map[] && queues == map[] && bindings == {}
    {
      exchanges, queues, bindings := map[], map[], {};
    }

    method ExchangeDeclare(name: string, kind: string) returns (ok: bool)
      modifies this
      ensures exchanges == if ok then old(exchanges)[name := kind] else old(exchanges)
      ensures queues == old(queues) && bindings == old(bindings)
    {
      ok := *;
      if ok { exchanges := exchanges[name := kind]; }
    }

    method QueueDeclare(name: string, deadLetter: Option<DeadLetter>) returns (ok: bool)
      modifies this
      ensures queues == if ok then old(queues)[name := deadLetter] else old(queues)
      ensures exchanges == old(exchanges) && bindings == old(bindings)
    {
      ok := *;
      if ok { queues := queues[name := deadLetter]; }
    }

    method QueueBind(queue: string, routingKey: string, exchange: string) returns (ok: bool)
      modifies this
      ensures bindings == if ok then old(bindings) + {Binding(queue, routingKey, exchange)} else old(bindings)
      ensures exchanges == old(exchanges) && queues == old(queues)
    {
      ok := *;
      if ok { bindings := bindings + {Binding(queue, routingKey, exchange)}; }
    }
  }

  function DlqName(cfg: BrokerConfig): string { cfg.consumeQueue + ".dlq" }

  function DeadKey(key: string): string { key + ".dead" }

  function RequestBinding(cfg: BrokerConfig): Binding {
    Binding(cfg.consumeQueue, cfg.deliveryRequested, cfg.exchangeName)
  }

  function DlqBinding(cfg: BrokerConfig): Binding {
    Binding(DlqName(cfg), DeadKey(cfg.deliveryRequested), cfg.exchangeName)
  }

  function RequestDeadLetter(cfg: BrokerConfig): DeadLetter {
    DeadLetter(cfg.exchangeName, DeadKey(cfg.deliveryRequested))
  }

  /** Setup declares the exchange, the dead-letter queue and its binding before the request queue and its
      binding, so that the request queue never exists without a place for what it rejects. */
  method Setup(cfg: BrokerConfig, ch: Channel) returns (ok: bool)
    modifies ch
    ensures ok ==>
              && ch.exchanges == old(ch.exchanges)[cfg.exchangeName := cfg.exchangeKind]
              && ch.queues == old(ch.queues)[DlqName(cfg) := None][cfg.consumeQueue := Some(RequestDeadLetter(cfg))]
              && ch.bindings == old(ch.bindings) + {DlqBinding(cfg), RequestBinding(cfg)}
    ensures ch.bindings <= old(ch.bindings) + {DlqBinding(cfg), RequestBinding(cfg)}
    ensures cfg.consumeQueue in ch.queues && cfg.consumeQueue !in old(ch.queues) ==>
              DlqName(cfg) in ch.queues && DlqBinding(cfg) in ch.bindings
  {
    var dlqName, dlqRoutingKey := cfg.consumeQueue + ".dlq", cfg.deliveryRequested + ".dead";
    ok := ch.ExchangeDeclare(cfg.exchangeName, cfg.exchangeKind);
    if !ok { return; }
    assert dlqName != cfg.consumeQueue by {
      assert |dlqName| == |cfg.consumeQueue| + 4;
    }
    ok := ch.QueueDeclare(dlqName, None);
    if !ok { return; }
    ok := ch.QueueBind(dlqName, dlqRoutingKey, cfg.exchangeName);
    if !ok { return; }
    ok := ch.QueueDeclare(cfg.consumeQueue, Some(DeadLetter(cfg.exchangeName, dlqRoutingKey)));
    if !ok { return; }
    ok := ch.QueueBind(cfg.consumeQueue, cfg.deliveryRequested, cfg.exchangeName);
  }

  // ----- Topic matching, section 3.1.3.3 of AMQP 0-9-1 ----------------------------------------

  function Words(key: string): seq<string> { Split(key, '.') }

  /** `*` stands for one word, `#` for any number of words. */
  predicate Matches(pattern: seq<string>, words: seq<string>)
    decreases |pattern| + |words|
  {
    if pattern == [] then words == []
    else if pattern[0] == "#" then
      Matches(pattern[1..], words) || (words != [] && Matches(pattern, words[1..]))
    else
      words != [] && (pattern[0] == "*" || pattern[0] == words[0]) && Matches(pattern[1..], words[1..])
  }

  const TOPIC := "topic"
  const DIRECT := "direct"
  const FANOUT := "fanout"
  const HEADERS := "headers"

  /** The exchange types of the standard, section 3.1.3 of AMQP 0-9-1. */
  predicate StandardKind(kind: string) {
    kind == TOPIC || kind == DIRECT || kind == FANOUT || kind == HEADERS
  }

  /** A message with routing key `key`, published to an exchange of a standard kind, reaches the queue of the
      binding.  The bindings have no arguments, so that a headers exchange asks for no header. */
  predicate Routes(kind: string, b: Binding, key: string)
    requires StandardKind(kind)
  {
    || kind == FANOUT
    || kind == HEADERS
    || (kind == DIRECT && key == b.routingKey)
    || (kind == TOPIC && Matches(Words(b.routingKey), Words(key)))
  }

  predicate WildcardFree(words: seq<string>) {
    "#" !in words && "*" !in words
  }

  /** Without `#`, matching is word by word. */
  lemma {:induction false} MatchesWordByWord(pattern: seq<string>, words: seq<string>)
    requires "#" !in pattern
    ensures Matches(pattern, words)
            <==> |pattern| == |words| && forall i :: 0 <= i < |pattern| ==> pattern[i] == "*" || pattern[i] == words[i]
  {
    if pattern != [] && words != [] {
      MatchesWordByWord(pattern[1..], words[1..]);
      assert forall i :: 0 < i < |pattern| ==> pattern[i] == pattern[1..][i - 1];
      assert forall i :: 0 < i < |words| ==> words[i] == words[1..][i - 1];
    }
  }

  /** A wildcard-free binding takes messages of its own key only. */
  lemma LiteralBinding(b: Binding, key: string)
    requires WildcardFree(Words(b.routingKey))
    ensures Routes(TOPIC, b, key) <==> key == b.routingKey
  {
    MatchesWordByWord(Words(b.routingKey), Words(key));
    if Routes(TOPIC, b, key) {
      assert Words(b.routingKey) == Words(key);
    }
    JoinSplit(key, '.');
    JoinSplit(b.routingKey, '.');
  }

  lemma DeadWords(key: string)
    ensures Words(DeadKey(key)) == Words(key) + ["dead"]
  {
    SplitAppendPart(key, "dead", '.');
    assert DeadKey(key) == key + ['.'] + "dead";
  }

  lemma {:induction false} MatchAfterPrefix(prefix: seq<string>, pattern: seq<string>, words: seq<string>)
    requires Matches(pattern, words)
    ensures Matches(prefix + pattern, prefix + words)
  {
    if prefix == [] {
      assert prefix + pattern == pattern && prefix + words == words;
    } else {
      MatchAfterPrefix(prefix[1..], pattern, words);
      assert (prefix + pattern)[1..] == prefix[1..] + pattern;
      assert (prefix + words)[1..] == prefix[1..] + words;
    }
  }

  /** `#` may swallow everything up to a tail that the rest of the pattern matches. */
  lemma {:induction false} HashSwallows(rest: seq<string>, words: seq<string>, n: nat)
    requires n <= |words| && Matches(rest, words[n..])
    ensures Matches(["#"] + rest, words)
  {
    assert (["#"] + rest)[1..] == rest;
    if n == 0 {
      assert words[0..] == words;
    } else {
      assert words[1..][n - 1..] == words[n..];
      HashSwallows(rest, words[1..], n - 1);
    }
  }

  /** Behind its last `#`, a pattern matches the last words. */
  lemma {:induction false} TailIsMatched(front: seq<string>, tail: seq<string>, words: seq<string>)
    requires "#" !in tail && Matches(front + ["#"] + tail, words)
    ensures |tail| <= |words| && Matches(tail, words[|words| - |tail|..])
    decreases |front| + |words|
  {
    var pattern := front + ["#"] + tail;
    if front == [] {
      assert pattern[1..] == tail;
      if Matches(tail, words) {
        MatchesWordByWord(tail, words);
        assert words[0..] == words;
      } else {
        TailIsMatched(front, tail, words[1..]);
        assert words[1..][|words| - 1 - |tail|..] == words[|words| - |tail|..];
      }
    } else {
      assert pattern[1..] == front[1..] + ["#"] + tail;
      if front[0] == "#" && Matches(pattern[1..], words) {
        TailIsMatched(front[1..], tail, words);
      } else {
        TailIsMatched(if front[0] == "#" then front else front[1..], tail, words[1..]);
        assert words[1..][|words| - 1 - |tail|..] == words[|words| - |tail|..];
      }
    }
  }

  /** The position behind the last `#`. */
  function BehindHash(words: seq<string>): (n: nat)
    ensures n <= |words| && (n > 0 ==> words[n - 1] == "#") && forall i :: n <= i < |words| ==> words[i] != "#"
  {
    if words == [] then 0
    else if words[|words| - 1] == "#" then |words|
    else BehindHash(words[..|words| - 1])
  }

  /** The words behind the last `#`. */
  function AfterHash(words: seq<string>): (tail: seq<string>)
    ensures "#" !in tail && |tail| <= |words| && words[|words| - |tail|..] == tail
    ensures |tail| < |words| ==> words[|words| - |tail| - 1] == "#"
    ensures |tail| == |words| ==> "#" !in words
  {
    words[BehindHash(words)..]
  }

  /** Each word behind the last `#` is `*` or equals its successor, the last one `dead`. */
  predicate TailShifts(tail: seq<string>) {
    forall i :: 0 <= i < |tail| ==>
      tail[i] == "*" || tail[i] == if i + 1 < |tail| then tail[i + 1] else "dead"
  }

  lemma TailMatchesShifted(tail: seq<string>)
    requires "#" !in tail
    ensures Matches(tail, (tail + ["dead"])[1..]) <==> TailShifts(tail)
  {
    var next := (tail + ["dead"])[1..];
    MatchesWordByWord(tail, next);
    forall i | 0 <= i < |tail| ensures next[i] == if i + 1 < |tail| then tail[i + 1] else "dead" {
    }
  }

  /** A pattern with `#` matches itself with one word more exactly when its tail shifts. */
  lemma LongerByOneWord(front: seq<string>, tail: seq<string>)
    requires "#" !in tail
    ensures Matches(front + ["#"] + tail, front + ["#"] + tail + ["dead"]) <==> TailShifts(tail)
  {
    var pattern, words := front + ["#"] + tail, front + ["#"] + tail + ["dead"];
    assert words[|words| - |tail|..] == (tail + ["dead"])[1..];
    TailMatchesShifted(tail);
    if Matches(pattern, words) {
      TailIsMatched(front, tail, words);
    }
    if TailShifts(tail) {
      SwallowOne(front, tail);
    }
  }

  lemma SwallowOne(front: seq<string>, tail: seq<string>)
    requires "#" !in tail && Matches(tail, (tail + ["dead"])[1..])
    ensures Matches(front + ["#"] + tail, front + ["#"] + tail + ["dead"])
  {
    var rest := ["#"] + tail + ["dead"];
    assert rest[2..] == (tail + ["dead"])[1..];
    HashSwallows(tail, rest, 2);
    MatchAfterPrefix(front, ["#"] + tail, rest);
    assert front + (["#"] + tail) == front + ["#"] + tail && front + rest == front + ["#"] + tail + ["dead"];
  }

  /** A rejected message comes back to the request queue. */
  predicate RejectionLoops(cfg: BrokerConfig)
    requires StandardKind(cfg.exchangeKind)
  {
    Routes(cfg.exchangeKind, RequestBinding(cfg), RequestDeadLetter(cfg).routingKey)
  }

  lemma TopicKeyLoopsExactly(key: string)
    ensures Matches(Words(key), Words(DeadKey(key))) <==> "#" in Words(key) && TailShifts(AfterHash(Words(key)))
  {
    var words := Words(key);
    DeadWords(key);
    if "#" !in words {
      MatchesWordByWord(words, words + ["dead"]);
    } else {
      var tail := AfterHash(words);
      var front := words[..|words| - |tail| - 1];
      assert words == front + ["#"] + tail;
      LongerByOneWord(front, tail);
    }
  }

  /** That happens exactly on a fanout or headers exchange, and on a topic exchange if the request key has a `#`
      and the words behind the last one shift: never on a direct exchange, nor for a topic key without `#`. */
  lemma RejectionLoopsExactly(cfg: BrokerConfig)
    requires StandardKind(cfg.exchangeKind)
    ensures RejectionLoops(cfg) <==>
            || cfg.exchangeKind == FANOUT
            || cfg.exchangeKind == HEADERS
            || (&& cfg.exchangeKind == TOPIC
                && "#" in Words(cfg.deliveryRequested) && TailShifts(AfterHash(Words(cfg.deliveryRequested))))
  {
    TopicKeyLoopsExactly(cfg.deliveryRequested);
    assert |RequestDeadLetter(cfg).routingKey| == |cfg.deliveryRequested| + 5;
  }

  /** A key for which that happens on a topic exchange. */
  lemma HashKeyLoops()
    ensures RejectionLoops(BrokerConfig("events", TOPIC, "requests", "message.#"))
  {
    SplitAppendPart("message", "#", '.');
    assert "message.#" == "message" + ['.'] + "#";
    var words := Words("message.#");
    assert words[|words| - 1] == "#";
    assert AfterHash(words) == [];
    RejectionLoopsExactly(BrokerConfig("events", TOPIC, "requests", "message.#"));
  }

  /** The default key on an exchange that is configured as fanout. */
  lemma FanoutLoops()
    ensures RejectionLoops(BrokerConfig("events", FANOUT, "requests", "message.delivery.requested"))
  {
    RejectionLoopsExactly(BrokerConfig("events", FANOUT, "requests", "message.delivery.requested"));
  }

  /** Rejected messages reach the dead-letter queue and not the request queue, and requests reach the request
      queue and not the dead-letter queue. */
  predicate Separates(cfg: BrokerConfig)
    requires StandardKind(cfg.exchangeKind)
  {
    var kind, dead := cfg.exchangeKind, RequestDeadLetter(cfg).routingKey;
    && Routes(kind, DlqBinding(cfg), dead)
    && !Routes(kind, RequestBinding(cfg), dead)
    && Routes(kind, RequestBinding(cfg), cfg.deliveryRequested)
    && !Routes(kind, DlqBinding(cfg), cfg.deliveryRequested)
  }

  /** With an ordinary request key the two queues are kept apart exactly on topic and direct exchanges. */
  lemma RejectedGoesToDlq(cfg: BrokerConfig)
    requires StandardKind(cfg.exchangeKind) && WildcardFree(Words(cfg.deliveryRequested))
    ensures Separates(cfg) <==> cfg.exchangeKind == TOPIC || cfg.exchangeKind == DIRECT
  {
    DeadWords(cfg.deliveryRequested);
    LiteralBinding(DlqBinding(cfg), RequestDeadLetter(cfg).routingKey);
    LiteralBinding(RequestBinding(cfg), RequestDeadLetter(cfg).routingKey);
    LiteralBinding(RequestBinding(cfg), cfg.deliveryRequested);
    LiteralBinding(DlqBinding(cfg), cfg.deliveryRequested);
    assert |DeadKey(cfg.deliveryRequested)| == |cfg.deliveryRequested| + 5;
  }
}
