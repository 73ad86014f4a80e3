/** Broker topology: exchanges, bindings, retry queue names and their delays. */
module Topology {
  import opened Common
  import opened Decimal

  datatype ExchangeType = Direct | Topic | Fanout | ByHeaders

  datatype Exchange = Exchange(name: string, kind: ExchangeType, bindingKey: string)

  datatype Config = Config(queue: string, exchange: Option<Exchange>, maxRetries: nat)

  function DeadLetterQueue(cfg: Config): string { cfg.queue + ".dlq" }

  function RetryQueue(cfg: Config, level: nat): string { cfg.queue + ".retry." + Digits(level) }

  /** The dot-separated words of a routing or binding key. */
  function Words(s: string): (ws: seq<string>)
    ensures ws != []
  {
    if s == [] then [""]
    else Prepend(s[0], Words(s[1..]))
  }

  /** Topic matching, section 3.1.3.3 of AMQP 0-9-1: `*` is one word, `#` any number of words. */
  predicate TopicMatch(pattern: seq<string>, key: seq<string>)
    decreases |pattern| + |key|
  {
    if pattern == [] then key == []
    else if pattern[0] == "#" then
      TopicMatch(pattern[1..], key) || (key != [] && TopicMatch(pattern, key[1..]))
    else
      key != [] && (pattern[0] == "*" || pattern[0] == key[0]) && TopicMatch(pattern[1..], key[1..])
  }

  /** Whether a message sent with `key` through the configured path reaches the main queue. Without
      an exchange every path names the main queue directly. */
  predicate Routes(cfg: Config, key: string) {
    match cfg.exchange
    case None => true
    case Some(x) =>
      match x.kind
      case Direct => x.bindingKey == key
      case Topic => TopicMatch(Words(x.bindingKey), Words(key))
      case Fanout => true
      case ByHeaders => true
  }

  /** An expired retry copy carries its retry queue's name as routing key, because it was sent there
      through the default exchange. The configuration is sound when all those names route back. */
  ghost predicate RoutesBack(cfg: Config) {
    forall level :: 1 <= level <= cfg.maxRetries ==> Routes(cfg, RetryQueue(cfg, level))
  }

  function Pow5(n: nat): nat { if n == 0 then 1 else 5 * Pow5(n - 1) }

  /** Milliseconds a copy waits in retry queue `level`. */
  function RetryTtl(level: nat): nat { Pow5(level) * 1000 }

  function LadderTtl(levels: nat): nat {
    if levels == 0 then 0 else LadderTtl(levels - 1) + RetryTtl(levels)
  }

  lemma {:induction false} LadderDelay(n: nat)
    ensures LadderTtl(n) == 1250 * (Pow5(n) - 1)
  {
    if n > 0 { LadderDelay(n - 1); }
  }

  lemma RetryQueueInjective(cfg: Config, a: nat, b: nat)
    requires RetryQueue(cfg, a) == RetryQueue(cfg, b)
    ensures a == b
  {
    var prefix := cfg.queue + ".retry.";
    assert RetryQueue(cfg, a)[|prefix|..] == Digits(a);
    assert RetryQueue(cfg, b)[|prefix|..] == Digits(b);
    DigitsInjective(a, b);
  }

  /** No retry queue is the main queue or the dead-letter queue. */
  lemma RetryQueueFresh(cfg: Config, level: nat)
    ensures RetryQueue(cfg, level) != cfg.queue
    ensures RetryQueue(cfg, level) != DeadLetterQueue(cfg)
  {
  }

  /** A plain word is neither of the two wildcards. */
  predicate Plain(ws: seq<string>) { forall w :: w in ws ==> w != "#" && w != "*" }

  /** `#` skips any number of words, and nothing else is required of them. */
  lemma {:induction false} HashSkips(pattern: seq<string>, key: seq<string>)
    ensures TopicMatch(["#"] + pattern, key)
       <==> exists i :: 0 <= i <= |key| && TopicMatch(pattern, key[i..])
    decreases |key|
  {
    var p := ["#"] + pattern;
    assert p[1..] == pattern;
    assert key[0..] == key;
    if key != [] {
      HashSkips(pattern, key[1..]);
      assert forall i :: 0 <= i <= |key[1..]| ==> key[1..][i..] == key[i + 1..];
      if i :| 0 <= i <= |key| && TopicMatch(pattern, key[i..]) && i > 0 {
        assert key[1..][i - 1..] == key[i..];
      }
    }
  }

  /** A binding `w1.w2.#` accepts exactly the keys that begin with those words. */
  lemma {:induction false} PrefixBinding(ws: seq<string>, key: seq<string>)
    requires Plain(ws)
    ensures TopicMatch(ws + ["#"], key) <==> ws <= key
  {
    var p := ws + ["#"];
    if ws == [] {
      HashSkips([], key);
      assert p == ["#"] + [];
      assert TopicMatch([], key[|key|..]);
    } else {
      assert p[1..] == ws[1..] + ["#"];
      assert ws[0] in ws;
      assert forall w :: w in ws[1..] ==> w in ws;
      if key != [] {
        PrefixBinding(ws[1..], key[1..]);
        assert ws <= key <==> ws[0] == key[0] && ws[1..] <= key[1..];
      }
    }
  }

  /** One character in front of a key: a dot starts a new word, anything else joins the first. */
  function Prepend(c: char, ws: seq<string>): seq<string>
    requires ws != []
  {
    if c == '.' then [""] + ws else [[c] + ws[0]] + ws[1..]
  }

  lemma PrependAppend(c: char, ws: seq<string>, more: seq<string>)
    requires ws != []
    ensures Prepend(c, ws + more) == Prepend(c, ws) + more
  {
  }

  /** Words of a key that extends another after a dot. */
  lemma {:induction false} WordsAppend(a: string, b: string)
    ensures Words(a + "." + b) == Words(a) + Words(b)
  {
    var s := a + "." + b;
    if a == [] {
      assert s[0] == '.' && s[1..] == b;
    } else {
      WordsAppend(a[1..], b);
      assert s[0] == a[0] && s[1..] == a[1..] + "." + b;
      PrependAppend(a[0], Words(a[1..]), Words(b));
    }
  }

  lemma RetryQueueWords(cfg: Config, level: nat)
    ensures Words(RetryQueue(cfg, level)) == Words(cfg.queue) + Words("retry." + Digits(level))
  {
    WordsAppend(cfg.queue, "retry." + Digits(level));
    assert RetryQueue(cfg, level) == cfg.queue + "." + ("retry." + Digits(level));
  }

  /** With a topic binding `w1...wk.#`, retries come back exactly when the bound words begin every
      declared retry queue name. For `#` alone (the default) they always do. */
  lemma TopicRoutesBack(cfg: Config, ws: seq<string>)
    requires cfg.exchange.Some? && cfg.exchange.value.kind == Topic
    requires Plain(ws) && Words(cfg.exchange.value.bindingKey) == ws + ["#"]
    ensures RoutesBack(cfg)
       <==> forall level :: 1 <= level <= cfg.maxRetries ==> ws <= Words(RetryQueue(cfg, level))
    ensures ws <= Words(cfg.queue) ==> RoutesBack(cfg)
  {
    forall level ensures Routes(cfg, RetryQueue(cfg, level)) <==> ws <= Words(RetryQueue(cfg, level)) {
      PrefixBinding(ws, Words(RetryQueue(cfg, level)));
    }
    forall level | ws <= Words(cfg.queue) ensures ws <= Words(RetryQueue(cfg, level)) {
      RetryQueueWords(cfg, level);
    }
  }

  /** A topic binding that starts with a literal word other than the queue's own first word drops
      every expired retry copy, whatever follows it. */
  lemma ForeignBindingLosesRetries(cfg: Config, level: nat)
    requires cfg.exchange.Some? && cfg.exchange.value.kind == Topic
    requires var w := Words(cfg.exchange.value.bindingKey)[0];
             w != "#" && w != "*" && w != Words(cfg.queue)[0]
    ensures !Routes(cfg, RetryQueue(cfg, level))
  {
    RetryQueueWords(cfg, level);
  }
}
