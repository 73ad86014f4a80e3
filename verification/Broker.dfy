/** Declaring the queues, and where the broker sends what expires or is rejected in them. */
module Broker {
  import opened Common
  import opened Topology
  import Pipeline

  /** Dead letters go to an exchange, keeping their key unless the queue names another. */
  datatype DeadLetters = DeadLetters(exchange: string, key: Option<string>)

  datatype QueueArgs = QueueArgs(ttl: Option<nat>, deadLetters: Option<DeadLetters>)

  datatype Binding = Binding(queue: string, exchange: string, key: string)

  function RetryArgs(cfg: Config, level: nat): QueueArgs {
    QueueArgs(Some(RetryTtl(level)),
              Some(if cfg.exchange.Some? then DeadLetters(cfg.exchange.value.name, None)
                   else DeadLetters("", Some(cfg.queue))))
  }

  function MainArgs(cfg: Config): QueueArgs {
    QueueArgs(None, Some(DeadLetters("", Some(DeadLetterQueue(cfg)))))
  }

  /** The retry queues up to a level. */
  function Retries(cfg: Config, levels: nat): map<string, QueueArgs> {
    if levels == 0 then map[] else Retries(cfg, levels - 1)[RetryQueue(cfg, levels) := RetryArgs(cfg, levels)]
  }

  function Declared(cfg: Config): map<string, QueueArgs> {
    map[DeadLetterQueue(cfg) := QueueArgs(None, None)] + Retries(cfg, cfg.maxRetries) + map[cfg.queue := MainArgs(cfg)]
  }

  /** The queue a dead letter ends in when it can only be one of the declared ones. */
  predicate DeadLetterReaches(cfg: Config, args: QueueArgs, key: string, queue: string) {
    match args.deadLetters
    case None => false
    case Some(d) =>
      var k := if d.key.Some? then d.key.value else key;
      if d.exchange == "" then k == queue
      else cfg.exchange.Some? && d.exchange == cfg.exchange.value.name && queue == cfg.queue && Routes(cfg, k)
  }

  lemma {:induction false} RetriesAt(cfg: Config, levels: nat, level: nat)
    ensures RetryQueue(cfg, level) in Retries(cfg, levels) <==> 1 <= level <= levels
    ensures 1 <= level <= levels ==> Retries(cfg, levels)[RetryQueue(cfg, level)] == RetryArgs(cfg, level)
  {
    if levels > 0 {
      RetriesAt(cfg, levels - 1, level);
      if RetryQueue(cfg, level) == RetryQueue(cfg, levels) { RetryQueueInjective(cfg, level, levels); }
    }
  }

  lemma {:induction false} RetriesApart(cfg: Config, levels: nat)
    ensures cfg.queue !in Retries(cfg, levels) && DeadLetterQueue(cfg) !in Retries(cfg, levels)
  {
    if levels > 0 {
      RetriesApart(cfg, levels - 1);
      RetryQueueFresh(cfg, levels);
    }
  }

  lemma DeclaredAt(cfg: Config, level: nat)
    ensures cfg.queue in Declared(cfg) && Declared(cfg)[cfg.queue] == MainArgs(cfg)
    ensures DeadLetterQueue(cfg) in Declared(cfg) && Declared(cfg)[DeadLetterQueue(cfg)] == QueueArgs(None, None)
    ensures RetryQueue(cfg, level) in Declared(cfg) <==> 1 <= level <= cfg.maxRetries
    ensures 1 <= level <= cfg.maxRetries ==> Declared(cfg)[RetryQueue(cfg, level)] == RetryArgs(cfg, level)
    ensures DeadLetterQueue(cfg) != cfg.queue && RetryQueue(cfg, level) !in {cfg.queue, DeadLetterQueue(cfg)}
  {
    assert |DeadLetterQueue(cfg)| > |cfg.queue|;
    RetryQueueFresh(cfg, level);
    RetriesAt(cfg, cfg.maxRetries, level);
    RetriesApart(cfg, cfg.maxRetries);
  }

  /** After setup: every level a failing handler can send to has its queue, and no further one; a copy
      waits there for the level's delay and comes back to the main queue exactly when its name routes
      back; a rejected message goes to the dead-letter queue, which sends nothing on. The exchange, if
      any, has a name. */
  lemma TopologyIsSound(cfg: Config, level: nat)
    requires cfg.exchange.Some? ==> cfg.exchange.value.name != ""
    ensures RetryQueue(cfg, level) in Declared(cfg) <==> 1 <= level <= cfg.maxRetries
    ensures 1 <= level <= cfg.maxRetries ==>
              var args := Declared(cfg)[RetryQueue(cfg, level)];
              args.ttl == Some(RetryTtl(level)) &&
              (DeadLetterReaches(cfg, args, RetryQueue(cfg, level), cfg.queue) <==> Routes(cfg, RetryQueue(cfg, level)))
    ensures cfg.queue in Declared(cfg) && DeadLetterQueue(cfg) in Declared(cfg)
    ensures forall key :: DeadLetterReaches(cfg, Declared(cfg)[cfg.queue], key, DeadLetterQueue(cfg))
    ensures Declared(cfg)[DeadLetterQueue(cfg)].deadLetters.None?
  {
    DeclaredAt(cfg, level);
  }

  /** The pipeline machine moves copies as these queues do: what expires goes to the main queue exactly when
      the dead-letter route of its retry queue leads there, and a retry is only sent to a declared queue. */
  lemma MachineFollowsTopology(cfg: Config, s: Pipeline.State, level: nat, c: Pipeline.Copy)
    requires cfg.exchange.Some? ==> cfg.exchange.value.name != ""
    requires |s.retry| == cfg.maxRetries && level < cfg.maxRetries && s.retry[level] != []
    ensures var name := RetryQueue(cfg, level + 1);
            && name in Declared(cfg)
            && Pipeline.Do(cfg, s, Pipeline.RetryExpire(level)).main ==
                 s.main + if DeadLetterReaches(cfg, Declared(cfg)[name], name, cfg.queue) then [s.retry[level][0]] else []
    ensures Pipeline.Forward(cfg, s, c, Pipeline.Sent).retry != s.retry ==>
              var name := RetryQueue(cfg, c.retries + 1);
              name in Declared(cfg) && Declared(cfg)[name].ttl == Some(RetryTtl(c.retries + 1))
  {
    TopologyIsSound(cfg, level + 1);
    TopologyIsSound(cfg, c.retries + 1);
    hide Declared, RetryQueue, DeadLetterReaches, Routes;
  }

  /** The topology part of `rabbitmq.service.ts`. */
  class RabbitmqService {
    const cfg: Config
    var exchanges: map<string, ExchangeType>
    var queues: map<string, QueueArgs>
    var bindings: set<Binding>

    constructor (cfg: Config)
      ensures this.cfg == cfg && exchanges == map[] && queues == map[] && bindings == {}
    {
      this.cfg := cfg;
      exchanges, queues, bindings := map[], map[], {};
    }

    /** Declaring a queue that exists with other arguments closes the channel. */
    method AssertQueue(name: string, args: QueueArgs) returns (ok: bool)
      modifies `queues
      ensures ok <==> (name in old(queues) ==> old(queues)[name] == args)
      ensures queues == if ok then old(queues)[name := args] else old(queues)
    {
      if name in queues && queues[name] != args { return false; }
      queues := queues[name := args];
      return true;
    }

    /** The loop over the retry levels. */
    method AssertRetryQueues() returns (ok: bool)
      requires forall q :: q in queues && q in Declared(cfg) ==> queues[q] == Declared(cfg)[q]
      modifies `queues
      ensures ok && queues == old(queues) + Retries(cfg, cfg.maxRetries)
      ensures forall q :: q in queues && q in Declared(cfg) ==> queues[q] == Declared(cfg)[q]
    {
      hide Declared, Retries, RetryQueue, DeadLetterQueue;
      ok := true;
      assert Retries(cfg, 0) == map[] by { NoRetries(cfg); }
      for i := 0 to cfg.maxRetries
        invariant ok && queues == old(queues) + Retries(cfg, i)
        invariant forall q :: q in queues && q in Declared(cfg) ==> queues[q] == Declared(cfg)[q]
      {
        var level := i + 1;
        var args := QueueArgs(Some(RetryTtl(level)), None);
        if cfg.exchange.Some? {
          args := args.(deadLetters := Some(DeadLetters(cfg.exchange.value.name, None)));
        } else {
          args := args.(deadLetters := Some(DeadLetters("", Some(cfg.queue))));
        }
        DeclaredAt(cfg, level);
        assert Retries(cfg, level) == Retries(cfg, i)[RetryQueue(cfg, level) := args] by { NextRetry(cfg, i); }
        ok := AssertQueue(RetryQueue(cfg, level), args);
      }
    }

    /** Setting up on a broker that has none of these queues, or has them from an earlier setup with the
        same configuration, declares exactly the intended queues and keeps any others. */
    method SetupTopology() returns (ok: bool)
      requires forall q :: q in queues && q in Declared(cfg) ==> queues[q] == Declared(cfg)[q]
      requires cfg.exchange.Some? && cfg.exchange.value.name in exchanges ==>
                 exchanges[cfg.exchange.value.name] == cfg.exchange.value.kind
      modifies this
      ensures ok && queues == old(queues) + Declared(cfg)
      ensures cfg.exchange.Some? ==>
                var x := cfg.exchange.value;
                exchanges == old(exchanges)[x.name := x.kind] && bindings == old(bindings) + {Binding(cfg.queue, x.name, x.bindingKey)}
      ensures cfg.exchange.None? ==> exchanges == old(exchanges) && bindings == old(bindings)
    {
      if cfg.exchange.Some? {
        exchanges := exchanges[cfg.exchange.value.name := cfg.exchange.value.kind];
      }
      DeclaredAt(cfg, 0);
      hide Declared, Retries, RetryQueue, DeadLetterQueue;
      ok := AssertQueue(DeadLetterQueue(cfg), QueueArgs(None, None));
      ok := AssertRetryQueues();
      ok := AssertQueue(cfg.queue, MainArgs(cfg));
      assert queues == old(queues) + Declared(cfg) by { DeclaredParts(cfg, old(queues)); }
      if cfg.exchange.Some? {
        bindings := bindings + {Binding(cfg.queue, cfg.exchange.value.name, cfg.exchange.value.bindingKey)};
      }
    }
  }

  lemma NoRetries(cfg: Config)
    ensures Retries(cfg, 0) == map[]
  {
  }

  lemma NextRetry(cfg: Config, i: nat)
    ensures Retries(cfg, i + 1) == Retries(cfg, i)[RetryQueue(cfg, i + 1) := RetryArgs(cfg, i + 1)]
  {
  }

  lemma DeclaredParts(cfg: Config, queues: map<string, QueueArgs>)
    ensures (queues[DeadLetterQueue(cfg) := QueueArgs(None, None)] + Retries(cfg, cfg.maxRetries))[cfg.queue := MainArgs(cfg)] ==
            queues + Declared(cfg)
  {
  }
}
