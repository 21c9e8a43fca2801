/** Payload holding against blob collection: writers, a replica's message queue and a collection that reads every
    engine before it sweeps, in every interleaving; the payload of an entry written here is never swept. */
module Collection {
  import opened Ids
  import opened Options

  /** The tags an engine keeps from one collection read to the next, by payload. */
  class HeldPayloads {
    var collected: bool
    var tags: set<Hash>

    constructor ()
      ensures !collected && tags == {}
    {
      collected, tags := false, {};
    }

    method Hold(tag: Hash)
      modifies this
      ensures collected == old(collected) && tags == Holding(collected, old(tags), tag)
    {
      if collected { tags := tags + {tag}; }
    }

    method Wants(hash: Hash) returns (wanted: bool)
      ensures wanted <==> Holding(collected, tags, hash) != tags
    {
      wanted := Wanted(collected, tags, hash);
    }

    method Take() returns (taken: set<Hash>)
      modifies this
      ensures collected && tags == {} && taken == old(tags)
    {
      collected := true;
      taken := tags;
      tags := {};
    }

    method Restore(taken: set<Hash>)
      modifies this
      ensures collected == old(collected) && tags == old(tags) + taken
    {
      tags := tags + taken;
    }
  }

  /** Before the first collection read nothing is kept. */
  function Holding(collected: bool, tags: set<Hash>, tag: Hash): set<Hash> {
    if collected then tags + {tag} else tags
  }

  predicate Wanted(collected: bool, tags: set<Hash>, hash: Hash)
    ensures Wanted(collected, tags, hash) <==> Holding(collected, tags, hash) != tags
  {
    assert collected ==> hash in Holding(collected, tags, hash);
    collected && hash !in tags
  }

  // ---------------------------------------------------------------- the node

  /** What the store's actor works through in order: an insert stands in it whether or not its caller still waits. */
  datatype Message = Insert(hash: Hash) | Read

  /** A local write, holding its payload's tag until it hands it over, the insert sent or not. */
  datatype Writer = Imported(hash: Hash) | Sent(hash: Hash) | Gone

  /** A remote insert's notice, on its way to a tag. */
  datatype Notice = Landed(hash: Hash) | Wanting(hash: Hash) | Tagging(hash: Hash) | Handled

  datatype Engine = Engine(collected: bool, tags: set<Hash>, queue: seq<Message>, local: set<Hash>, remote: set<Hash>,
                           writers: seq<Writer>, notices: seq<Notice>)

  datatype Stage = Begin | Taken(tags: set<Hash>) | Asked(tags: set<Hash>)

  /** A run reads the engines hosted when it began, those before `upto`, one after another: those before `next` are
      read, their payloads in `live`. */
  datatype Collector = Idle | Running(next: nat, upto: nat, live: set<Hash>, stage: Stage)

  datatype Node = Node(engines: seq<Engine>, blobs: set<Hash>, run: Collector)

  datatype Step =
    | Import(e: nat, hash: Hash) | Send(e: nat, w: nat) | HandOver(e: nat, w: nat)
    | Process(e: nat)
    | Remote(e: nat, hash: Hash) | Fetch(hash: Hash)
    | Wants(e: nat, k: nat) | Tag(e: nat, k: nat) | HoldTag(e: nat, k: nat)
    | Overwrite(e: nat, hash: Hash)
    | Host
    | Start | Take | Ask | Answer(ok: bool) | Sweep

  predicate OfEngine(step: Step) {
    !(step.Fetch? || step.Host? || step.Start? || step.Take? || step.Ask? || step.Answer? || step.Sweep?)
  }

  /** Whether a step within one engine is there to be taken. */
  predicate Ready(g: Engine, step: Step) {
    match step
    case Send(_, w) => w < |g.writers| && g.writers[w].Imported?
    case HandOver(_, w) => w < |g.writers| && !g.writers[w].Gone?
    case Process(_) => g.queue != [] && g.queue[0].Insert?
    case Wants(_, k) => k < |g.notices| && g.notices[k].Landed?
    case Tag(_, k) => k < |g.notices| && g.notices[k].Wanting?
    case HoldTag(_, k) => k < |g.notices| && g.notices[k].Tagging?
    case _ => true
  }

  predicate Reading(n: Node) { n.run.Running? && n.run.next < n.run.upto && n.run.next < |n.engines| }

  predicate Enabled(n: Node, step: Step) {
    match step
    case Fetch(_) | Host => true
    case Start => n.run.Idle?
    case Take => Reading(n) && n.run.stage.Begin?
    case Ask => Reading(n) && n.run.stage.Taken?
    case Answer(_) =>
      Reading(n) && n.run.stage.Asked? && n.engines[n.run.next].queue != [] && n.engines[n.run.next].queue[0].Read?
    case Sweep => n.run.Running? && n.run.next == n.run.upto
    case _ => step.e < |n.engines| && Ready(n.engines[step.e], step)
  }

  function Within(g: Engine, step: Step): Engine
    requires Ready(g, step)
  {
    match step
    case Import(_, h) => g.(writers := g.writers + [Imported(h)])
    case Send(_, w) =>
      g.(writers := g.writers[w := Sent(g.writers[w].hash)], queue := g.queue + [Insert(g.writers[w].hash)])
    case HandOver(_, w) => g.(writers := g.writers[w := Gone], tags := Holding(g.collected, g.tags, g.writers[w].hash))
    case Process(_) => g.(queue := g.queue[1..], local := g.local + {g.queue[0].hash})
    case Remote(_, h) => g.(remote := g.remote + {h}, notices := g.notices + [Landed(h)])
    case Wants(_, k) =>
      var wanted := Wanted(g.collected, g.tags, g.notices[k].hash);
      g.(notices := g.notices[k := if wanted then Wanting(g.notices[k].hash) else Handled])
    case Tag(_, k) => g.(notices := g.notices[k := Tagging(g.notices[k].hash)])
    case HoldTag(_, k) =>
      g.(notices := g.notices[k := Handled], tags := Holding(g.collected, g.tags, g.notices[k].hash))
    case Overwrite(_, h) => g.(local := g.local - {h}, remote := g.remote - {h})
    case _ => g
  }

  predicate Owns(g: Engine, h: Hash) {
    h in g.tags || Imported(h) in g.writers || Sent(h) in g.writers || Tagging(h) in g.notices
  }

  predicate Tagged(n: Node, h: Hash) { exists e | 0 <= e < |n.engines| :: Owns(n.engines[e], h) }

  function Next(n: Node, step: Step): Node
    requires Enabled(n, step)
  {
    if OfEngine(step) then
      Node(n.engines[step.e := Within(n.engines[step.e], step)],
           if step.Import? then n.blobs + {step.hash} else n.blobs, n.run)
    else
      match step
      case Fetch(h) => n.(blobs := n.blobs + {h})
      case Host => n.(engines := n.engines + [FRESH])
      case Start => n.(run := Running(0, |n.engines|, {}, Begin))
      case Take =>
        var g := n.engines[n.run.next];
        Node(n.engines[n.run.next := g.(collected := true, tags := {})], n.blobs, n.run.(stage := Taken(g.tags)))
      case Ask =>
        var g := n.engines[n.run.next];
        Node(n.engines[n.run.next := g.(queue := g.queue + [Read])], n.blobs, n.run.(stage := Asked(n.run.stage.tags)))
      case Answer(ok) =>
        var g := n.engines[n.run.next];
        if ok then
          Node(n.engines[n.run.next := g.(queue := g.queue[1..])], n.blobs,
            n.run.(next := n.run.next + 1, live := n.run.live + g.local + g.remote, stage := Begin))
        else
          Node(n.engines[n.run.next := g.(queue := g.queue[1..], tags := g.tags + n.run.stage.tags)], n.blobs, Idle)
      case Sweep => Node(n.engines, (set h | h in n.blobs && (h in n.run.live || Tagged(n, h))), Idle)
      case _ => n
  }

  // ---------------------------------------------------------------- what every step keeps

  /** The run, if there is one, has yet to read this engine. */
  predicate Ahead(run: Collector, e: nat) { run.Idle? || run.next <= e }

  predicate InLive(run: Collector, h: Hash) { run.Running? && h in run.live }

  predicate Pending(g: Engine, h: Hash) { Landed(h) in g.notices || Wanting(h) in g.notices }

  ghost predicate ReadBefore(q: seq<Message>, p: nat) { exists r | 0 <= r < p && r < |q| :: q[r] == Read }

  ghost predicate LocalSafe(g: Engine, run: Collector, blobs: set<Hash>, e: nat) {
    forall h | h in g.local :: h in blobs && (Owns(g, h) || InLive(run, h) || Ahead(run, e))
  }

  ghost predicate RemoteSafe(g: Engine, run: Collector, e: nat) {
    forall h | h in g.remote :: Owns(g, h) || InLive(run, h) || Ahead(run, e) || Pending(g, h)
  }

  /** An insert still queued is tagged, or the run's read of the engine, still to be answered, stands behind it. */
  ghost predicate QueueSafe(g: Engine, run: Collector, blobs: set<Hash>, e: nat) {
    forall p | 0 <= p < |g.queue| && g.queue[p].Insert? ::
      g.queue[p].hash in blobs && (Owns(g, g.queue[p].hash) || (Ahead(run, e) && !ReadBefore(g.queue, p)))
  }

  ghost predicate ReadsAsked(g: Engine, run: Collector, e: nat) {
    && (forall p | 0 <= p < |g.queue| && g.queue[p] == Read :: run.Running? && run.next == e && run.stage.Asked?)
    && (forall p, q | 0 <= p < q < |g.queue| :: g.queue[p] == Read ==> g.queue[q] != Read)
    && (!g.collected ==> Ahead(run, e) && (run.Running? && run.next == e ==> run.stage.Begin?))
  }

  ghost predicate WritersHold(g: Engine, blobs: set<Hash>) {
    forall w | 0 <= w < |g.writers| && !g.writers[w].Gone? :: g.writers[w].hash in blobs
  }

  ghost predicate EngineInv(g: Engine, run: Collector, blobs: set<Hash>, e: nat) {
    LocalSafe(g, run, blobs, e) && RemoteSafe(g, run, e) && QueueSafe(g, run, blobs, e) && ReadsAsked(g, run, e)
      && WritersHold(g, blobs)
  }

  ghost predicate Inv(n: Node) {
    && (n.run.Running? ==> n.run.next <= n.run.upto <= |n.engines| && (n.run.next == n.run.upto ==> n.run.stage.Begin?))
    && forall e | 0 <= e < |n.engines| :: EngineInv(n.engines[e], n.run, n.blobs, e)
  }

  /** An entry written here, or an insert on its way, whose payload the node holds. */
  predicate Names(g: Engine, h: Hash) { h in g.local || Insert(h) in g.queue }

  /** The sweep takes a payload of an engine hosted since the run began: no read saw it, and no tag is left on it. */
  ghost predicate Loses(n: Node, step: Step) {
    && step.Sweep? && n.run.Running?
    && exists e, h | n.run.upto <= e < |n.engines| && Names(n.engines[e], h) :: h !in n.run.live && !Tagged(n, h)
  }

  lemma BlobsGrow(g: Engine, run: Collector, blobs: set<Hash>, more: set<Hash>, e: nat)
    requires EngineInv(g, run, blobs, e) && blobs <= more
    ensures EngineInv(g, run, more, e)
  {
  }

  /** A tag given up is in the engine's keeping, or no run has read the engine yet. */
  lemma TagsPassOn(g: Engine, step: Step, h: Hash)
    requires Ready(g, step) && OfEngine(step) && Owns(g, h)
    ensures Owns(Within(g, step), h) || (!g.collected && (step.HandOver? || step.HoldTag?))
  {
    var m := Within(g, step);
    if h !in m.tags {
      if Imported(h) in g.writers || Sent(h) in g.writers {
        var w :| 0 <= w < |g.writers| && (g.writers[w] == Imported(h) || g.writers[w] == Sent(h));
        if !step.HandOver? || step.w != w { assert m.writers[w] == Imported(h) || m.writers[w] == Sent(h); }
      } else {
        var k :| 0 <= k < |g.notices| && g.notices[k] == Tagging(h);
        if !step.HoldTag? || step.k != k { assert m.notices[k] == Tagging(h); }
      }
    }
  }

  lemma NoticesPassOn(g: Engine, step: Step, h: Hash)
    requires Ready(g, step) && OfEngine(step) && Pending(g, h)
    ensures Pending(Within(g, step), h) || Owns(Within(g, step), h) || (!g.collected && step.Wants?)
  {
    var m := Within(g, step);
    var k :| 0 <= k < |g.notices| && (g.notices[k] == Landed(h) || g.notices[k] == Wanting(h));
    assert m.notices[k] in m.notices;
  }

  lemma LocalKept(g: Engine, run: Collector, blobs: set<Hash>, e: nat, step: Step)
    requires EngineInv(g, run, blobs, e) && OfEngine(step) && Ready(g, step)
    ensures LocalSafe(Within(g, step), run, blobs, e)
  {
    var m := Within(g, step);
    forall h | h in m.local ensures h in blobs && (Owns(m, h) || InLive(run, h) || Ahead(run, e)) {
      if step.Process? && g.queue[0] == Insert(h) { assert !ReadBefore(g.queue, 0); }
      if Owns(g, h) { TagsPassOn(g, step, h); }
    }
  }

  lemma RemoteKept(g: Engine, run: Collector, blobs: set<Hash>, e: nat, step: Step)
    requires EngineInv(g, run, blobs, e) && OfEngine(step) && Ready(g, step)
    ensures RemoteSafe(Within(g, step), run, e)
  {
    var m := Within(g, step);
    forall h | h in m.remote ensures Owns(m, h) || InLive(run, h) || Ahead(run, e) || Pending(m, h) {
      if h !in g.remote { assert m.notices[|g.notices|] == Landed(h); }
      else if Owns(g, h) { TagsPassOn(g, step, h); }
      else if Pending(g, h) { NoticesPassOn(g, step, h); }
    }
  }

  lemma QueueKept(g: Engine, run: Collector, blobs: set<Hash>, e: nat, step: Step)
    requires EngineInv(g, run, blobs, e) && OfEngine(step) && Ready(g, step)
    ensures QueueSafe(Within(g, step), run, blobs, e)
  {
    var m := Within(g, step);
    forall p | 0 <= p < |m.queue| && m.queue[p].Insert?
      ensures m.queue[p].hash in blobs && (Owns(m, m.queue[p].hash) || (Ahead(run, e) && !ReadBefore(m.queue, p)))
    {
      var h := m.queue[p].hash;
      if step.Process? {
        assert m.queue[p] == g.queue[p + 1];
        if ReadBefore(m.queue, p) {
          var r :| 0 <= r < p && m.queue[r] == Read;
          assert g.queue[r + 1] == Read;
        }
      } else if p == |g.queue| {
        assert m.writers[step.w] == Sent(h);
      } else {
        assert m.queue[p] == g.queue[p];
        if ReadBefore(m.queue, p) {
          var r :| 0 <= r < p && m.queue[r] == Read;
          assert g.queue[r] == Read;
        }
      }
      if Owns(g, h) { TagsPassOn(g, step, h); }
    }
  }

  lemma ReadsKept(g: Engine, run: Collector, blobs: set<Hash>, e: nat, step: Step)
    requires EngineInv(g, run, blobs, e) && OfEngine(step) && Ready(g, step)
    ensures ReadsAsked(Within(g, step), run, e)
  {
  }

  lemma EngineStepKeeps(g: Engine, run: Collector, blobs: set<Hash>, e: nat, step: Step)
    requires EngineInv(g, run, blobs, e) && OfEngine(step) && Ready(g, step)
    ensures EngineInv(Within(g, step), run, if step.Import? then blobs + {step.hash} else blobs, e)
  {
    if step.Import? { BlobsGrow(g, run, blobs, blobs + {step.hash}, e); }
    var more := if step.Import? then blobs + {step.hash} else blobs;
    LocalKept(g, run, more, e, step);
    RemoteKept(g, run, more, e, step);
    QueueKept(g, run, more, e, step);
    ReadsKept(g, run, more, e, step);
  }

  lemma RunStarts(n: Node)
    requires Inv(n) && n.run.Idle?
    ensures Inv(Next(n, Start))
  {
  }

  /** The other engines see a run move on at one of them only as the run's own progress. */
  lemma OtherEngine(g: Engine, run: Collector, run': Collector, blobs: set<Hash>, e: nat)
    requires EngineInv(g, run, blobs, e) && run.Running? && run.next != e
    requires run' == Idle || (run'.Running? && run.next <= run'.next <= run.next + 1 && run.live <= run'.live
      && (run'.next == e ==> run'.stage.Begin?))
    ensures EngineInv(g, run', blobs, e)
  {
  }

  lemma TakeKeeps(g: Engine, run: Collector, blobs: set<Hash>, e: nat)
    requires EngineInv(g, run, blobs, e) && run.Running? && run.next == e && run.stage.Begin?
    ensures EngineInv(g.(collected := true, tags := {}), run.(stage := Taken(g.tags)), blobs, e)
  {
  }

  lemma AskKeeps(g: Engine, run: Collector, blobs: set<Hash>, e: nat)
    requires EngineInv(g, run, blobs, e) && run.Running? && run.next == e && run.stage.Taken?
    ensures EngineInv(g.(queue := g.queue + [Read]), run.(stage := Asked(run.stage.tags)), blobs, e)
  {
  }

  /** Whatever the read saw is live; an insert behind it kept its tag. */
  lemma AnswerKeeps(g: Engine, run: Collector, blobs: set<Hash>, e: nat, ok: bool)
    requires EngineInv(g, run, blobs, e) && run.Running? && run.next == e && run.stage.Asked? && g.queue != []
      && g.queue[0] == Read
    ensures EngineInv(if ok then g.(queue := g.queue[1..])
      else g.(queue := g.queue[1..], tags := g.tags + run.stage.tags),
                      if ok then run.(next := e + 1, live := run.live + g.local + g.remote, stage := Begin)
                      else Idle, blobs, e)
  {
  }

  lemma SweptEngine(n: Node, e: nat)
    requires Inv(n) && Enabled(n, Sweep) && !Loses(n, Sweep) && e < |n.engines|
    ensures EngineInv(n.engines[e], Idle, Next(n, Sweep).blobs, e)
  {
    var g, left := n.engines[e], Next(n, Sweep).blobs;
    assert EngineInv(g, n.run, n.blobs, e);
    forall h | Names(g, h) || Imported(h) in g.writers || Sent(h) in g.writers ensures h in left {
      if Owns(g, h) { assert Tagged(n, h); }
    }
    forall p | 0 <= p < |g.queue| && g.queue[p].Insert? ensures g.queue[p].hash in left {
      assert g.queue[p] in g.queue;
    }
    hide Names, Owns, Tagged;
    forall p | 0 <= p < |g.queue| && g.queue[p].Insert? ensures !ReadBefore(g.queue, p) {
    }
  }

  lemma SweepKeeps(n: Node)
    requires Inv(n) && Enabled(n, Sweep)
    ensures Inv(Next(n, Sweep)) <==> !Loses(n, Sweep)
  {
    hide EngineInv;
    if Loses(n, Sweep) {
      var e, h :| n.run.upto <= e < |n.engines| && Names(n.engines[e], h) && h !in n.run.live && !Tagged(n, h);
      LostAt(n.engines[e], Idle, Next(n, Sweep).blobs, e, h);
    } else {
      forall e | 0 <= e < |n.engines| ensures EngineInv(n.engines[e], Idle, Next(n, Sweep).blobs, e) {
        SweptEngine(n, e);
      }
    }
  }

  lemma LostAt(g: Engine, run: Collector, blobs: set<Hash>, e: nat, h: Hash)
    requires Names(g, h) && h !in blobs
    ensures !EngineInv(g, run, blobs, e)
  {
    if h !in g.local {
      var p :| 0 <= p < |g.queue| && g.queue[p] == Insert(h);
    }
  }

  lemma HostKeeps(n: Node)
    requires Inv(n)
    ensures Inv(Next(n, Host))
  {
  }

  lemma CollectorKeeps(n: Node, step: Step)
    requires Inv(n) && Enabled(n, step) && (step.Take? || step.Ask? || step.Answer?)
    ensures Inv(Next(n, step))
  {
    var m := Next(n, step);
    hide EngineInv;
    forall e | 0 <= e < |m.engines| ensures EngineInv(m.engines[e], m.run, m.blobs, e) {
      assert EngineInv(n.engines[e], n.run, n.blobs, e);
      if e != n.run.next { OtherEngine(n.engines[e], n.run, m.run, n.blobs, e); }
      else if step.Take? { TakeKeeps(n.engines[e], n.run, n.blobs, e); }
      else if step.Ask? { AskKeeps(n.engines[e], n.run, n.blobs, e); }
      else { AnswerKeeps(n.engines[e], n.run, n.blobs, e, step.ok); }
    }
  }

  lemma StepKeeps(n: Node, step: Step)
    requires Inv(n) && Enabled(n, step)
    ensures Inv(Next(n, step)) <==> !Loses(n, step)
  {
    hide EngineInv;
    match step
    case Host => HostKeeps(n);
    case Start => RunStarts(n);
    case Sweep => SweepKeeps(n);
    case Take => CollectorKeeps(n, step);
    case Ask => CollectorKeeps(n, step);
    case Answer(_) => CollectorKeeps(n, step);
    case Fetch(h) =>
      forall e | 0 <= e < |n.engines| ensures EngineInv(n.engines[e], n.run, n.blobs + {h}, e) {
        BlobsGrow(n.engines[e], n.run, n.blobs, n.blobs + {h}, e);
      }
    case _ =>
      var m := Next(n, step);
      forall e | 0 <= e < |n.engines| ensures EngineInv(m.engines[e], m.run, m.blobs, e) {
        if e == step.e { EngineStepKeeps(n.engines[e], n.run, n.blobs, e, step); }
        else { BlobsGrow(n.engines[e], n.run, n.blobs, m.blobs, e); }
      }
  }

  // ---------------------------------------------------------------- over every run

  const FRESH: Engine := Engine(false, {}, [], {}, {}, [], [])

  function Run(engines: nat, steps: seq<Step>): Option<Node>
    decreases |steps|
  {
    if steps == [] then Some(Node(seq(engines, _ => FRESH), {}, Idle))
    else
      var before := Run(engines, steps[..|steps| - 1]);
      var last := steps[|steps| - 1];
      if before.Some? && Enabled(before.value, last) then Some(Next(before.value, last)) else None
  }

  /** No sweep of the run takes a payload of an engine hosted since its own run began. */
  ghost predicate Lossless(engines: nat, steps: seq<Step>)
    decreases |steps|
  {
    steps != [] ==>
      var before := Run(engines, steps[..|steps| - 1]);
      Lossless(engines, steps[..|steps| - 1]) && (before.Some? ==> !Loses(before.value, steps[|steps| - 1]))
  }

  lemma {:induction false} RunKeeps(engines: nat, steps: seq<Step>)
    requires Run(engines, steps).Some? && Lossless(engines, steps)
    ensures Inv(Run(engines, steps).value)
    decreases |steps|
  {
    if steps != [] {
      RunKeeps(engines, steps[..|steps| - 1]);
      StepKeeps(Run(engines, steps[..|steps| - 1]).value, steps[|steps| - 1]);
    }
  }

  /** The payload of every entry written here, and of every insert on its way, is in the blob store. */
  ghost predicate Stays(n: Node) {
    forall e, h | 0 <= e < |n.engines| && Names(n.engines[e], h) :: h in n.blobs
  }

  lemma InvStays(n: Node)
    requires Inv(n)
    ensures Stays(n)
  {
    forall e, h | 0 <= e < |n.engines| && Names(n.engines[e], h) ensures h in n.blobs {
      assert EngineInv(n.engines[e], n.run, n.blobs, e);
      if h !in n.engines[e].local {
        var p :| 0 <= p < |n.engines[e].queue| && n.engines[e].queue[p] == Insert(h);
      }
    }
  }

  lemma LosesSome(n: Node)
    requires Enabled(n, Sweep) && Loses(n, Sweep)
    ensures !Stays(Next(n, Sweep))
  {
    var e, h :| n.run.upto <= e < |n.engines| && Names(n.engines[e], h) && h !in n.run.live && !Tagged(n, h);
    var m := Next(n, Sweep);
    assert m.engines == n.engines && h !in m.blobs && 0 <= e < |m.engines| && Names(m.engines[e], h);
  }

  /** Those payloads are there all along a run exactly when no sweep of it takes one of an engine hosted since that
      collection began. */
  lemma {:induction false} WrittenPayloadsStay(engines: nat, steps: seq<Step>)
    requires Run(engines, steps).Some?
    ensures (forall k | 0 <= k <= |steps| ::
      Run(engines, steps[..k]).Some? && Stays(Run(engines, steps[..k]).value)) <==>
      Lossless(engines, steps)
    decreases |steps|
  {
    assert steps[..|steps|] == steps;
    if steps == [] {
      RunKeeps(engines, steps);
      InvStays(Run(engines, steps).value);
    } else {
      var front, last := steps[..|steps| - 1], steps[|steps| - 1];
      WrittenPayloadsStay(engines, front);
      assert forall k | 0 <= k < |steps| :: steps[..k] == front[..k];
      if Lossless(engines, steps) {
        RunKeeps(engines, steps);
        InvStays(Run(engines, steps).value);
      } else if Lossless(engines, front) {
        LosesSome(Run(engines, front).value);
      }
    }
  }

  predicate OfNotice(step: Step, e: nat, k: nat) { step == Wants(e, k) || step == Tag(e, k) || step == HoldTag(e, k) }

  ghost function Heard(steps: seq<Step>, e: nat, k: nat): set<Step> { set s | s in steps && OfNotice(s, e, k) }

  /** A notice is asked for, tagged if wanted, and its tag held, in that order. */
  ghost predicate NoticeTold(heard: set<Step>, e: nat, k: nat, x: Notice) {
    match x
    case Landed(_) => heard == {}
    case Wanting(_) => heard == {Wants(e, k)}
    case Tagging(_) => heard == {Wants(e, k), Tag(e, k)}
    case Handled => heard == {Wants(e, k)} || heard == {Wants(e, k), Tag(e, k), HoldTag(e, k)}
  }

  ghost predicate Noticed(n: Node, heard: set<Step>, e: nat, k: nat) {
    if e < |n.engines| && k < |n.engines[e].notices| then NoticeTold(heard, e, k, n.engines[e].notices[k])
    else heard == {}
  }

  lemma NoticeMoves(g: Engine, step: Step, heard: set<Step>, k: nat)
    requires OfEngine(step) && Ready(g, step)
    requires if k < |g.notices| then NoticeTold(heard, step.e, k, g.notices[k]) else heard == {}
    ensures var m := Within(g, step).notices;
      var more := if OfNotice(step, step.e, k) then heard + {step} else heard;
      if k < |m| then NoticeTold(more, step.e, k, m[k]) else more == {}
  {
  }

  lemma OtherNotices(n: Node, step: Step, e: nat)
    requires Enabled(n, step) && !(OfEngine(step) && step.e == e)
    ensures e < |n.engines| ==> e < |Next(n, step).engines| && Next(n, step).engines[e].notices == n.engines[e].notices
    ensures |n.engines| <= e < |Next(n, step).engines| ==> Next(n, step).engines[e].notices == []
  {
  }

  lemma NoticeStep(n: Node, step: Step, heard: set<Step>, e: nat, k: nat)
    requires Enabled(n, step) && Noticed(n, heard, e, k)
    ensures Noticed(Next(n, step), if OfNotice(step, e, k) then heard + {step} else heard, e, k)
  {
    hide NoticeTold, Within, Ready;
    if OfEngine(step) && step.e == e {
      NoticeMoves(n.engines[e], step, heard, k);
    } else {
      OtherNotices(n, step, e);
      hide Next;
    }
  }

  lemma {:induction false} NoticesTold(engines: nat, steps: seq<Step>, e: nat, k: nat)
    requires Run(engines, steps).Some?
    ensures Noticed(Run(engines, steps).value, Heard(steps, e, k), e, k)
    decreases |steps|
  {
    if steps == [] {
      assert Heard(steps, e, k) == {};
    } else {
      var front, last := steps[..|steps| - 1], steps[|steps| - 1];
      NoticesTold(engines, front, e, k);
      assert steps == front + [last];
      assert Heard(steps, e, k) == if OfNotice(last, e, k) then Heard(front, e, k) + {last} else Heard(front, e, k);
      hide Noticed, Next, Heard;
      NoticeStep(Run(engines, front).value, last, Heard(front, e, k), e, k);
    }
  }

  /** The run has taken these tags of the engine it reads. */
  predicate Aside(n: Node, e: nat, tags: set<Hash>) {
    n.run.Running? && n.run.next == e < |n.engines| && n.run.next < n.run.upto && !n.run.stage.Begin?
      && n.run.stage.tags == tags
  }

  lemma AsideStays(n: Node, step: Step, e: nat, tags: set<Hash>)
    requires Enabled(n, step) && Aside(n, e, tags) && !step.Answer?
    ensures Aside(Next(n, step), e, tags)
  {
  }

  lemma TakenAside(n: Node)
    requires Enabled(n, Take)
    ensures n.run.next < |n.engines| && Aside(Next(n, Take), n.run.next, n.engines[n.run.next].tags)
  {
  }

  lemma {:induction false} TagsAside(engines: nat, before: seq<Step>, between: seq<Step>)
    requires Run(engines, before + [Take] + between).Some? && forall step | step in between :: !step.Answer?
    ensures Run(engines, before).Some? && Enabled(Run(engines, before).value, Take)
    ensures var n := Run(engines, before).value;
      Aside(Run(engines, before + [Take] + between).value, n.run.next, n.engines[n.run.next].tags)
    decreases |between|
  {
    hide Next, Aside, Ready, Within;
    var steps := before + [Take] + between;
    var front, last := steps[..|steps| - 1], steps[|steps| - 1];
    if between == [] {
      assert front == before && last == Take;
      TakenAside(Run(engines, before).value);
    } else {
      assert front == before + [Take] + between[..|between| - 1] && last == between[|between| - 1];
      assert last in between;
      TagsAside(engines, before, between[..|between| - 1]);
      var n := Run(engines, before).value;
      AsideStays(Run(engines, front).value, last, n.run.next, n.engines[n.run.next].tags);
    }
  }

  /** A read that failed, whatever ran since its tags were taken, leaves every one of them held again and no run. */
  lemma FailedReadRestores(engines: nat, before: seq<Step>, between: seq<Step>)
    requires Run(engines, before + [Take] + between + [Answer(false)]).Some?
    requires forall step | step in between :: !step.Answer?
    ensures Run(engines, before).Some? && Run(engines, before).value.run.Running?
    ensures var n, m := Run(engines, before).value, Run(engines, before + [Take] + between + [Answer(false)]).value;
      n.run.next < |n.engines| && n.run.next < |m.engines| && m.run.Idle?
        && n.engines[n.run.next].tags <= m.engines[n.run.next].tags
  {
    var steps := before + [Take] + between + [Answer(false)];
    assert steps[..|steps| - 1] == before + [Take] + between;
    TagsAside(engines, before, between);
  }

  /** No identity is hosted while a collection is under way. */
  predicate HostedBetween(engines: nat, steps: seq<Step>)
    decreases |steps|
  {
    steps != [] ==>
      var before := Run(engines, steps[..|steps| - 1]);
      && HostedBetween(engines, steps[..|steps| - 1])
      && (before.Some? && steps[|steps| - 1].Host? ==> before.value.run.Idle?)
  }

  /** And then none does. */
  lemma {:induction false} HostedBetweenLosesNone(engines: nat, steps: seq<Step>)
    requires Run(engines, steps).Some? && HostedBetween(engines, steps)
    ensures Lossless(engines, steps)
    ensures var n := Run(engines, steps).value; n.run.Running? ==> n.run.upto == |n.engines|
    decreases |steps|
  {
    if steps != [] { HostedBetweenLosesNone(engines, steps[..|steps| - 1]); }
  }

  /** Of the engines it read, a sweep takes a referenced payload only where a remote entry's notice has not yet come to
      a tag. */
  lemma SweepSparesReferenced(engines: nat, steps: seq<Step>, e: nat, h: Hash)
    requires Run(engines, steps).Some? && Lossless(engines, steps) && var n := Run(engines, steps).value;
      && Enabled(n, Sweep) && e < n.run.upto && e < |n.engines| && h in n.blobs
      && (h in n.engines[e].local || (h in n.engines[e].remote && !Pending(n.engines[e], h)))
    ensures h in Next(Run(engines, steps).value, Sweep).blobs
  {
    RunKeeps(engines, steps);
    var n := Run(engines, steps).value;
    assert EngineInv(n.engines[e], n.run, n.blobs, e);
    if Owns(n.engines[e], h) { assert Tagged(n, h); }
  }

  /** Wherever the run stands once it has read every engine: a payload in the store whose entry only now arrives
      outlives the sweep exactly when another entry the run read, or a tag, names it. */
  lemma LateArrivalIsSwept(engines: nat, steps: seq<Step>, e: nat, h: Hash)
    requires Run(engines, steps).Some? && var n := Run(engines, steps).value;
      Enabled(n, Sweep) && e < |n.engines| && h in n.blobs
    ensures var n := Run(engines, steps).value;
      var late := Run(engines, steps + [Remote(e, h)]);
      && late == Some(Next(n, Remote(e, h))) && h in late.value.engines[e].remote && Pending(late.value.engines[e], h)
      && (h in Next(late.value, Sweep).blobs <==> h in n.run.live || Tagged(n, h))
  {
    var n := Run(engines, steps).value;
    RunOn(engines, steps, n, Remote(e, h));
    var m := Next(n, Remote(e, h));
    assert m.engines[e].notices[|n.engines[e].notices|] == Landed(h);
    forall i | 0 <= i < |n.engines| ensures Owns(m.engines[i], h) <==> Owns(n.engines[i], h) {
    }
  }

  lemma RunOn(engines: nat, steps: seq<Step>, n: Node, step: Step)
    requires Run(engines, steps) == Some(n) && Enabled(n, step)
    ensures Run(engines, steps + [step]) == Some(Next(n, step))
  {
    assert (steps + [step])[..|steps|] == steps;
  }

  /** A payload is fetched and a run reads the first engines, none of them holding anything. */
  function ReadFirst(h: Hash, k: nat): seq<Step> {
    if k == 0 then [Fetch(h)] + [Start] else ReadFirst(h, k - 1) + [Take] + [Ask] + [Answer(true)]
  }

  function FirstRead(engines: nat, h: Hash, k: nat): Node {
    Node(seq(engines, i => FRESH.(collected := 0 <= i < k)), {h}, Running(k, engines, {}, Begin))
  }

  lemma ReadsOneMore(engines: nat, h: Hash, k: nat)
    requires k < engines
    ensures var n := FirstRead(engines, h, k);
      && Enabled(n, Take) && Enabled(Next(n, Take), Ask) && Enabled(Next(Next(n, Take), Ask), Answer(true))
      && Next(Next(Next(n, Take), Ask), Answer(true)) == FirstRead(engines, h, k + 1)
  {
    var n := FirstRead(engines, h, k);
    var g := FRESH.(collected := true);
    var taken := Next(n, Take);
    assert taken == Node(n.engines[k := g], {h}, Running(k, engines, {}, Taken({})));
    var asked := Next(taken, Ask);
    assert g.queue + [Read] == [Read] && [Read][1..] == g.queue;
    assert taken.engines[k := g.(queue := [Read])] == n.engines[k := g.(queue := [Read])];
    assert asked == Node(n.engines[k := g.(queue := [Read])], {h}, Running(k, engines, {}, Asked({})));
    assert asked.engines[k := g] == n.engines[k := g];
    assert Next(asked, Answer(true)) == Node(n.engines[k := g], {h}, Running(k + 1, engines, {}, Begin));
    assert n.engines[k := g] == FirstRead(engines, h, k + 1).engines;
  }

  lemma RunBegins(engines: nat, h: Hash)
    ensures Run(engines, [Fetch(h)] + [Start]) == Some(FirstRead(engines, h, 0))
  {
    var n := Node(seq(engines, _ => FRESH), {}, Idle);
    assert Run(engines, []) == Some(n);
    RunOn(engines, [], n, Fetch(h));
    var fetched := Next(n, Fetch(h));
    assert [] + [Fetch(h)] == [Fetch(h)];
    assert fetched.blobs == {h};
    RunOn(engines, [Fetch(h)], fetched, Start);
    assert Next(fetched, Start).engines == FirstRead(engines, h, 0).engines;
  }

  lemma RunReads(engines: nat, steps: seq<Step>, n: Node)
    requires Run(engines, steps) == Some(n)
    requires Enabled(n, Take) && Enabled(Next(n, Take), Ask) && Enabled(Next(Next(n, Take), Ask), Answer(true))
    ensures Run(engines, steps + [Take] + [Ask] + [Answer(true)]) == Some(Next(Next(Next(n, Take), Ask), Answer(true)))
  {
    hide *;
    RunOn(engines, steps, n, Take);
    RunOn(engines, steps + [Take], Next(n, Take), Ask);
    RunOn(engines, steps + [Take] + [Ask], Next(Next(n, Take), Ask), Answer(true));
  }

  lemma {:induction false} ReadFirstRuns(engines: nat, h: Hash, k: nat)
    requires k <= engines
    ensures Run(engines, ReadFirst(h, k)) == Some(FirstRead(engines, h, k))
  {
    hide Run, Next, Enabled, FirstRead;
    if k == 0 {
      RunBegins(engines, h);
    } else {
      ReadFirstRuns(engines, h, k - 1);
      ReadsOneMore(engines, h, k - 1);
      RunReads(engines, ReadFirst(h, k - 1), FirstRead(engines, h, k - 1));
    }
  }

  /** And some run loses one: whatever the engines, a fetched payload whose entry lands in any of them once all are read
      is referenced and stored, and gone with the sweep. */
  lemma LateArrivalIsLost(engines: nat, e: nat, h: Hash) returns (steps: seq<Step>)
    requires e < engines
    ensures Run(engines, steps).Some? && Run(engines, steps + [Sweep]).Some?
    ensures var n, swept := Run(engines, steps).value, Run(engines, steps + [Sweep]).value;
      && e < |n.engines| && h in n.engines[e].remote && h in n.blobs
      && swept.engines == n.engines && h !in swept.blobs
  {
    ReadFirstRuns(engines, h, engines);
    LateArrivalIsSwept(engines, ReadFirst(h, engines), e, h);
    steps := ReadFirst(h, engines) + [Remote(e, h)];
    RunOn(engines, steps, Run(engines, steps).value, Sweep);
    assert !Tagged(FirstRead(engines, h, engines), h);
  }

  /** The engines read, and one hosted since. */
  function Late(engines: nat, h: Hash, g: Engine): Node {
    Node(FirstRead(engines, h, engines).engines + [g], {h}, Running(engines, engines, {}, Begin))
  }

  lemma LateHosted(engines: nat, h: Hash)
    ensures Run(engines, ReadFirst(h, engines) + [Host]) == Some(Late(engines, h, FRESH))
  {
    ReadFirstRuns(engines, h, engines);
    RunOn(engines, ReadFirst(h, engines), FirstRead(engines, h, engines), Host);
  }

  lemma LateMoves(engines: nat, h: Hash, steps: seq<Step>, g: Engine, step: Step)
    requires Run(engines, steps) == Some(Late(engines, h, g))
    requires OfEngine(step) && step.e == engines && Ready(g, step) && (step.Import? ==> step.hash == h)
    ensures Run(engines, steps + [step]) == Some(Late(engines, h, Within(g, step)))
  {
    var n := Late(engines, h, g);
    RunOn(engines, steps, n, step);
    hide Run, Within, Ready, FirstRead;
    assert n.engines[engines] == g;
    assert n.engines[engines := Within(g, step)] == Late(engines, h, Within(g, step)).engines;
    assert Next(n, step) == Node(n.engines[engines := Within(g, step)], {h}, n.run);
  }

  /** And a late host's writer does lose one: hosted once the engines are read, an identity writes, its tag is dropped
      since no collection has read it, and the sweep takes the payload of its entry. */
  lemma LateHostLoses(engines: nat, h: Hash) returns (steps: seq<Step>)
    ensures Run(engines, steps).Some? && Run(engines, steps + [Sweep]).Some?
    ensures var n, swept := Run(engines, steps).value, Run(engines, steps + [Sweep]).value;
      && |n.engines| == engines + 1 && h in n.engines[engines].local && h in n.blobs
      && swept.engines == n.engines && h !in swept.blobs
  {
    LateHosted(engines, h);
    var g := FRESH;
    steps := ReadFirst(h, engines) + [Host];
    steps, g := LateWrites(engines, h, steps);
    RunOn(engines, steps, Late(engines, h, g), Sweep);
    assert !Tagged(Late(engines, h, g), h);
  }

  lemma LateWrites(engines: nat, h: Hash, hosted: seq<Step>) returns (steps: seq<Step>, g: Engine)
    requires Run(engines, hosted) == Some(Late(engines, h, FRESH))
    ensures Run(engines, steps) == Some(Late(engines, h, g)) && g == FRESH.(writers := [Gone], local := {h})
  {
    hide Run, Late;
    steps, g := hosted, FRESH;
    LateMoves(engines, h, steps, g, Import(engines, h));
    steps, g := steps + [Import(engines, h)], Within(g, Import(engines, h));
    assert g == FRESH.(writers := [Imported(h)]);
    LateMoves(engines, h, steps, g, Send(engines, 0));
    steps, g := steps + [Send(engines, 0)], Within(g, Send(engines, 0));
    assert g == FRESH.(writers := [Sent(h)], queue := [Insert(h)]);
    LateMoves(engines, h, steps, g, Process(engines));
    steps, g := steps + [Process(engines)], Within(g, Process(engines));
    assert [Insert(h)][1..] == [] && g == FRESH.(writers := [Sent(h)], local := {h});
    LateMoves(engines, h, steps, g, HandOver(engines, 0));
    steps, g := steps + [HandOver(engines, 0)], Within(g, HandOver(engines, 0));
  }
}
