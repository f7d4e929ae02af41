/** What holds in every state of the queue network, under every interleaving of capture and queue
    threads. */
module QueueSafety {
  import opened QueueNetwork

  ghost predicate Safe(c: Config, n: Net) {
    && NetOk(c, n) && AllStampsOk(c, n) && Numbered(n)
    && (forall o :: Places(n, o) == if o in n.captured then 1 else 0)
    && (forall a | 0 <= a < |c.paths| :: InOrder(c, n, a))
  }

  lemma InitSafe(c: Config)
    requires ValidConfig(c)
    ensures Safe(c, Init(c))
  {
    forall o ensures Places(Init(c), o) == 0 {
      InitPlaces(c, |c.links|, o);
    }
    forall a | 0 <= a < |c.paths| ensures InOrder(c, Init(c), a) {
      InitView(c, a);
      EmptyReached(ViewOf(c, Init(c), a), 0);
    }
  }

  /** A captured packet is new, since packets are numbered. */
  lemma ActOnce(c: Config, n: Net, a: Action, o: Origin)
    requires ValidConfig(c) && NetOk(c, n) && Enabled(c, n, a) && Numbered(n)
    requires Places(n, o) == if o in n.captured then 1 else 0
    ensures Places(Act(c, n, a), o) == if o in Act(c, n, a).captured then 1 else 0
  {
    ActPlaces(c, n, a, o);
  }

  lemma ActNumbered(c: Config, n: Net, a: Action)
    requires ValidConfig(c) && NetOk(c, n) && Enabled(c, n, a) && Numbered(n)
    ensures Numbered(Act(c, n, a))
  {
  }

  lemma ActSafe(c: Config, n: Net, a: Action)
    requires ValidConfig(c) && Safe(c, n) && Enabled(c, n, a)
    ensures Safe(c, Act(c, n, a))
  {
    ActNetOk(c, n, a);
    ActStamps(c, n, a);
    ActNumbered(c, n, a);
    forall o ensures Places(Act(c, n, a), o) == if o in Act(c, n, a).captured then 1 else 0 {
      ActOnce(c, n, a, o);
    }
    forall b | 0 <= b < |c.paths| ensures InOrder(c, Act(c, n, a), b) {
      ActInOrder(c, n, a, b);
    }
  }

  lemma StepSafe(c: Config, n: Net, n': Net)
    requires ValidConfig(c) && Safe(c, n) && Step(c, n, n')
    ensures Safe(c, n')
  {
    var a :| Enabled(c, n, a) && n' == Act(c, n, a);
    ActSafe(c, n, a);
  }

  /** Under any interleaving of capture and queue threads: packets sit in queues of their path,
      stamps do not decrease along a queue, every captured packet is in exactly one place and
      nothing else is anywhere, and every instance's packets keep their capture order. */
  lemma {:induction false} RunSafe(c: Config, run: seq<Net>, i: nat)
    requires ValidConfig(c) && Run(c, run) && i < |run|
    ensures Safe(c, run[i])
  {
    if i == 0 {
      InitSafe(c);
    } else {
      RunSafe(c, run, i - 1);
      StepSafe(c, run[i - 1], run[i]);
    }
  }

  lemma RunInOrder(c: Config, run: seq<Net>, i: nat, a: nat)
    requires ValidConfig(c) && Run(c, run) && i < |run| && a < |c.paths|
    ensures InOrder(c, run[i], a)
  {
    RunSafe(c, run, i);
  }

  /** The packets of one instance are reinjected in capture order, none skipped. */
  lemma ReinjectedInOrder(c: Config, run: seq<Net>, i: nat, a: nat)
    requires ValidConfig(c) && Run(c, run) && i < |run| && a < |c.paths|
    ensures Origins(OutOf(run[i].out, a)) <= CapturedBy(run[i].captured, a)
  {
    RunInOrder(c, run, i, a);
    ReachedPrefix(ViewOf(c, run[i], a), |c.paths[a]|, 0);
  }
}
