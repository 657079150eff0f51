/** A file system that can stop at any moment.

    Every operation takes the next fate from a plan chosen by the environment, so a statement about
    every plan is a statement about every place where the process can crash or an operation can fail:
    a process that dies before an operation is one for which every later fate is `Fails`. A completed
    operation stays done. A write that does not complete may leave any part of its data behind. */
module Files {

  datatype Fate = Works | Fails | Torn(kept: nat)

  class Disk<P(==), N> {
    var nodes: map<P, N>
    var clock: nat
    const plan: nat -> Fate

    constructor (plan: nat -> Fate)
      ensures nodes == map[] && this.plan == plan && clock == 0
    {
      nodes, clock, this.plan := map[], 0, plan;
    }

    /** From now on nothing goes wrong. */
    ghost predicate Healthy()
      reads this`clock
    {
      forall i :: clock <= i ==> plan(i).Works?
    }

    method Next() returns (fate: Fate)
      modifies this`clock
      ensures fate == plan(old(clock)) && clock == old(clock) + 1
      ensures old(Healthy()) ==> fate.Works? && Healthy()
    {
      fate := plan(clock);
      clock := clock + 1;
    }

    /** An operation that changes nothing the model can see: flush, sync, open, change of mode. */
    method Touch() returns (ok: bool)
      modifies this`clock
      ensures ok <==> plan(old(clock)).Works?
      ensures old(Healthy()) ==> ok && Healthy()
    {
      var fate := Next();
      ok := fate.Works?;
    }

    /** Looks at one node; None is "not found". The second result is false when the read itself failed. */
    method Read(p: P) returns (ok: bool, found: bool)
      modifies this`clock
      ensures old(Healthy()) ==> ok && Healthy()
      ensures ok ==> (found <==> p in nodes)
    {
      ok := Touch();
      found := p in nodes;
    }

    /** Makes sure there is a node; what is there already stays. */
    method Create(p: P, empty: N) returns (ok: bool)
      modifies this`nodes, this`clock
      ensures old(Healthy()) ==> ok && Healthy()
      ensures nodes == if ok && p !in old(nodes) then old(nodes)[p := empty] else old(nodes)
    {
      ok := Touch();
      if ok && p !in nodes {
        nodes := nodes[p := empty];
      }
    }

    /** Makes a node that must not be there yet. */
    method CreateNew(p: P, n: N) returns (ok: bool)
      modifies this`nodes, this`clock
      ensures old(Healthy()) ==> Healthy() && (ok <==> p !in old(nodes))
      ensures ok ==> p !in old(nodes)
      ensures nodes == if ok then old(nodes)[p := n] else old(nodes)
    {
      ok := Touch();
      ok := ok && p !in nodes;
      if ok {
        nodes := nodes[p := n];
      }
    }

    /** Writes one node. A torn write leaves `torn(k)` behind. */
    method Put(p: P, whole: N, torn: nat -> N) returns (ok: bool)
      modifies this`nodes, this`clock
      ensures old(Healthy()) ==> ok && Healthy()
      ensures ok ==> nodes == old(nodes)[p := whole]
      ensures !ok ==> nodes == old(nodes) || exists k :: nodes == old(nodes)[p := torn(k)]
    {
      var fate := Next();
      ok := fate.Works?;
      match fate {
        case Works => nodes := nodes[p := whole];
        case Fails =>
        case Torn(k) => nodes := nodes[p := torn(k)];
      }
    }

    /** Moves a node over whatever was at the target, in one step. */
    method Rename(from: P, to: P) returns (ok: bool)
      requires from != to
      modifies this`nodes, this`clock
      ensures old(Healthy()) && from in old(nodes) ==> ok
      ensures old(Healthy()) ==> Healthy()
      ensures ok ==> from in old(nodes) && nodes == old(nodes)[to := old(nodes)[from]] - {from}
      ensures !ok ==> nodes == old(nodes)
    {
      ok := Touch();
      ok := ok && from in nodes;
      if ok {
        nodes := nodes[to := nodes[from]] - {from};
      }
    }

    method Remove(p: P) returns (ok: bool)
      modifies this`nodes, this`clock
      ensures old(Healthy()) ==> Healthy()
      ensures ok <==> plan(old(clock)).Works? && p in old(nodes)
      ensures nodes == if ok then old(nodes) - {p} else old(nodes)
    {
      ok := Touch();
      ok := ok && p in nodes;
      if ok {
        nodes := nodes - {p};
      }
    }
  }
}
