/** Reference-counted topic membership over a swarm that may be replaced. */
module TopicRegistry {
  import opened Options

  // The topic hash is ideal: distinct labels never collide.
  datatype Topic = Topic(name: string)

  datatype Opts = Opts(client: bool, server: bool)

  datatype Ref = Ref(count: nat, opts: Opts)

  class Swarm {
    var joined: map<Topic, Opts>

    constructor ()
      ensures joined == map[]
    {
      joined := map[];
    }

    method Join(t: Topic, opts: Opts)
      modifies this
      ensures joined == old(joined)[t := opts]
    {
      joined := joined[t := opts];
    }

    method Leave(t: Topic)
      modifies this
      ensures joined == old(joined) - {t}
    {
      joined := joined - {t};
    }
  }

  datatype Op = JoinOp(name: string) | EnsureOp(name: string) | LeaveOp(name: string) | ReattachOp

  /** The references held, as a multiset of labels. */
  function Apply(held: multiset<string>, op: Op): multiset<string> {
    match op
    case JoinOp(l) => held + multiset{l}
    case EnsureOp(l) => if l in held then held else held + multiset{l}
    case LeaveOp(l) => held - multiset{l}
    case ReattachOp => held
  }

  function Holds(ops: seq<Op>): multiset<string> {
    if ops == [] then multiset{} else Apply(Holds(ops[..|ops| - 1]), ops[|ops| - 1])
  }

  function Joins(ops: seq<Op>, l: string): nat {
    if ops == [] then 0 else Joins(ops[..|ops| - 1], l) + if ops[|ops| - 1] == JoinOp(l) then 1 else 0
  }

  function Leaves(ops: seq<Op>, l: string): nat {
    if ops == [] then 0 else Leaves(ops[..|ops| - 1], l) + if ops[|ops| - 1] == LeaveOp(l) then 1 else 0
  }

  /** A label joined by several flows is held until each of them has left: while leaves
      never outnumber joins, the references are their difference. */
  lemma {:induction false} HeldUntilLastLeave(ops: seq<Op>, l: string)
    requires EnsureOp(l) !in ops
    requires forall k :: 0 <= k <= |ops| ==> Leaves(ops[..k], l) <= Joins(ops[..k], l)
    ensures Leaves(ops, l) <= Joins(ops, l)
    ensures Holds(ops)[l] == Joins(ops, l) - Leaves(ops, l)
  {
    assert ops[..|ops|] == ops;
    if ops != [] {
      var init := ops[..|ops| - 1];
      assert forall k :: 0 <= k <= |init| ==> init[..k] == ops[..k];
      HeldUntilLastLeave(init, l);
      assert ops[|ops| - 1] in ops;
    }
  }

  /** Ensuring a label again and again leaves one reference, which one leave releases. */
  lemma {:induction false} EnsuredOnce(ops: seq<Op>, l: string)
    requires forall i :: 0 <= i < |ops| ==> ops[i] == EnsureOp(l) || ops[i] == ReattachOp
    ensures Holds(ops)[l] == if EnsureOp(l) in ops then 1 else 0
  {
    if ops != [] {
      var init, last := ops[..|ops| - 1], ops[|ops| - 1];
      assert ops == init + [last];
      EnsuredOnce(init, l);
    }
  }

  class TopicRegistry {
    var swarm: Swarm
    var counts: map<string, Ref>
    var byHash: map<Topic, string>

    /** References as a multiset. */
    ghost function Held(): multiset<string>
      reads this
    {
      Unfolded(counts)
    }

    /** Counts are positive, the swarm is joined to exactly the labels held, and the
        reverse map names each of them. */
    ghost predicate Valid()
      reads this, swarm
    {
      && (forall l :: l in counts ==> counts[l].count > 0)
      && (forall t :: t in swarm.joined <==> t.name in counts)
      && (forall t :: t in byHash <==> t.name in counts)
      && (forall t :: t in byHash ==> byHash[t] == t.name)
    }

    constructor (s: Swarm)
      requires s.joined == map[]
      ensures Valid() && Held() == multiset{} && swarm == s
    {
      swarm, counts, byHash := s, map[], map[];
    }

    method Join(name: string, opts: Opts) returns (t: Topic)
      requires Valid()
      modifies this`counts, this`byHash, swarm
      ensures Valid() && t == Topic(name)
      ensures Held() == Apply(old(Held()), JoinOp(name))
      // The newest options are kept for the next swarm; this one keeps those of the first join.
      ensures counts == old(counts)[name := Ref(CountOf(old(counts), name) + 1, opts)]
      ensures swarm.joined == if name in old(counts) then old(swarm.joined) else old(swarm.joined)[t := opts]
    {
      t := Topic(name);
      OneMoreOrLess(Held(), name);
      hide Unfolded;
      var count := if name in counts then counts[name].count + 1 else 1;
      ghost var held := Held();
      SetCount(name, count, opts);
      assert held[name] + 1 == count;
      if count == 1 {
        byHash := byHash[t := name];
        swarm.Join(t, opts);
      }
    }

    method SetCount(name: string, count: nat, opts: Opts)
      modifies this`counts
      ensures counts == old(counts)[name := Ref(count, opts)]
      ensures Held() == old(Held())[name := count]
      ensures old(Held())[name] == CountOf(old(counts), name)
    {
      UnfoldedUpdate(counts, name, Ref(count, opts));
      counts := counts[name := Ref(count, opts)];
    }

    method Ensure(name: string, opts: Opts) returns (t: Topic)
      requires Valid()
      modifies this`counts, this`byHash, swarm
      ensures Valid() && t == Topic(name)
      ensures Held() == Apply(old(Held()), EnsureOp(name))
      ensures counts == if name in old(counts) then old(counts) else old(counts)[name := Ref(1, opts)]
      ensures swarm.joined == if name in old(counts) then old(swarm.joined) else old(swarm.joined)[t := opts]
    {
      if name in counts { return Topic(name); }
      t := Join(name, opts);
    }

    method Leave(name: string)
      requires Valid()
      modifies this`counts, this`byHash, swarm
      ensures Valid() && Held() == Apply(old(Held()), LeaveOp(name))
      ensures counts == if CountOf(old(counts), name) > 1 then old(counts)[name := Ref(old(counts)[name].count - 1, old(counts)[name].opts)]
                        else old(counts) - {name}
      ensures swarm.joined == if CountOf(old(counts), name) > 1 then old(swarm.joined) else old(swarm.joined) - {Topic(name)}
    {
      OneMoreOrLess(Held(), name);
      hide Unfolded;
      if name !in counts {
        assert counts - {name} == counts && swarm.joined - {Topic(name)} == swarm.joined;
        return;
      }
      var ref := counts[name];
      if ref.count > 1 {
        SetCount(name, ref.count - 1, ref.opts);
        return;
      }
      UnfoldedRemove(counts, name);
      counts := counts - {name};
      byHash := byHash - {Topic(name)};
      swarm.Leave(Topic(name));
    }

    /** Onto an empty swarm this restores the membership exactly and changes no count; a
        swarm that was joined to anything else keeps that too. */
    method Reattach(rebuilt: Swarm)
      requires Valid()
      modifies this`swarm, this`byHash, rebuilt
      ensures swarm == rebuilt && counts == old(counts) && Held() == Apply(old(Held()), ReattachOp)
      ensures forall t :: t in swarm.joined <==> t in old(rebuilt.joined) || t.name in counts
      ensures forall t :: t in swarm.joined ==> swarm.joined[t] == if t.name in counts then counts[t.name].opts else old(rebuilt.joined)[t]
      ensures Valid() <==> (forall t :: t in old(rebuilt.joined) ==> t.name in counts)
    {
      swarm := rebuilt;
      var todo := counts.Keys;
      while todo != {}
        invariant todo <= counts.Keys && swarm == rebuilt
        invariant forall t :: t in swarm.joined <==> t in old(rebuilt.joined) || (t.name in counts && t.name !in todo)
        invariant forall t :: t in swarm.joined ==>
          swarm.joined[t] == if t.name in counts && t.name !in todo then counts[t.name].opts else old(rebuilt.joined)[t]
        invariant forall t :: t in byHash <==> t.name in counts
        invariant forall t :: t in byHash ==> byHash[t] == t.name
        decreases |todo|
      {
        var name :| name in todo;
        todo := todo - {name};
        if counts[name].count > 0 {
          byHash := byHash[Topic(name) := name];
          swarm.Join(Topic(name), counts[name].opts);
        }
      }
    }

    /** The reverse lookup finds a label exactly while it is held. */
    method LabelFor(t: Topic) returns (name: Option<string>)
      requires Valid()
      ensures name == if t.name in Held() then Some(t.name) else None
    {
      name := if t in byHash then Some(byHash[t]) else None;
    }
  }

  // ─── Counts as a multiset ─────────────────────────────────────────────────

  function CountOf(counts: map<string, Ref>, l: string): nat {
    if l in counts then counts[l].count else 0
  }

  ghost function Unfolded(counts: map<string, Ref>): (m: multiset<string>)
    ensures forall l :: m[l] == CountOf(counts, l)
    decreases |counts|
  {
    if counts == map[] then multiset{}
    else
      var l :| l in counts;
      Unfolded(counts - {l})[l := counts[l].count]
  }

  lemma UnfoldedUpdate(counts: map<string, Ref>, l: string, r: Ref)
    ensures Unfolded(counts[l := r]) == Unfolded(counts)[l := r.count]
  {
    var a, b := Unfolded(counts[l := r]), Unfolded(counts)[l := r.count];
    forall k ensures a[k] == b[k] {
      assert a[k] == CountOf(counts[l := r], k);
    }
  }

  lemma UnfoldedRemove(counts: map<string, Ref>, l: string)
    ensures Unfolded(counts - {l}) == Unfolded(counts)[l := 0]
  {
    var a, b := Unfolded(counts - {l}), Unfolded(counts)[l := 0];
    forall k ensures a[k] == b[k] {
      assert a[k] == CountOf(counts - {l}, k);
    }
  }

  lemma OneMoreOrLess(m: multiset<string>, l: string)
    ensures m + multiset{l} == m[l := m[l] + 1]
    ensures m[l] > 0 ==> m - multiset{l} == m[l := m[l] - 1]
    ensures m[l] == 0 ==> m - multiset{l} == m
  {
  }
}
