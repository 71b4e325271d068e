/** The bookkeeping of one `update` call, described against a snapshot of
    the registry taken when the call starts: what the backwards sweep over
    the registry has done once it has visited every position above some
    `i`. */
module Sweeping {

  import opened Seqs
  import opened Motion
  import opened ParticleSystem

  /** The registry as `update` found it, with what one step of every
      particle is going to give: the batches `R0` in order, the position
      `Pos` of each, the non-empty ones `NE`, the particle array `P0` of
      each batch and the array `Q0` of its survivors, the state `B` of each
      particle and its state `N` after the step, the particles `X` the step
      removes, and the children `K0` of each container. */
  datatype Snapshot = Snapshot(
    R0: seq<Batch>, Pos: map<Batch, int>, NE: set<Batch>,
    P0: map<Batch, seq<Particle>>, Q0: map<Batch, seq<Particle>>,
    B: map<Particle, ParticleState>, N: map<Particle, ParticleState>, X: set<Particle>,
    K0: map<Container, set<Particle>>)

  /** The particles of the batches past position `i` that the step
      removes. */
  ghost function Gone(w: Snapshot, i: int): set<Particle> {
    set p | p in w.X && p.batch in w.Pos && w.Pos[p.batch] > i
  }

  /** The particles of the batch at position `i` that the step removes. */
  ghost function GoneAt(w: Snapshot, i: int): set<Particle> {
    set p | p in w.X && p.batch in w.Pos && w.Pos[p.batch] == i
  }

  /** The particles of `ps` outside `X`. */
  ghost function Outside(ps: seq<Particle>, X: set<Particle>): set<Particle> {
    set p | p in ps && p !in X
  }

  /** How the snapshot hangs together: `Pos` numbers the batches of `R0`,
      every particle of a batch's array knows that batch and has a recorded
      state and container, and every particle with a recorded state sits
      in its batch's array. */
  ghost predicate Registered(w: Snapshot) {
    Distinct(w.R0) &&
    (forall k :: 0 <= k < |w.R0| ==>
      w.R0[k] in w.Pos && w.Pos[w.R0[k]] == k && w.R0[k] in w.P0 && w.R0[k] in w.Q0 &&
      (w.R0[k] in w.NE <==> w.P0[w.R0[k]] != [])) &&
    (forall b :: b in w.Pos ==> 0 <= w.Pos[b] < |w.R0| && w.R0[w.Pos[b]] == b) &&
    (forall b, p :: b in w.P0 && p in w.P0[b] ==> p.batch == b && p in w.B && p.container in w.K0) &&
    (forall p :: p in w.B ==> p.batch in w.Pos && p.batch in w.P0 && p in w.P0[p.batch] && p in w.N) &&
    (forall p :: p in w.X ==> p in w.B)
  }

  /** What the step gives each particle, from its recorded state: its next
      state, and whether that state has alpha at zero. */
  ghost predicate Steps(w: Snapshot) {
    forall p :: p in w.B ==>
      p in w.N && w.N[p] == Advance(w.B[p], p.Rates(), p.gravity) &&
      (p in w.X <==> Expired(w.N[p]))
  }

  /** What the step leaves of each batch: its array without the particles
      it removes, in order. */
  ghost predicate Survive(w: Snapshot) {
    forall b :: b in w.P0 ==> b in w.Q0 && w.Q0[b] == Filter(w.P0[b], Outside(w.P0[b], w.X))
  }

  /** Every batch of `R0` is well formed. */
  ghost predicate AllValid(R0: seq<Batch>)
    reads R0
  {
    forall b :: b in R0 ==> b.Valid()
  }

  /** The batch arrays once the sweep has visited every position above
      `i`: those batches hold their survivors, the others are untouched. */
  ghost predicate ArraysAt(w: Snapshot, i: int)
    reads w.R0
  {
    forall k :: 0 <= k < |w.R0| && w.R0[k] in w.P0 && w.R0[k] in w.Q0 ==>
      w.R0[k].particles == if k <= i then w.P0[w.R0[k]] else w.Q0[w.R0[k]]
  }

  /** The particle states once the sweep has visited every position above
      `i`: the particles of those batches have stepped once, the others not
      at all. */
  ghost predicate StatesAt(w: Snapshot, i: int)
    reads w.B.Keys
  {
    forall p :: p in w.B && p in w.N && p.batch in w.Pos ==>
      p.state == if w.Pos[p.batch] <= i then w.B[p] else w.N[p]
  }

  /** The container children once the sweep has visited every position
      above `i`: each container has lost the particles of those batches
      that their step removed. */
  ghost predicate ChildrenAt(w: Snapshot, i: int)
    reads w.K0.Keys
  {
    forall c :: c in w.K0 ==> c.children == w.K0[c] - Owned(Gone(w, i), c)
  }

  /** The registry once the sweep has visited every position above `i`:
      the batches past `i` that were empty have been spliced out. */
  ghost predicate RegistryAt(w: Snapshot, i: int, registry: seq<Batch>) {
    -1 <= i < |w.R0| && registry == w.R0[..i + 1] + Filter(w.R0[i + 1..], w.NE)
  }

  /** How far the backwards sweep of `update` over the snapshot `w` has
      come once every position above `i` has been visited: those batches
      have run their inner loop if they were non-empty and were spliced
      out of `registry` if they were empty; positions up to `i` are
      untouched. */
  ghost predicate Swept(w: Snapshot, i: int, registry: seq<Batch>)
    reads w.R0, w.B.Keys, w.K0.Keys
  {
    RegistryAt(w, i, registry) && ArraysAt(w, i) && StatesAt(w, i) && ChildrenAt(w, i)
  }

  /** Where the sweep starts: `registry` is the snapshot's, well formed,
      and nothing has been visited yet. */
  ghost predicate Begun(w: Snapshot, registry: seq<Batch>)
    reads w.R0, w.B.Keys, w.K0.Keys
  {
    registry == w.R0 && AllValid(w.R0) && Registered(w) && Steps(w) && Survive(w) &&
    Swept(w, |registry| - 1, registry)
  }

  /** The particles of the batch at position `i`, before it is visited,
      still have their recorded states. */
  lemma Unvisited(w: Snapshot, i: int)
    requires 0 <= i < |w.R0| && Registered(w) && StatesAt(w, i)
    requires w.R0[i].particles == w.P0[w.R0[i]]
    ensures forall p :: p in w.R0[i].particles ==> p in w.B && p.state == w.B[p]
  {
    forall p | p in w.R0[i].particles
      ensures p in w.B && p.state == w.B[p]
    {
      assert p.batch == w.R0[i] && p in w.N;
    }
  }

  /** A batch whose particles have their recorded states: their next
      states and the batch's survivors are those of the snapshot. */
  lemma KeptAt(w: Snapshot, b: Batch)
    requires Steps(w) && Survive(w) && b in w.P0 && b.particles == w.P0[b]
    requires forall p :: p in b.particles ==> p in w.B && p.state == w.B[p]
    ensures forall p :: p in b.particles ==> p.Next() == w.N[p] && (p.Survives() <==> p !in w.X)
    ensures b.Survivors() == w.Q0[b]
  {
    assert b.Keep() == Outside(w.P0[b], w.X);
  }

  /** The batch at position `i`, whose particles have their recorded
      states: its expiring particles are those of the snapshot at `i`,
      and its particles and containers are recorded. */
  lemma ExpiringAt(w: Snapshot, i: int)
    requires 0 <= i < |w.R0| && Registered(w) && w.R0[i].particles == w.P0[w.R0[i]]
    requires forall p :: p in w.R0[i].particles ==> (p.Survives() <==> p !in w.X)
    ensures w.R0[i].Expiring() == GoneAt(w, i)
    ensures w.R0[i].Members() <= w.B.Keys && w.R0[i].Containers() <= w.K0.Keys
  {
    var b := w.R0[i];
    forall p | p in GoneAt(w, i)
      ensures p in b.particles
    {
      assert p in w.B;
    }
    forall c | c in b.Containers()
      ensures c in w.K0
    {
      var k :| 0 <= k < |b.particles| && c == b.particles[k].container;
    }
  }

  /** The batch `b` at position `i` of a sweep that has come down to `i`,
      before its visit: what its inner loop is going to do is the
      snapshot's (its survivors, its particles' next states and its
      expiring particles), and its particles and their containers are
      recorded. */
  ghost predicate Turn(w: Snapshot, i: int, b: Batch)
    reads w.R0, w.B.Keys, w.K0.Keys, b, b.particles
  {
    Registered(w) && 0 <= i < |w.R0| && b == w.R0[i] && b.particles == w.P0[b] &&
    AllValid(w.R0) && ArraysAt(w, i) && StatesAt(w, i) && ChildrenAt(w, i) &&
    b.Survivors() == w.Q0[b] && (forall p :: p in b.particles ==> p.Next() == w.N[p]) &&
    b.Expiring() == GoneAt(w, i) && b.Members() <= w.B.Keys && b.Containers() <= w.K0.Keys
  }

  /** What the visit of `b` at position `i` relies on about the states. */
  lemma TurnStates(w: Snapshot, i: int, b: Batch)
    requires Turn(w, i, b)
    ensures Registered(w) && 0 <= i < |w.R0| && b == w.R0[i]
    ensures StatesAt(w, i) && b.particles == w.P0[b]
  {
  }

  /** The arrays, states and containers once the batch at position `i`
      has been visited. */
  ghost predicate Turned(w: Snapshot, i: int)
    reads w.R0, w.B.Keys, w.K0.Keys
  {
    AllValid(w.R0) && ArraysAt(w, i - 1) && StatesAt(w, i - 1) && ChildrenAt(w, i - 1)
  }

  /** Before the non-empty batch at position `i` is visited, what its
      inner loop is going to do is the snapshot's. */
  lemma Ready(w: Snapshot, i: int, registry: seq<Batch>)
    requires 0 <= i < |w.R0| && Registered(w) && Steps(w) && Survive(w) && AllValid(w.R0)
    requires Swept(w, i, registry) && w.R0[i].particles == w.P0[w.R0[i]]
    ensures Turn(w, i, w.R0[i])
  {
    Unvisited(w, i);
    KeptAt(w, w.R0[i]);
    ExpiringAt(w, i);
  }

  /** Visiting an empty batch splices it out of the registry and changes
      no array, state or container. */
  lemma Skip(w: Snapshot, i: int, Pre: seq<Batch>, Post: seq<Batch>)
    requires 0 <= i < |w.R0| && Registered(w) && Survive(w) && w.P0[w.R0[i]] == []
    requires Swept(w, i, Pre) && Post == Without(Pre, w.R0[i])
    ensures Swept(w, i - 1, Post)
  {
    SkipArrays(w, i);
    SkipStates(w, i);
    SkipChildren(w, i);
    RegistryStep(w.R0, w.NE, i, Pre, Post);
  }

  /** An empty batch holds its survivors already. */
  lemma SkipArrays(w: Snapshot, i: int)
    requires 0 <= i < |w.R0| && Registered(w) && Survive(w) && w.P0[w.R0[i]] == []
    requires ArraysAt(w, i)
    ensures ArraysAt(w, i - 1)
  {
    assert w.Q0[w.R0[i]] == [];
  }

  /** An empty batch has no particle to step. */
  lemma SkipStates(w: Snapshot, i: int)
    requires 0 <= i < |w.R0| && Registered(w) && w.P0[w.R0[i]] == []
    requires StatesAt(w, i)
    ensures StatesAt(w, i - 1)
  {
    forall p | p in w.B && p in w.N && p.batch in w.Pos
      ensures w.Pos[p.batch] != i
    {
      assert p in w.P0[p.batch];
    }
  }

  /** An empty batch has no particle to remove. */
  lemma SkipChildren(w: Snapshot, i: int)
    requires 0 <= i < |w.R0| && Registered(w) && w.P0[w.R0[i]] == []
    requires ChildrenAt(w, i)
    ensures ChildrenAt(w, i - 1)
  {
    GoneStep(w, i);
    forall p | p in w.X && p.batch in w.Pos
      ensures w.Pos[p.batch] != i
    {
      assert p in w.P0[p.batch];
    }
    assert GoneAt(w, i) == {};
  }

  /** Visiting position `i` moves the registry from the form it has
      before the visit to the one it has after it. */
  lemma RegistryStep(R0: seq<Batch>, NE: set<Batch>, i: int, Pre: seq<Batch>, Post: seq<Batch>)
    requires Distinct(R0) && 0 <= i < |R0|
    requires Pre == R0[..i + 1] + Filter(R0[i + 1..], NE)
    requires R0[i] in NE ==> Post == Pre
    requires R0[i] !in NE ==> Post == Without(Pre, R0[i])
    ensures Post == R0[..i] + Filter(R0[i..], NE)
  {
    FilterStep(R0, i, NE);
    DistinctRemove(R0, i);
    if R0[i] !in NE {
      WithoutFirst(R0[..i], R0[i], Filter(R0[i + 1..], NE));
    }
  }

  /** The visit of the non-empty batch `b` at position `i` changed `b`,
      its particles `M` and their containers `C` and nothing else, and
      left `b` with its survivors: every batch array is where the sweep at
      `i - 1` has it, and every batch is still well formed. */
  twostate lemma VisitArrays(new w: Snapshot, i: int, new b: Batch, new M: set<Particle>, new C: set<Container>)
    requires old(allocated(w)) && old(allocated(b)) && old(Turn(w, i, b))
    requires forall a: Batch :: a in w.R0 && a != b ==> unchanged(a)
    requires b.particles == w.Q0[b] && b.Valid()
    ensures ArraysAt(w, i - 1) && AllValid(w.R0)
  {
    forall k | 0 <= k < |w.R0| && k != i
      ensures w.R0[k].particles == old(w.R0[k].particles) && w.R0[k].Valid()
    {
      var a := w.R0[k];
      assert a in w.R0 && a != b;
      assert unchanged(a);
      assert a.particles == old(a.particles);
      assert old(a.Valid());
      assert a.Valid();
    }
  }

  /** The visit of the batch `b` at position `i` stepped each of its
      particles `old(b.particles)` and changed no other particle: every
      particle state is where the sweep at `i - 1` has it. */
  twostate lemma VisitStates(new w: Snapshot, i: int, new b: Batch, new M: set<Particle>, new C: set<Container>)
    requires old(allocated(w)) && old(allocated(b)) && Registered(w) && 0 <= i < |w.R0| && b == w.R0[i]
    requires old(StatesAt(w, i)) && old(b.particles) == w.P0[b] && M == old(b.Members())
    requires forall o: object :: old(allocated(o)) && o != b && o !in M && o !in C ==> unchanged(o)
    requires forall p :: p in old(b.particles) ==> p.state == w.N[p]
    ensures StatesAt(w, i - 1)
  {
    assert Registered(w) && 0 <= i < |w.R0| && b == w.R0[i];
    assert old(StatesAt(w, i)) && old(b.particles) == w.P0[b];
    forall p | p in w.B && p in w.N && p.batch in w.Pos
      ensures p.state == if w.Pos[p.batch] < i then w.B[p] else w.N[p]
    {
      if p.batch != b {
        assert p !in M;
      }
    }
  }

  /** The visit of the batch `b` at position `i` took its expiring
      particles out of their containers `C` and changed no other
      container: every container's children are where the sweep at
      `i - 1` has them. */
  twostate lemma VisitChildren(new w: Snapshot, i: int, new b: Batch, new M: set<Particle>, new C: set<Container>)
    requires old(allocated(w)) && old(allocated(b)) && old(Turn(w, i, b)) && C == old(b.Containers())
    requires forall o: object :: old(allocated(o)) && o != b && o !in M && o !in C ==> unchanged(o)
    requires forall c :: c in C ==> c.children == old(c.children) - Owned(GoneAt(w, i), c)
    ensures ChildrenAt(w, i - 1)
  {
    GoneStep(w, i);
    forall c | c in w.K0
      ensures c.children == w.K0[c] - Owned(Gone(w, i - 1), c)
    {
      assert Owned(Gone(w, i - 1), c) == Owned(Gone(w, i), c) + Owned(GoneAt(w, i), c);
      if c !in C {
        forall p | p in GoneAt(w, i)
          ensures p.container != c
        {
          var k :| 0 <= k < |w.P0[b]| && w.P0[b][k] == p;
        }
        assert Owned(GoneAt(w, i), c) == {};
      }
    }
  }

  /** Once every position has been visited, the registry is the snapshot's
      without its empty batches, in order, with no batch twice and every
      batch well formed. */
  lemma RegistryDone(w: Snapshot, registry: seq<Batch>)
    requires Registered(w) && AllValid(w.R0) && RegistryAt(w, -1, registry)
    ensures registry == Filter(w.R0, w.NE)
    ensures Distinct(registry) && AllValid(registry)
  {
    assert w.R0[..0] == [] && w.R0[0..] == w.R0;
    FilterDistinct(w.R0, w.NE);
    forall b | b in registry
      ensures b in w.R0
    {
      FilterMembers(w.R0, w.NE, b);
    }
  }

  /** Once every position has been visited, every batch holds its
      survivors. */
  lemma ArraysDone(w: Snapshot)
    requires Registered(w) && ArraysAt(w, -1)
    ensures forall b :: b in w.R0 ==> b.particles == w.Q0[b]
  {
    forall b | b in w.R0
      ensures b.particles == w.Q0[b]
    {
      var k :| 0 <= k < |w.R0| && w.R0[k] == b;
    }
  }

  /** Once every position has been visited, every particle has stepped
      once. */
  lemma StatesDone(w: Snapshot)
    requires Registered(w) && StatesAt(w, -1)
    ensures forall p :: p in w.B ==> p.state == w.N[p]
  {
    forall p | p in w.B
      ensures p.state == w.N[p]
    {
      assert p.batch in w.Pos && p in w.N;
    }
  }

  /** Once every position has been visited, every container has lost the
      particles the step removes. */
  lemma ChildrenDone(w: Snapshot)
    requires Registered(w) && ChildrenAt(w, -1)
    ensures forall c :: c in w.K0 ==> c.children == w.K0[c] - Owned(w.X, c)
  {
    assert Gone(w, -1) == w.X;
  }

  /** The particles removed past position `i - 1` are those removed past
      `i` and those of the batch at `i`. */
  lemma GoneStep(w: Snapshot, i: int)
    ensures Gone(w, i - 1) == Gone(w, i) + GoneAt(w, i)
  {
  }
}
