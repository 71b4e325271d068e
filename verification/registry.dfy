/** The `Dust` object itself: its construction, the registry
    `globalParticles` of particle batches, `create` with its
    `makeParticle`, and the game-loop `update`. */
module Registry {

  import opened Seqs
  import opened Motion
  import opened Emission
  import opened ParticleSystem
  import opened Sweeping

  datatype Option<T> = None | Some(value: T)

  datatype Result<T> = Success(value: T) | Failure(error: string)

  /** The rendering engine handed to the constructor; only whether it
      offers a `ParticleContainer` matters. */
  datatype Engine = Engine(hasParticleContainer: bool)

  const ENGINE_MISSING: string :=
    "Please assign a rendering engine in the constructor before using pixiDust.js"

  /** The `renderer` name the constructor records for an engine. */
  function RendererFor(engine: Engine): (name: string)
    ensures name == "pixi" <==> engine.hasParticleContainer
    ensures name == "" || name == "pixi"
  {
    if engine.hasParticleContainer then "pixi" else ""
  }

  /** `new Dust(renderingEngine)`: an undefined engine is an error with the
      constructor's message; otherwise a particle system with an empty
      registry. */
  method NewDust(engine: Option<Engine>) returns (r: Result<Dust>)
    ensures engine.None? <==> r.Failure?
    ensures r.Failure? ==> r.error == ENGINE_MISSING
    ensures r.Success? ==>
      fresh(r.value) && r.value.registry == [] && r.value.Valid() &&
      (r.value.renderer == "pixi" <==> engine.value.hasParticleContainer)
  {
    if engine.None? {
      return Failure(ENGINE_MISSING);
    }
    var d := new Dust(engine.value);
    return Success(d);
  }

  /** The particle system: the registry of batches and the renderer name. */
  class Dust {
    const renderer: string
    var registry: seq<Batch>

    constructor (engine: Engine)
      ensures registry == [] && renderer == RendererFor(engine)
    {
      renderer := RendererFor(engine);
      registry := [];
    }

    /** Every particle of every batch. */
    ghost function Particles(): set<Particle>
      reads this, registry
    {
      set b, p | b in registry && p in b.particles :: p
    }

    /** The containers of every particle. */
    ghost function Containers(): set<Container>
      reads this, registry
    {
      set b, p | b in registry && p in b.particles :: p.container
    }

    /** The particles that their next step removes. */
    ghost function Expiring(): set<Particle>
      reads this, registry, Particles()
    {
      set p | p in Particles() && !p.Survives()
    }

    /** The batches that hold a particle. */
    ghost function NonEmptySet(): set<Batch>
      reads this, registry
    {
      set b | b in registry && b.particles != []
    }

    /** The registry without its empty batches, in order. */
    ghost function NonEmpty(): seq<Batch>
      reads this, registry
    {
      Filter(registry, NonEmptySet())
    }

    /** No batch twice, and every batch well formed. */
    ghost predicate Valid()
      reads this, registry
    {
      Distinct(registry) && AllValid(registry)
    }

    ghost function Arrays(): map<Batch, seq<Particle>>
      reads this, registry
    {
      map b | b in registry :: b.particles
    }

    /** The registry, its particles and their containers as they are now,
        with what one step of every particle would give. */
    ghost function Snap(): Snapshot
      reads this, registry, Particles(), Containers()
    {
      assert forall b, p :: b in registry && p in b.particles ==> p in Particles();
      Snapshot(registry, map b | b in registry :: IndexOf(registry, b), NonEmptySet(),
               Arrays(), map b | b in registry :: b.Survivors(),
               map p | p in Particles() :: p.state, map p | p in Particles() :: p.Next(),
               Expiring(), map c | c in Containers() :: c.children)
    }

    /** `makeParticle(angle)`: a new particle from the sprite and the draws
        goes to the end of `batch` and into `container`. */
    method MakeParticle(cfg: Config, sprite: Sprite, angle: real, d: Draws,
                        cos: real -> real, sin: real -> real, batch: Batch, container: Container)
      returns (p: Particle)
      requires ValidDraws(d)
      modifies batch, container
      ensures fresh(p)
      ensures Made(p, cfg, sprite, angle, d, cos, sin, batch, container)
      ensures batch.particles == old(batch.particles) + [p]
      ensures container.children == old(container.children) + {p}
      ensures forall q :: q in old(batch.particles) ==> q.state == old(q.state)
    {
      var init := Spawn(cfg, sprite, angle, d, cos, sin);
      p := new Particle(sprite, init, cfg.gravity, batch, container);
      batch.particles := batch.particles + [p];
      container.children := container.children + {p};
    }

    /** `create`: the new batch joins the end of the registry before any
        particle is made; then one particle per emission angle, each at
        (x, y), goes into the batch and the container. `sprites` are what
        the sprite factory returns, `angleDraws` the draws of the random
        angles and `draws` the draws of each particle. */
    method Create(cfg: Config, sprites: seq<Sprite>, container: Container,
                  angleDraws: seq<real>, draws: seq<Draws>,
                  cos: real -> real, sin: real -> real)
      returns (batch: Batch)
      requires Valid()
      requires cfg.randomSpacing ==>
        |angleDraws| == Count(cfg.numberOfParticles) && AllDraws(angleDraws)
      requires |sprites| == |draws| == Count(cfg.numberOfParticles)
      requires forall i :: 0 <= i < |draws| ==> ValidDraws(draws[i])
      modifies this, container
      ensures Valid()
      ensures fresh(batch) && registry == old(registry) + [batch]
      ensures forall b :: b in old(registry) ==> b.particles == old(b.particles)
      ensures |batch.particles| == Count(cfg.numberOfParticles)
      ensures forall i :: 0 <= i < |batch.particles| ==> fresh(batch.particles[i])
      ensures forall i :: 0 <= i < |batch.particles| ==>
        Made(batch.particles[i], cfg, sprites[i], EmissionAngles(cfg, angleDraws)[i], draws[i],
             cos, sin, batch, container)
      ensures container.children == old(container.children) + batch.Members()
    {
      batch := new Batch();
      registry := registry + [batch];
      var angles := ComputeAngles(cfg, angleDraws);
      Fill(cfg, sprites, angles, draws, cos, sin, batch, container);
      assert batch !in old(registry);
    }

    /** The particle loop of `create`: one particle per angle, in order. */
    method Fill(cfg: Config, sprites: seq<Sprite>, angles: seq<real>, draws: seq<Draws>,
                cos: real -> real, sin: real -> real, batch: Batch, container: Container)
      requires |sprites| == |draws| == |angles|
      requires forall i :: 0 <= i < |draws| ==> ValidDraws(draws[i])
      requires batch.particles == [] && batch.Valid()
      modifies batch, container
      ensures batch.Valid() && |batch.particles| == |angles|
      ensures forall k :: 0 <= k < |angles| ==> fresh(batch.particles[k])
      ensures forall k :: 0 <= k < |angles| ==>
        Made(batch.particles[k], cfg, sprites[k], angles[k], draws[k], cos, sin, batch, container)
      ensures container.children == old(container.children) + batch.Members()
    {
      var i := 0;
      while i < |angles|
        invariant 0 <= i <= |angles|
        invariant |batch.particles| == i
        invariant forall k :: 0 <= k < i ==> fresh(batch.particles[k])
        invariant forall k :: 0 <= k < i ==>
          Made(batch.particles[k], cfg, sprites[k], angles[k], draws[k], cos, sin, batch, container)
        invariant batch.Valid()
        invariant container.children == old(container.children) + batch.Members()
      {
        ghost var before := batch.particles;
        var p := MakeParticle(cfg, sprites[i], angles[i], draws[i], cos, sin, batch, container);
        assert p !in before;
        i := i + 1;
      }
    }

    /** `update`: when the registry holds any batch, walks it from the last
        batch to the first. A batch that is non-empty at its visit runs its
        inner loop; an empty one is spliced out of the registry. A batch
        that its own inner loop empties therefore stays until the next
        call. */
    method Update()
      requires Valid()
      modifies this, registry, Particles(), Containers()
      ensures Valid()
      ensures registry == old(NonEmpty())
      ensures forall b :: b in old(registry) ==> b.particles == old(b.Survivors())
      ensures forall p :: p in old(Particles()) ==> p.state == old(p.Next())
      ensures forall c :: c in old(Containers()) ==>
        c.children == old(c.children) - Owned(old(Expiring()), c)
    {
      ghost var w := Snap();
      UpdateStart(this);
      SnapValues(this);
      Sweep(w);
    }

    /** The outer loop of `update`, run when the registry holds any batch,
        and what it leaves behind. */
    method Sweep(ghost w: Snapshot)
      requires Begun(w, registry)
      modifies this, w.R0, w.B.Keys, w.K0.Keys
      ensures Valid()
      ensures registry == Filter(w.R0, w.NE)
      ensures forall b :: b in w.R0 ==> b.particles == w.Q0[b]
      ensures forall p :: p in w.B ==> p.state == w.N[p]
      ensures forall c :: c in w.K0 ==> c.children == w.K0[c] - Owned(w.X, c)
    {
      if |registry| > 0 {
        SweepAll(w);
      }
      UpdateEnd(this, w);
    }

    /** The loop over the registry, from the last batch to the first. */
    method SweepAll(ghost w: Snapshot)
      requires registry == w.R0 && AllValid(w.R0) && Registered(w) && Steps(w) && Survive(w)
      requires Swept(w, |registry| - 1, registry)
      modifies this, w.R0, w.B.Keys, w.K0.Keys
      ensures AllValid(w.R0) && Swept(w, -1, registry)
    {
      var i := |registry| - 1;
      while i >= 0
        invariant -1 <= i < |w.R0|
        invariant AllValid(w.R0)
        invariant Swept(w, i, registry)
      {
        SweepAt(i, w);
        i := i - 1;
      }
    }

    /** The body of the outer loop of `update` at position `i`. */
    method SweepAt(i: int, ghost w: Snapshot)
      requires 0 <= i < |w.R0| && AllValid(w.R0) && Registered(w) && Steps(w) && Survive(w)
      requires Swept(w, i, registry)
      modifies this, w.R0[i], w.B.Keys, w.K0.Keys
      ensures AllValid(w.R0) && Swept(w, i - 1, registry)
    {
      Visiting(this, w, i);
      var particles := registry[i];
      if |particles.particles| > 0 {
        VisitAt(particles, i, w);
      } else {
        SkipAt(particles, i, w);
      }
    }

    /** The visit of the non-empty batch `b` at position `i` of the sweep:
        its inner loop runs and the registry stays as it is. */
    method VisitAt(b: Batch, i: int, ghost w: Snapshot)
      requires 0 <= i < |w.R0| && AllValid(w.R0) && Registered(w) && Steps(w) && Survive(w)
      requires Swept(w, i, registry) && b == w.R0[i] && b.particles == w.P0[b] && b in w.NE
      modifies b, w.B.Keys, w.K0.Keys
      ensures AllValid(w.R0) && Swept(w, i - 1, registry)
    {
      ghost var R := registry;
      Ready(w, i, R);
      Visit(b, i, w);
      RegistryStep(w.R0, w.NE, i, R, R);
    }

    /** The visit of the empty batch `b` at position `i` of the sweep: it
        is spliced out of the registry. */
    method SkipAt(b: Batch, i: int, ghost w: Snapshot)
      requires 0 <= i < |w.R0| && AllValid(w.R0) && Registered(w) && Survive(w)
      requires Swept(w, i, registry) && b == w.R0[i] && w.P0[b] == []
      modifies this
      ensures AllValid(w.R0) && Swept(w, i - 1, registry)
    {
      Skip(w, i, registry, Without(registry, b));
      Drop(b, i, w);
    }

    /** `globalParticles.splice(globalParticles.indexOf(b), 1)`. */
    method Drop(b: Batch, i: int, ghost w: Snapshot)
      requires AllValid(w.R0) && Swept(w, i - 1, Without(registry, b))
      modifies this
      ensures registry == Without(old(registry), b)
      ensures AllValid(w.R0) && Swept(w, i - 1, registry)
    {
      registry := Without(registry, b);
    }
  }

  /** The inner loop of `update` on the non-empty batch `b` at position `i`
      of the sweep, whose survivors, next states and expiring particles
      are those of the snapshot. */
  method Visit(b: Batch, i: int, ghost w: Snapshot)
    requires Turn(w, i, b)
    modifies b, w.B.Keys, w.K0.Keys
    ensures Turned(w, i)
  {
    TurnStates(w, i, b);
    ghost var M, C := b.Members(), b.Containers();
    b.StepAll();
    VisitArrays(w, i, b, M, C);
    VisitStates(w, i, b, M, C);
    VisitChildren(w, i, b, M, C);
  }

  /** The batches `update` keeps are exactly those that hold a particle when
      it starts, so an empty registry stays empty, a batch that is empty
      at the start is dropped, and a batch that its own particles empty
      during the call is still there afterwards (and is dropped by the
      next call). */
  lemma NonEmptyKeeps(d: Dust)
    ensures forall b :: b in d.NonEmpty() <==> b in d.registry && b.particles != []
    ensures d.registry == [] ==> d.NonEmpty() == []
  {
    forall b
      ensures b in d.NonEmpty() <==> b in d.registry && b.particles != []
    {
      FilterMembers(d.registry, d.NonEmptySet(), b);
    }
  }

  /** The snapshot taken at the start of `update` describes a sweep. */
  lemma StartRegistered(d: Dust)
    requires d.Valid()
    ensures Registered(d.Snap())
  {
    StartPositions(d);
    StartOwners(d);
    StartRecorded(d);
  }

  /** At the start of `update`, `Pos` numbers the batches of the
      registry. */
  lemma StartPositions(d: Dust)
    requires d.Valid()
    ensures forall k :: 0 <= k < |d.registry| ==> d.Snap().Pos[d.registry[k]] == k
  {
    var w := d.Snap();
    forall k | 0 <= k < |w.R0|
      ensures w.Pos[w.R0[k]] == k
    {
      var j := IndexOf(w.R0, w.R0[k]);
    }
  }

  /** At the start of `update`, every particle of a batch knows that batch
      and has a recorded state and container. */
  lemma StartOwners(d: Dust)
    requires d.Valid()
    ensures forall b: Batch, p: Particle :: b in d.Snap().P0 && p in d.Snap().P0[b] ==>
      p.batch == b && p in d.Snap().B && p.container in d.Snap().K0
  {
    var w := d.Snap();
    forall b: Batch, p: Particle | b in w.P0 && p in w.P0[b]
      ensures p.batch == b && p in w.B && p.container in w.K0
    {
      assert b.Valid();
    }
  }

  /** At the start of `update`, every particle with a recorded state sits
      in its batch's array. */
  lemma StartRecorded(d: Dust)
    requires d.Valid()
    ensures forall p :: p in d.Snap().B ==>
      p.batch in d.Snap().Pos && p.batch in d.Snap().P0 && p in d.Snap().P0[p.batch] && p in d.Snap().N
  {
    var w := d.Snap();
    forall p | p in w.B
      ensures p.batch in w.Pos && p.batch in w.P0 && p in w.P0[p.batch] && p in w.N
    {
      var b :| b in w.R0 && p in b.particles;
      assert b.Valid();
    }
  }

  /** Where the sweep starts: nothing visited yet. */
  lemma StartUpdated(d: Dust)
    requires d.Valid()
    ensures Swept(d.Snap(), |d.registry| - 1, d.registry)
  {
    var w := d.Snap();
    assert w.R0[..|w.R0|] == w.R0 && w.R0[|w.R0|..] == [];
    assert Gone(w, |w.R0| - 1) == {} by {
      forall b | b in w.Pos ensures w.Pos[b] < |w.R0| {
        var j := IndexOf(w.R0, b);
      }
    }
    assert forall c :: Owned({}, c) == {};
  }

  /** The next states recorded at the start are those one step of each
      particle gives, and the particles recorded as removed are those
      whose next state has alpha at zero. */
  lemma StartSteps(d: Dust)
    requires d.Valid()
    ensures Steps(d.Snap())
  {
  }

  /** The survivors recorded at the start are each batch's array without
      the particles the step removes. */
  lemma StartSurvive(d: Dust)
    requires d.Valid()
    ensures Survive(d.Snap())
  {
    var w := d.Snap();
    forall b | b in w.P0
      ensures b.Keep() == Outside(w.P0[b], w.X)
    {
      assert forall p :: p in b.particles ==> p in d.Particles();
    }
  }

  /** Where the sweep starts, and what the snapshot taken there says. */
  lemma UpdateStart(d: Dust)
    requires d.Valid()
    ensures Begun(d.Snap(), d.registry)
    ensures d.Snap().B.Keys == d.Particles() && d.Snap().K0.Keys == d.Containers()
  {
    StartRegistered(d);
    StartSteps(d);
    StartSurvive(d);
    StartUpdated(d);
  }

  /** What the snapshot records, entry by entry. */
  lemma SnapValues(d: Dust)
    requires d.Valid()
    ensures d.Snap().R0 == d.registry && d.Snap().NE == d.NonEmptySet() && d.Snap().X == d.Expiring()
    ensures forall b :: b in d.registry ==> d.Snap().Q0[b] == b.Survivors()
    ensures forall p :: p in d.Particles() ==> d.Snap().N[p] == p.Next()
    ensures forall c :: c in d.Containers() ==> d.Snap().K0[c] == c.children
  {
  }

  /** The sweep has visited every position: the registry has lost its
      empty batches, each batch holds its survivors, each particle has its
      next state and each container has lost the expiring particles. */
  lemma UpdateEnd(d: Dust, w: Snapshot)
    requires AllValid(w.R0) && Registered(w) && Swept(w, -1, d.registry)
    ensures d.Valid()
    ensures d.registry == Filter(w.R0, w.NE)
    ensures forall b :: b in w.R0 ==> b.particles == w.Q0[b]
    ensures forall p :: p in w.B ==> p.state == w.N[p]
    ensures forall c :: c in w.K0 ==> c.children == w.K0[c] - Owned(w.X, c)
  {
    RegistryDone(w, d.registry);
    ArraysDone(w);
    StatesDone(w);
    ChildrenDone(w);
  }

  /** The batch at position `i` of a sweep that has come down to `i`: it is
      the registry's entry `i` and still holds its recorded particles. */
  lemma Visiting(d: Dust, w: Snapshot, i: int)
    requires 0 <= i < |w.R0| && AllValid(w.R0) && Registered(w)
    requires RegistryAt(w, i, d.registry) && ArraysAt(w, i)
    ensures d.registry[i] == w.R0[i] && w.R0[i].Valid()
    ensures w.R0[i].particles == w.P0[w.R0[i]] && (w.R0[i] in w.NE <==> w.R0[i].particles != [])
  {
    assert d.registry[i] == (w.R0[..i + 1] + Filter(w.R0[i + 1..], w.NE))[i];
  }
}
