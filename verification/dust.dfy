/** The `Dust` class: the registry of particle batches, `create`, the
    per-particle step that `create` attaches, and `update`. Particles,
    batches and containers are objects shared by reference, as in the
    source: a particle sits in one batch and in its display container, and
    both references are dropped in the same step. */
module ParticleSystem {

  import opened Seqs
  import opened Random
  import opened Motion
  import opened Emission

  /** The display container `create` adds particles to. Only its list of
      children matters here; their display order is not modelled. */
  class Container {
    var children: set<Particle>

    constructor ()
      ensures children == {}
    {
      children := {};
    }
  }

  /** One batch: the `particles` array made by one `create` call. */
  class Batch {
    var particles: seq<Particle>

    constructor ()
      ensures particles == []
    {
      particles := [];
    }

    ghost function Members(): set<Particle>
      reads this
    {
      set k | 0 <= k < |particles| :: particles[k]
    }

    ghost function Containers(): set<Container>
      reads this
    {
      set k | 0 <= k < |particles| :: particles[k].container
    }

    /** No particle twice, and each particle knows this batch as its own
        (the array its `updateParticle` splices itself out of). */
    ghost predicate Valid()
      reads this
    {
      Distinct(particles) && forall p :: p in particles ==> p.batch == this
    }

    /** The particles that outlive their next step. */
    ghost function Keep(): set<Particle>
      reads this, particles
    {
      set p | p in particles && p.Survives()
    }

    /** The particles that outlive their next step, in their order. */
    ghost function Survivors(): seq<Particle>
      reads this, particles
    {
      Filter(particles, Keep())
    }

    /** The particles that their next step removes. */
    ghost function Expiring(): set<Particle>
      reads this, particles
    {
      set p | p in particles && !p.Survives()
    }

    /** The children of every container of this batch's particles. */
    ghost function Children(): map<Container, set<Particle>>
      reads this, Containers()
    {
      map c | c in Containers() :: c.children
    }

    /** How far the backwards walk of `update` over the particles `P0` has
        come once every position above `j` has been visited: those particles
        have stepped from their states `B0` and the ones that expired
        (those outside `S`) have left this array and their containers,
        whose children were `K0`; positions up to `j` are untouched. */
    ghost predicate Walked(P0: seq<Particle>, B0: seq<ParticleState>, S: set<Particle>,
                           K0: map<Container, set<Particle>>, j: int)
      reads this, (set p | p in P0), K0.Keys
    {
      -1 <= j < |P0| == |B0| &&
      particles == P0[..j + 1] + Filter(P0[j + 1..], S) &&
      (forall k :: 0 <= k <= j ==> P0[k].state == B0[k]) &&
      (forall k :: j < k < |P0| ==> P0[k].state == Advance(B0[k], P0[k].Rates(), P0[k].gravity)) &&
      forall c :: c in K0 ==> c.children == K0[c] - Owned(Dropped(P0[j + 1..], S), c)
    }

    /** The body of the inner loop of `update`: the particle at position
        `j` runs its step. If that step expires it, the particle leaves its
        container and this array, and the particles before `j` keep their
        positions. The ghost parameters describe the walk `StepAll` is on;
        the visit moves it from position `j` to position `j - 1`. */
    method StepAt(j: int, ghost P0: seq<Particle>, ghost B0: seq<ParticleState>,
                  ghost S: set<Particle>, ghost K0: map<Container, set<Particle>>)
      requires Valid() && 0 <= j < |particles|
      requires Walked(P0, B0, S, K0, j) && Walkable(P0, B0, S, K0)
      modifies P0[j], this, P0[j].container
      ensures Valid() && Walked(P0, B0, S, K0, j - 1)
      ensures old(particles[j]).state == old(particles[j].Next())
      ensures old(particles[j].Survives()) ==>
        particles == old(particles) &&
        old(particles[j]).container.children == old(particles[j].container.children)
      ensures !old(particles[j].Survives()) ==>
        particles == old(particles[..j] + particles[j + 1..]) &&
        old(particles[j]).container.children == old(particles[j].container.children) - {old(particles[j])}
    {
      var p := particles[j];
      ghost var P := particles;
      ghost var kids := p.container.children;
      DistinctRemove(P, j);
      WithoutFirst(P[..j], p, P[j + 1..]);
      FilterStep(P0, j, S);
      assert p == P0[j] && p.batch == this;
      p.Step();
      WalkStep(this, P0, B0, S, K0, j, P, kids);
    }

    /** The inner loop of `update`: every particle, from the last to the
        first, runs its step. A particle that expires splices itself out of
        this array; walking backwards keeps the positions still to be
        visited intact, so each particle present at the start is stepped
        exactly once. */
    method StepAll()
      requires Valid()
      modifies this, Members(), Containers()
      ensures Valid()
      ensures particles == old(Survivors())
      ensures forall p :: p in old(particles) ==> p.state == old(p.Next())
      ensures forall c :: c in old(Containers()) ==>
        c.children == old(c.children) - Owned(old(Expiring()), c)
    {
      ghost var P0 := particles;
      ghost var B0 := States(P0);
      ghost var S := Keep();
      ghost var K0 := Children();
      WalkStart(this);
      Walk(P0, B0, S, K0);
      WalkEnd(this, P0, B0, S, K0);
    }

    /** The loop of `StepAll`, over the walk that starts at the particles
        `P0` with states `B0`, survivors `S` and container children `K0`. */
    method Walk(ghost P0: seq<Particle>, ghost B0: seq<ParticleState>,
                ghost S: set<Particle>, ghost K0: map<Container, set<Particle>>)
      requires Valid() && Walkable(P0, B0, S, K0) && Walked(P0, B0, S, K0, |P0| - 1)
      modifies this, set k | 0 <= k < |P0| :: P0[k], set k | 0 <= k < |P0| :: P0[k].container
      ensures Valid() && Walked(P0, B0, S, K0, -1)
    {
      var j := |particles| - 1;
      while j >= 0
        invariant -1 <= j < |P0|
        invariant Valid()
        invariant Walked(P0, B0, S, K0, j)
      {
        StepAt(j, P0, B0, S, K0);
        j := j - 1;
      }
    }
  }

  /** The states of the particles `ps`, in order. */
  ghost function States(ps: seq<Particle>): (r: seq<ParticleState>)
    reads set p | p in ps
    ensures |r| == |ps| && forall k :: 0 <= k < |ps| ==> r[k] == ps[k].state
  {
    if ps == [] then [] else [ps[0].state] + States(ps[1..])
  }

  /** The particles of `s` outside `keep`. */
  ghost function Dropped(s: seq<Particle>, keep: set<Particle>): set<Particle> {
    set p | p in s && p !in keep
  }

  /** The particles of `ps` whose container is `c`. */
  ghost function Owned(ps: set<Particle>, c: Container): set<Particle> {
    set p | p in ps && p.container == c
  }

  /** Where the walk starts: nothing visited yet. */
  lemma WalkStart(b: Batch)
    requires b.Valid()
    ensures b.Walked(b.particles, States(b.particles), b.Keep(), b.Children(), |b.particles| - 1)
    ensures Walkable(b.particles, States(b.particles), b.Keep(), b.Children())
    ensures Dropped(b.particles, b.Keep()) == b.Expiring()
  {
    WalkStartWalked(b);
    WalkStartWalkable(b);
  }

  /** At the start of the walk the array is the walk's own sequence, and
      nothing has been dropped from any container. */
  lemma WalkStartWalked(b: Batch)
    ensures b.Walked(b.particles, States(b.particles), b.Keep(), b.Children(), |b.particles| - 1)
  {
    var P0 := b.particles;
    assert P0[..|P0|] == P0 && P0[|P0|..] == [];
    assert Dropped([], b.Keep()) == {};
    assert forall c :: Owned({}, c) == {};
  }

  /** A valid batch starts a walk over distinct particles whose containers
      are all recorded and whose survivors are those that outlive a step. */
  lemma WalkStartWalkable(b: Batch)
    requires b.Valid()
    ensures Walkable(b.particles, States(b.particles), b.Keep(), b.Children())
  {
    var P0 := b.particles;
    assert forall k :: 0 <= k < |P0| ==> P0[k] in P0;
  }

  /** Facts about a walk that hold throughout it: `P0` has no repetitions,
      `S` holds exactly the particles whose step from `B0` leaves them
      alive, and `K0` covers every container involved. */
  ghost predicate Walkable(P0: seq<Particle>, B0: seq<ParticleState>, S: set<Particle>,
                           K0: map<Container, set<Particle>>)
  {
    |B0| == |P0| && Distinct(P0) &&
    forall k :: 0 <= k < |P0| ==>
      P0[k].container in K0 &&
      (P0[k] in S <==> !Expired(Advance(B0[k], P0[k].Rates(), P0[k].gravity)))
  }

  /** One visit of the walk, from position `j` to position `j - 1`: `Pre`
      and `kids` are the array and the children of the visited particle's
      container before the visit; the other `requires` are what the walk
      so far and the visit's step say about the state after it. */
  lemma WalkStep(b: Batch, P0: seq<Particle>, B0: seq<ParticleState>, S: set<Particle>,
                 K0: map<Container, set<Particle>>, j: int, Pre: seq<Particle>, kids: set<Particle>)
    requires 0 <= j < |P0| && Walkable(P0, B0, S, K0)
    requires Pre == P0[..j + 1] + Filter(P0[j + 1..], S)
    requires P0[j].state == Advance(B0[j], P0[j].Rates(), P0[j].gravity)
    requires kids == K0[P0[j].container] - Owned(Dropped(P0[j + 1..], S), P0[j].container)
    requires P0[j] in S ==> b.particles == Pre && P0[j].container.children == kids
    requires P0[j] !in S ==>
      b.particles == Pre[..j] + Pre[j + 1..] && P0[j].container.children == kids - {P0[j]}
    requires forall k :: 0 <= k < j ==> P0[k].state == B0[k]
    requires forall k :: j < k < |P0| ==> P0[k].state == Advance(B0[k], P0[k].Rates(), P0[k].gravity)
    requires forall c :: c in K0 && c != P0[j].container ==>
      c.children == K0[c] - Owned(Dropped(P0[j + 1..], S), c)
    ensures b.Walked(P0, B0, S, K0, j - 1)
  {
    var p := P0[j];
    var rest := Filter(P0[j + 1..], S);
    FilterStep(P0, j, S);
    assert Pre[..j] == P0[..j] && Pre[j + 1..] == rest;
    assert Dropped(P0[j..], S) == Dropped(P0[j + 1..], S) + (if p in S then {} else {p}) by {
      assert P0[j..] == [p] + P0[j + 1..];
    }
    if p !in S {
      assert b.particles == P0[..j] + rest;
    }
  }

  /** The walk has visited every position: every particle has stepped,
      the array holds the survivors in order, and each container has lost
      exactly its expired particles. */
  lemma WalkEnd(b: Batch, P0: seq<Particle>, B0: seq<ParticleState>, S: set<Particle>,
                K0: map<Container, set<Particle>>)
    requires b.Walked(P0, B0, S, K0, -1)
    ensures b.particles == Filter(P0, S)
    ensures forall k :: 0 <= k < |P0| ==> P0[k].state == Advance(B0[k], P0[k].Rates(), P0[k].gravity)
    ensures forall c :: c in K0 ==> c.children == K0[c] - Owned(Dropped(P0, S), c)
  {
    assert P0[0..] == P0;
  }

  /** A particle that `makeParticle` set up: its fields are those of
      `Spawn` for its sprite, angle and draws, and its step will work on
      `batch` and `container`. */
  ghost predicate Made(p: Particle, cfg: Config, sprite: Sprite, angle: real, d: Draws,
                       cos: real -> real, sin: real -> real, batch: Batch, container: Container)
    requires ValidDraws(d)
    reads p
  {
    var s := Spawn(cfg, sprite, angle, d, cos, sin);
    p.state == s.state && p.Rates() == s.rates &&
    p.width == s.size && p.height == s.size && p.frame == s.frame &&
    p.totalFrames == sprite.totalFrames &&
    p.gravity == cfg.gravity && p.batch == batch && p.container == container
  }

  /** A particle `makeParticle` set up starts at (x, y) with the sprite's
      scale, rotation and alpha, is square with a size in [minSize,
      maxSize], shows a frame in [0, totalFrames - 1] when the sprite is
      animated, and has its rates in their ranges. */
  lemma MadeStart(p: Particle, cfg: Config, sprite: Sprite, angle: real, d: Draws,
                  cos: real -> real, sin: real -> real, batch: Batch, container: Container)
    requires ValidDraws(d) && Made(p, cfg, sprite, angle, d, cos, sin, batch, container)
    ensures p.state.x == cfg.x && p.state.y == cfg.y
    ensures p.state.scaleX == sprite.scaleX && p.state.scaleY == sprite.scaleY
    ensures p.state.rotation == sprite.rotation && p.state.alpha == sprite.alpha
    ensures p.width == p.height
    ensures cfg.minSize <= cfg.maxSize ==> cfg.minSize <= p.width <= cfg.maxSize
    ensures 0 < sprite.totalFrames ==> 0 <= p.frame <= sprite.totalFrames - 1
    ensures cfg.minAlphaSpeed <= cfg.maxAlphaSpeed ==>
      cfg.minAlphaSpeed <= p.alphaSpeed <= cfg.maxAlphaSpeed
    ensures cfg.minScaleSpeed <= cfg.maxScaleSpeed ==>
      cfg.minScaleSpeed <= p.scaleSpeed <= cfg.maxScaleSpeed
  {
  }

  /** A particle: the sprite `spriteFunction` returned, with the fields
      `makeParticle` gives it. The sprite properties `updateParticle`
      changes (position, velocity, scale, rotation, alpha) are gathered in
      the record `state`; `gravity`, `batch` and `container` are what the
      `updateParticle` closure captures. */
  class Particle {
    var state: ParticleState
    const width: int
    const height: int
    const totalFrames: int
    const frame: int
    const scaleSpeed: real
    const alphaSpeed: real
    const rotationSpeed: real
    const gravity: real
    const batch: Batch
    const container: Container

    function Rates(): Rates {
      Motion.Rates(scaleSpeed, alphaSpeed, rotationSpeed)
    }

    /** The state after one more step. */
    function Next(): ParticleState
      reads this
    {
      Advance(state, Rates(), gravity)
    }

    /** The next step leaves the particle in place. */
    predicate Survives()
      reads this
    {
      !Expired(Next())
    }

    constructor (sprite: Sprite, init: Spawned, gravity: real, batch: Batch, container: Container)
      ensures state == init.state && Rates() == init.rates
      ensures width == init.size && height == init.size
      ensures totalFrames == sprite.totalFrames && frame == init.frame
      ensures this.gravity == gravity && this.batch == batch && this.container == container
    {
      state := init.state;
      width, height := init.size, init.size;
      totalFrames, frame := sprite.totalFrames, init.frame;
      scaleSpeed := init.rates.scaleSpeed;
      alphaSpeed := init.rates.alphaSpeed;
      rotationSpeed := init.rates.rotationSpeed;
      this.gravity, this.batch, this.container := gravity, batch, container;
    }

    /** `particle.updateParticle()`. When alpha has fallen to zero the
        particle leaves its container and splices itself out of its batch
        with `particles.splice(particles.indexOf(particle), 1)`. */
    method Step()
      modifies this, batch, container
      ensures state == Advance(old(state), Rates(), gravity)
      ensures Expired(state) ==>
        batch.particles == Without(old(batch.particles), this) &&
        container.children == old(container.children) - {this}
      ensures !Expired(state) ==>
        batch.particles == old(batch.particles) && container.children == old(container.children)
    {
      state := state.(vy := state.vy + gravity);
      state := state.(x := state.x + state.vx);
      state := state.(y := state.y + state.vy);
      if state.scaleX - scaleSpeed > 0.0 {
        state := state.(scaleX := state.scaleX - scaleSpeed);
      }
      if state.scaleY - scaleSpeed > 0.0 {
        state := state.(scaleY := state.scaleY - scaleSpeed);
      }
      state := state.(rotation := state.rotation + rotationSpeed);
      state := state.(alpha := state.alpha - alphaSpeed);
      if state.alpha <= 0.0 {
        container.children := container.children - {this};
        batch.particles := Without(batch.particles, this);
      }
    }
  }
}
