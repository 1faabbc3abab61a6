/**
  The static bird mesh (`BirdGeometry` in Birds.TS): four flat vertex buffers
  filled once, BIRDS birds of three triangles each.
*/
module BirdMesh {
  import opened Glsl

  /** Side of the square compute texture; the grid holds WIDTH * WIDTH texels. */
  const WIDTH: int := 32
  /** Number of birds drawn. */
  const BIRDS: int := 256
  /** World bound substituted into the velocity shader (declared there, never read). */
  const BOUNDS: int := 800

  const TRIANGLES_PER_BIRD: int := 3
  const TRIANGLES: int := BIRDS * TRIANGLES_PER_BIRD
  const POINTS: int := TRIANGLES * 3
  /** Vertices per bird, and floats of local coordinates per bird. */
  const VERTICES_PER_BIRD: int := 9
  const FLOATS_PER_BIRD: int := 27

  const WINGS_SPAN: real := 20.0

  /** The three nine-float groups pushed for every bird: body, left wing, right wing. */
  const BODY: seq<real> := [0.0, -0.0, -20.0, 0.0, 4.0, -20.0, 0.0, 0.0, 30.0]
  const LEFT_WING: seq<real> := [0.0, 0.0, -15.0, -WINGS_SPAN, 0.0, 0.0, 0.0, 0.0, 15.0]
  const RIGHT_WING: seq<real> := [0.0, 0.0, 15.0, WINGS_SPAN, 0.0, 0.0, 0.0, 0.0, -15.0]
  const BIRD_SHAPE: seq<real> := BODY + LEFT_WING + RIGHT_WING

  /** An RGB triple, as read from a `THREE.Color`. */
  datatype Rgb = Rgb(r: real, g: real, b: real)

  /** The bird a vertex belongs to, through its triangle: `~~(~~(v / 3) / trianglesPerBird)`. */
  function BirdOf(v: int): int {
    (v / 3) / TRIANGLES_PER_BIRD
  }

  /** The x texture coordinate of a bird's texel. */
  function ReferenceX(bird: int): real {
    (bird % WIDTH) as real / WIDTH as real
  }

  /** The y texture coordinate of a bird's texel. */
  function ReferenceY(bird: int): real {
    (bird / WIDTH) as real / WIDTH as real
  }

  /** The per-vertex slot stored in `birdVertex`. */
  function Slot(v: int): real {
    (v % VERTICES_PER_BIRD) as real
  }

  /**
    The colour number handed to `THREE.Color` for vertex `v`. It rises with the
    bird, but the fractional multiple of 0x666666 carries across the bytes of
    the packed number, so the resulting colours are not greys.
  */
  function Shade(v: int): real {
    0x444444 as real + ((v / VERTICES_PER_BIRD) as real / BIRDS as real) * 0x666666 as real
  }

  /** The local coordinates of vertex `v`, as the filled `vertices` buffer holds them. */
  function VertexOf(v: nat): Vec3 {
    Vec3(BIRD_SHAPE[(3 * v) % FLOATS_PER_BIRD],
         BIRD_SHAPE[(3 * v + 1) % FLOATS_PER_BIRD],
         BIRD_SHAPE[(3 * v + 2) % FLOATS_PER_BIRD])
  }

  /** The vertex shader's test for the two vertices it flaps: `birdVertex == 4.0 || birdVertex == 7.0`. */
  predicate Flapped(slot: real) {
    slot == 4.0 || slot == 7.0
  }

  /** A wing tip lies on the x axis, `wingsSpan` to either side of the body. */
  predicate IsWingTip(p: Vec3) {
    (p.x == -WINGS_SPAN || p.x == WINGS_SPAN) && p.y == 0.0 && p.z == 0.0
  }

  /**
    `verts_push`: copy `arg` into `a` from the write cursor `v` on, advancing the
    cursor once per value. Like a `Float32Array`, `a` ignores writes past its end.
  */
  method VertsPush(a: array<real>, v: nat, arg: seq<real>) returns (next: nat)
    modifies a
    ensures next == v + |arg|
    ensures forall j :: 0 <= j < a.Length ==>
              a[j] == (if v <= j < next then arg[j - v] else old(a[j]))
  {
    next := v;
    for i := 0 to |arg|
      invariant next == v + i
      invariant forall j :: 0 <= j < a.Length ==>
                  a[j] == (if v <= j < next then arg[j - v] else old(a[j]))
    {
      if next < a.Length {
        a[next] := arg[i];
      }
      next := next + 1;
    }
  }

  lemma ModInBlock(f: int, j: int)
    requires 0 <= f && FLOATS_PER_BIRD * f <= j < FLOATS_PER_BIRD * f + FLOATS_PER_BIRD
    ensures j % FLOATS_PER_BIRD == j - FLOATS_PER_BIRD * f
  {
  }

  /**
    The first loop of the constructor: three nine-float pushes per bird. The
    cursor ends exactly at the end of the buffer, so no push is dropped and
    no float is left unwritten.
  */
  method PushBirds(a: array<real>) returns (v: nat)
    requires a.Length == POINTS * 3
    modifies a
    ensures v == BIRDS * VERTICES_PER_BIRD * 3 == a.Length
    ensures forall j :: 0 <= j < a.Length ==> a[j] == BIRD_SHAPE[j % FLOATS_PER_BIRD]
  {
    v := 0;
    for f := 0 to BIRDS
      invariant v == FLOATS_PER_BIRD * f
      invariant forall j :: 0 <= j < v ==> a[j] == BIRD_SHAPE[j % FLOATS_PER_BIRD]
    {
      ghost var start := v;
      v := VertsPush(a, v, BODY);
      v := VertsPush(a, v, LEFT_WING);
      v := VertsPush(a, v, RIGHT_WING);
      forall j | start <= j < v
        ensures a[j] == BIRD_SHAPE[j % FLOATS_PER_BIRD]
      {
        ModInBlock(f, j);
      }
    }
  }

  /**
    The second loop of the constructor: for every vertex, its colour, its
    bird's texel reference and its slot.
  */
  method FillAttributes(colors: array<real>, refs: array<real>, slots: array<real>, toRgb: real -> Rgb)
    requires colors.Length == POINTS * 3 && refs.Length == POINTS * 2 && slots.Length == POINTS
    modifies colors, refs, slots
    ensures forall v :: 0 <= v < POINTS ==>
              refs[2 * v] == ReferenceX(BirdOf(v)) && refs[2 * v + 1] == ReferenceY(BirdOf(v))
    ensures forall v :: 0 <= v < POINTS ==> slots[v] == Slot(v)
    ensures forall v :: 0 <= v < POINTS ==>
              var c := toRgb(Shade(v));
              colors[3 * v] == c.r && colors[3 * v + 1] == c.g && colors[3 * v + 2] == c.b
  {
    assert colors != refs && colors != slots && refs != slots;
    for v := 0 to TRIANGLES * 3
      invariant forall k :: 0 <= k < v ==>
                  refs[2 * k] == ReferenceX(BirdOf(k)) && refs[2 * k + 1] == ReferenceY(BirdOf(k))
      invariant forall k :: 0 <= k < v ==> slots[k] == Slot(k)
      invariant forall k :: 0 <= k < v ==>
                  var c := toRgb(Shade(k));
                  colors[3 * k] == c.r && colors[3 * k + 1] == c.g && colors[3 * k + 2] == c.b
    {
      var triangleIndex := v / 3;
      var birdIndex := triangleIndex / TRIANGLES_PER_BIRD;
      var x := (birdIndex % WIDTH) as real / WIDTH as real;
      var y := (birdIndex / WIDTH) as real / WIDTH as real;
      var c := toRgb(0x444444 as real + ((v / 9) as real / BIRDS as real) * 0x666666 as real);
      colors[v * 3 + 0] := c.r;
      colors[v * 3 + 1] := c.g;
      colors[v * 3 + 2] := c.b;
      refs[v * 2] := x;
      refs[v * 2 + 1] := y;
      slots[v] := (v % 9) as real;
      assert refs[2 * v] == ReferenceX(BirdOf(v)) && refs[2 * v + 1] == ReferenceY(BirdOf(v));
      assert colors[3 * v] == c.r && colors[3 * v + 1] == c.g && colors[3 * v + 2] == c.b;
    }
  }

  class BirdGeometry {
    /** Local vertex coordinates, three floats per vertex. */
    const vertices: array<real>
    /** Vertex colours, three floats per vertex. */
    const birdColors: array<real>
    /** Texture coordinates of each vertex's bird in the compute grid, two floats per vertex. */
    const references: array<real>
    /** The vertex's slot within its bird, one float per vertex. */
    const birdVertex: array<real>

    /**
      Fills the four buffers. `toRgb` stands for the conversion `THREE.Color`
      performs from a number to its `r`, `g`, `b` components.
    */
    constructor (toRgb: real -> Rgb)
      ensures fresh(vertices) && fresh(birdColors) && fresh(references) && fresh(birdVertex)
      ensures vertices.Length == POINTS * 3 && birdColors.Length == POINTS * 3
      ensures references.Length == POINTS * 2 && birdVertex.Length == POINTS
      ensures forall j :: 0 <= j < vertices.Length ==> vertices[j] == BIRD_SHAPE[j % FLOATS_PER_BIRD]
      ensures forall v :: 0 <= v < POINTS ==>
                references[2 * v] == ReferenceX(BirdOf(v)) && references[2 * v + 1] == ReferenceY(BirdOf(v))
      ensures forall v :: 0 <= v < POINTS ==> birdVertex[v] == Slot(v)
      ensures forall v :: 0 <= v < POINTS ==>
                var c := toRgb(Shade(v));
                birdColors[3 * v] == c.r && birdColors[3 * v + 1] == c.g && birdColors[3 * v + 2] == c.b
    {
      var vs := new real[POINTS * 3];
      var colors := new real[POINTS * 3];
      var refs := new real[POINTS * 2];
      var slots := new real[POINTS];
      var cursor := PushBirds(vs);
      assert cursor == vs.Length;
      FillAttributes(colors, refs, slots, toRgb);
      vertices, birdColors, references, birdVertex := vs, colors, refs, slots;
    }
  }

  /**
    Every bird fits the compute grid: the mesh uses 256 of its 32 * 32 texels,
    so every vertex belongs to a bird whose texel the kernels simulate.
  */
  lemma BirdsFitGrid()
    ensures BIRDS <= WIDTH * WIDTH
    ensures forall v :: 0 <= v < POINTS ==> 0 <= BirdOf(v) < WIDTH * WIDTH
  {
    forall v | 0 <= v < POINTS
      ensures 0 <= BirdOf(v) < WIDTH * WIDTH
    {
      BirdOfIsNinth(v);
    }
  }

  /** Going through the triangle index gives the same bird as dividing by nine. */
  lemma BirdOfIsNinth(v: int)
    requires 0 <= v
    ensures BirdOf(v) == v / VERTICES_PER_BIRD
  {
    var t := v / 3;
    assert v == 3 * t + v % 3;
    assert t == 3 * (t / 3) + t % 3;
    assert v == 9 * (t / 3) + (3 * (t % 3) + v % 3);
  }

  /** All nine vertices of a bird reference the same texel and get the same shade. */
  lemma SameBirdSameReference(v1: int, v2: int)
    requires 0 <= v1 && 0 <= v2 && v1 / VERTICES_PER_BIRD == v2 / VERTICES_PER_BIRD
    ensures ReferenceX(BirdOf(v1)) == ReferenceX(BirdOf(v2))
    ensures ReferenceY(BirdOf(v1)) == ReferenceY(BirdOf(v2))
    ensures Shade(v1) == Shade(v2)
  {
    BirdOfIsNinth(v1);
    BirdOfIsNinth(v2);
  }

  /** Every reference lies inside the grid, in the first eight of its 32 rows. */
  lemma ReferenceInGrid(v: int)
    requires 0 <= v < POINTS
    ensures 0.0 <= ReferenceX(BirdOf(v)) < 1.0
    ensures 0.0 <= ReferenceY(BirdOf(v)) < 8.0 / 32.0
  {
    BirdOfIsNinth(v);
    var bird := BirdOf(v);
    assert 0 <= bird < BIRDS;
    assert 0 <= bird / WIDTH < 8;
  }

  /**
    The reference of bird `b` names texel column `b % WIDTH` and row `b / WIDTH`,
    whose row-major index in the compute grid is `b` itself.
  */
  lemma ReferenceNamesTexel(bird: int)
    requires 0 <= bird < BIRDS
    ensures ReferenceX(bird) * WIDTH as real == (bird % WIDTH) as real
    ensures ReferenceY(bird) * WIDTH as real == (bird / WIDTH) as real
    ensures (bird / WIDTH) * WIDTH + bird % WIDTH == bird
  {
  }

  /** Distinct birds reference distinct texels. */
  lemma ReferencesDistinct(b1: int, b2: int)
    requires 0 <= b1 < BIRDS && 0 <= b2 < BIRDS && b1 != b2
    ensures ReferenceX(b1) != ReferenceX(b2) || ReferenceY(b1) != ReferenceY(b2)
  {
    ReferenceNamesTexel(b1);
    ReferenceNamesTexel(b2);
  }

  /** The shades form a ramp from 0x444444 up to, not reaching, 0xAAAAAA, rising bird by bird. */
  lemma ShadeRamp(v1: int, v2: int)
    requires 0 <= v1 < POINTS && 0 <= v2 < POINTS
    ensures 0x444444 as real <= Shade(v1) < 0xAAAAAA as real
    ensures v1 / VERTICES_PER_BIRD < v2 / VERTICES_PER_BIRD ==> Shade(v1) < Shade(v2)
  {
    assert 0 <= v1 / VERTICES_PER_BIRD < BIRDS;
  }

  lemma SlotOfTriple(v: int)
    requires 0 <= v
    ensures (3 * v) % FLOATS_PER_BIRD == 3 * (v % VERTICES_PER_BIRD)
    ensures (3 * v + 1) % FLOATS_PER_BIRD == 3 * (v % VERTICES_PER_BIRD) + 1
    ensures (3 * v + 2) % FLOATS_PER_BIRD == 3 * (v % VERTICES_PER_BIRD) + 2
  {
    var q := v / VERTICES_PER_BIRD;
    assert v == VERTICES_PER_BIRD * q + v % VERTICES_PER_BIRD;
    ModInBlock(q, 3 * v);
    ModInBlock(q, 3 * v + 1);
    ModInBlock(q, 3 * v + 2);
  }

  /**
    The vertex shader flaps a vertex exactly when it is a wing tip: slot 4 is the
    left tip `(-wingsSpan, 0, 0)`, slot 7 the right tip `(wingsSpan, 0, 0)`, and
    no body vertex has either slot.
  */
  lemma FlappedAreWingTips(v: nat)
    requires v < POINTS
    ensures Flapped(Slot(v)) <==> IsWingTip(VertexOf(v))
    ensures Slot(v) == 4.0 <==> VertexOf(v) == Vec3(-WINGS_SPAN, 0.0, 0.0)
    ensures Slot(v) == 7.0 <==> VertexOf(v) == Vec3(WINGS_SPAN, 0.0, 0.0)
    ensures v % VERTICES_PER_BIRD < 3 ==> !Flapped(Slot(v))
  {
    SlotOfTriple(v);
    var s := v % VERTICES_PER_BIRD;
    assert VertexOf(v) == Vec3(BIRD_SHAPE[3 * s], BIRD_SHAPE[3 * s + 1], BIRD_SHAPE[3 * s + 2]);
    assert 0 <= s < 9;
    assert s == 0 || s == 1 || s == 2 || s == 3 || s == 4 || s == 5 || s == 6 || s == 7 || s == 8;
  }
}
