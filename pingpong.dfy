/** The two textures and the roles they take each frame (cgol_compute/main.cpp:201-205, 263-283).
    What a texture holds is abstracted to the number of Life generations it is away from the
    seed pattern; the transition rule itself runs in a compute shader outside this model. */
module PingPong {

  datatype Texture = A | B

  /** The roles of the textures in one frame: the compute pass samples `read` and writes
      `write`, and the quad is drawn from `display`. */
  datatype FrameRecord = FrameRecord(read: Texture, write: Texture, display: Texture)

  /** The roles chosen by the frame's `if (flip)`. */
  function Roles(flip: bool): (f: FrameRecord)
    ensures f.read != f.write
    ensures f.display == f.write
    ensures f.write == A <==> !flip
  {
    if flip then FrameRecord(A, B, B) else FrameRecord(B, A, A)
  }

  /** `flip` after `k` frames: false before the first, negated at the end of each, so true
      exactly after an odd number of frames. */
  function FlipAfter(k: nat): (r: bool)
    ensures r == (k % 2 == 1)
  {
    if k == 0 then false else !FlipAfter(k - 1)
  }

  /** The roles in frame `k`, counting from 0: even frames write A and sample B, odd frames
      the reverse, and every frame displays the texture it writes. */
  function Schedule(k: nat): (r: FrameRecord)
    ensures r.write == (if k % 2 == 0 then A else B)
    ensures r.read == (if k % 2 == 0 then B else A)
    ensures r.display == r.write
  {
    Roles(FlipAfter(k))
  }

  /** The generation of the seed each texture holds. */
  datatype Buffers = Buffers(a: nat, b: nat) {
    function Get(t: Texture): nat {
      if t == A then a else b
    }
    function Put(t: Texture, g: nat): (r: Buffers)
      ensures r.Get(t) == g
      ensures forall u :: u != t ==> r.Get(u) == Get(u)
    {
      if t == A then this.(a := g) else this.(b := g)
    }
  }

  /** The start-up: the start shader writes the seed into A (generation 0), and the blit
      copies it into B. */
  const Seeded: Buffers := Buffers(0, 0)

  /** One compute pass: the written texture gets the generation after the sampled one's. */
  function StepBuffers(bs: Buffers, flip: bool): (r: Buffers)
    ensures r.Get(Roles(flip).read) == bs.Get(Roles(flip).read)
  {
    bs.Put(Roles(flip).write, bs.Get(Roles(flip).read) + 1)
  }

  /** The textures after `k` frames; neither is ahead of the number of frames run. */
  function BuffersAfter(k: nat): (r: Buffers)
    ensures r.a <= k && r.b <= k
  {
    if k == 0 then Seeded else StepBuffers(BuffersAfter(k - 1), FlipAfter(k - 1))
  }

  /** What frame `k` writes is what frame `k + 1` samples, and the reverse. */
  lemma Handoff(k: nat)
    ensures Schedule(k + 1).read == Schedule(k).write
    ensures Schedule(k + 1).write == Schedule(k).read
  {
  }

  /** The first frame samples B, which holds the blitted copy of A's seed. */
  lemma FirstFrameReadsSeed()
    ensures Schedule(0).read == B
    ensures Seeded.Get(B) == Seeded.Get(A) == 0
  {
  }

  /** Lock-step: after `k` frames the texture the next frame samples holds generation `k`,
      the other one generation `k - 1` (both the seed before the first frame), and from the
      first frame on the texture just displayed is the one holding generation `k`. */
  lemma {:induction false} LockStep(k: nat)
    ensures BuffersAfter(k).Get(Schedule(k).read) == k
    ensures BuffersAfter(k).Get(Schedule(k).write) == if k == 0 then 0 else k - 1
    ensures k > 0 ==> Schedule(k - 1).display == Schedule(k).read
  {
    if k > 0 {
      LockStep(k - 1);
      Handoff(k - 1);
    }
  }
}
