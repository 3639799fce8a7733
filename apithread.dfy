/** The API thread's loop, `runApiThread` (cgol_compute/main.cpp:192-286): drain the event
    queue, run one compute pass between the two textures, draw, flip. The bgfx calls are
    recorded in ghost logs instead of being made. */
module ApiThread {
  import opened Events
  import opened View
  import opened PingPong
  import opened Channel

  /** The batches the drains of a run see: the first drain also sees what was already queued. */
  function Batches(queued: seq<Event>, arrivals: seq<seq<Event>>): (r: seq<seq<Event>>)
    ensures |r| == |arrivals|
    ensures forall k :: 0 < k < |r| ==> r[k] == arrivals[k]
    ensures |r| > 0 ==> r[0] == queued + arrivals[0]
  {
    if arrivals == [] then [] else [queued + arrivals[0]] + arrivals[1..]
  }

  class ApiThreadLoop {
    // The locals of runApiThread that outlive one frame.
    var width: U32
    var height: U32
    var showStats: bool
    var exit: bool
    var scroll: real
    var flip: bool
    const channel: EventChannel

    /** The roles of the textures in each frame run so far. */
    ghost var frames: seq<FrameRecord>
    /** The generation of the seed each texture holds. */
    ghost var buffers: Buffers
    /** The sizes passed to `bgfx::reset`, in order. */
    ghost var resets: seq<Size>

    function View(): ViewState
      reads this
    {
      ViewState(width, height, showStats, exit, scroll)
    }

    ghost predicate Valid()
      reads this
    {
      ScrollOk(scroll) &&
      flip == FlipAfter(|frames|) &&
      (forall k :: 0 <= k < |frames| ==> frames[k] == Schedule(k)) &&
      buffers == BuffersAfter(|frames|)
    }

    /** The set-up before the loop: the view state from the thread's arguments, the seed written
        into A and blitted into B, and `flip` false. */
    constructor (channel: EventChannel, width: U32, height: U32)
      ensures Valid()
      ensures View() == Initial(width, height)
      ensures this.channel == channel && frames == [] && resets == []
      ensures !flip && buffers == Seeded
    {
      this.channel := channel;
      this.width, this.height := width, height;
      showStats, exit, scroll := false, false, 0.0;
      flip := false;
      frames, resets := [], [];
      new;
      buffers := buffers.Put(A, 0);   // setImage(A) and dispatch the start shader: the seed
      buffers := buffers.Put(B, buffers.Get(A));   // blit A into B
    }

    /** The Key branch of the handler: four independent tests of the key and the action. */
    method DispatchKey(key: I32, action: I32)
      modifies this
      ensures View() == Handle(old(View()), Key(key, action))
      ensures resets == old(resets)
      ensures flip == old(flip) && frames == old(frames) && buffers == old(buffers)
    {
      if key == KeyF1 && action == Release {
        showStats := !showStats;
      }
      if key == KeyUp && action == Release {
        if scroll + ScrollStep <= ScrollCeiling {
          scroll := scroll + ScrollStep;
        }
      }
      if key == KeyDown && action == Release {
        if scroll - ScrollStep >= ScrollFloor {
          scroll := scroll - ScrollStep;
        }
      }
      if key == KeyEscape && action == Release {
        exit := true;
      }
    }

    /** One iteration of the inner loop: the handler for the event just popped. */
    method Dispatch(e: Event)
      requires Valid()
      modifies this
      ensures Valid()
      ensures View() == Handle(old(View()), e)
      ensures resets == old(resets) + Resets([e])
      ensures flip == old(flip) && frames == old(frames) && buffers == old(buffers)
    {
      ghost var after := Handle(View(), e);
      match e {
        case Key(key, action) =>
          DispatchKey(key, action);
        case Scroll(_) =>
        case Resize(w, h) =>
          resets := resets + [(w, h)];
          width, height := w, h;
        case Exit =>
          exit := true;
      }
      assert View() == after;
    }

    /** The inner loop: pop until the queue is empty, handling each event as it comes. */
    method DrainEvents()
      requires Valid()
      modifies this, channel
      ensures Valid()
      ensures channel.pending == []
      ensures View() == Drain(old(View()), old(channel.pending))
      ensures resets == old(resets) + Resets(old(channel.pending))
      ensures flip == old(flip) && frames == old(frames) && buffers == old(buffers)
    {
      ghost var v0, q0, r0 := View(), channel.pending, resets;
      ghost var done := 0;
      while true
        invariant Valid()
        invariant 0 <= done <= |q0| && channel.pending == q0[done..]
        invariant View() == Drain(v0, q0[..done])
        invariant resets == r0 + Resets(q0[..done])
        invariant flip == old(flip) && frames == old(frames) && buffers == old(buffers)
        decreases |channel.pending|
      {
        var ev := channel.Pop();
        if ev.None? {
          assert q0[..done] == q0;
          break;
        }
        Dispatch(ev.value);
        assert q0[..done + 1] == q0[..done] + [q0[done]];
        DrainSnoc(v0, q0[..done], q0[done]);
        ResetsAppend(q0[..done], [q0[done]]);
        done := done + 1;
      }
    }

    /** One compute pass and draw: write one texture while sampling the other, display the
        one written, then flip. */
    method Frame()
      requires Valid()
      modifies this
      ensures Valid()
      ensures frames == old(frames) + [Roles(old(flip))]
      ensures flip == !old(flip)
      ensures buffers.Get(Roles(old(flip)).display) == |frames|
      ensures View() == old(View()) && resets == old(resets)
    {
      LockStep(|frames|);
      if flip {
        // setImage(B) for writing, sample A, dispatch, draw B
        buffers := buffers.Put(B, buffers.Get(A) + 1);
        frames := frames + [FrameRecord(A, B, B)];
      } else {
        // setImage(A) for writing, sample B, dispatch, draw A
        buffers := buffers.Put(A, buffers.Get(B) + 1);
        frames := frames + [FrameRecord(B, A, A)];
      }
      flip := !flip;
    }

    /** One iteration of the outer loop: the control thread's `batch` lands in the queue,
        the drain handles everything queued, and one compute pass and draw follow. Frame `n`
        of a run whose drains see `batches` takes the view state and reset log from their
        values after `n` frames to their values after `n + 1`. */
    method RunFrame(batch: seq<Event>, ghost v0: ViewState, ghost r0: seq<Size>, ghost batches: seq<seq<Event>>, ghost n: nat)
      requires Valid()
      requires n < |batches| && channel.pending + batch == batches[n]
      requires View() == ViewAfter(v0, batches, n) && resets == r0 + ResetsAfter(batches, n)
      modifies this, channel
      ensures Valid()
      ensures channel.pending == []
      ensures View() == ViewAfter(v0, batches, n + 1)
      ensures resets == r0 + ResetsAfter(batches, n + 1)
      ensures frames == old(frames) + [Roles(old(flip))]
    {
      channel.PushAll(batch);
      DrainEvents();
      Frame();
    }

    /** The outer loop `while (!exit)`. `arrivals[k]` stands for what the control thread
        pushes before frame `k`'s drain ends; the model runs at most `|arrivals|` frames.
        Each frame drains and then computes, even when its drain sets `exit`; the loop stops
        after the first frame whose drain sets it. */
    method Run(arrivals: seq<seq<Event>>) returns (n: nat)
      requires Valid()
      modifies this, channel
      ensures Valid()
      ensures n <= |arrivals| && |frames| == old(|frames|) + n
      ensures View() == ViewAfter(old(View()), Batches(old(channel.pending), arrivals), n)
      ensures forall k :: 0 <= k < n ==> !ViewAfter(old(View()), Batches(old(channel.pending), arrivals), k).exit
      ensures resets == old(resets) + ResetsAfter(Batches(old(channel.pending), arrivals), n)
      ensures n > 0 ==> channel.pending == []
      ensures n == 0 ==> channel.pending == old(channel.pending)
      ensures exit || n == |arrivals|
      ensures old(exit) ==> n == 0
    {
      ghost var v0, r0 := View(), resets;
      ghost var bs := Batches(channel.pending, arrivals);
      n := 0;
      while !exit && n < |arrivals|
        invariant Valid()
        invariant n <= |arrivals| && |frames| == old(|frames|) + n
        invariant View() == ViewAfter(v0, bs, n)
        invariant resets == r0 + ResetsAfter(bs, n)
        invariant forall k :: 0 <= k < n ==> !ViewAfter(v0, bs, k).exit
        invariant n > 0 ==> channel.pending == []
        invariant n == 0 ==> channel.pending == old(channel.pending) && View() == v0
        decreases |arrivals| - n
      {
        assert channel.pending + arrivals[n] == bs[n];
        RunFrame(arrivals[n], v0, r0, bs, n);
        n := n + 1;
      }
    }
  }
}
