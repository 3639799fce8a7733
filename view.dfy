/** The API thread's view state and what one event, one drain of the queue and a run of
    frames do to it (cgol_compute/main.cpp:192-197, 206-246), as pure functions. */
module View {
  import opened Events

  /** The step by which Up and Down move `scroll`, and the range it must stay in. */
  const ScrollStep: real := 0.1
  const ScrollFloor: real := -1.8
  const ScrollCeiling: real := 0.0

  /** The locals of `runApiThread` that events change. */
  datatype ViewState = ViewState(width: U32, height: U32, showStats: bool, exit: bool, scroll: real)

  /** `s` is a whole number of tenths. */
  predicate IsTenths(s: real) {
    (s * 10.0).Floor as real == s * 10.0
  }

  /** The values `scroll` can take: the nineteen tenths from -1.8 up to 0. */
  predicate ScrollOk(s: real) {
    ScrollFloor <= s <= ScrollCeiling && IsTenths(s)
  }

  /** The view state the API thread starts from, sized as the window was when the thread started. */
  function Initial(width: U32, height: U32): (v: ViewState)
    ensures v.width == width && v.height == height
    ensures !v.showStats && !v.exit && v.scroll == 0.0 && ScrollOk(v.scroll)
  {
    ViewState(width, height, false, false, 0.0)
  }

  /** The handler the drain loop applies to one event. In a Key event the four key tests are
      independent `if`s, in the order the source has them. */
  function Handle(v: ViewState, e: Event): (r: ViewState)
    ensures ScrollOk(v.scroll) ==> ScrollOk(r.scroll)
    ensures v.exit ==> r.exit
    ensures r.scroll == v.scroll || r.scroll == v.scroll + ScrollStep || r.scroll == v.scroll - ScrollStep
  {
    match e
    case Key(key, action) =>
      var v1 := if key == KeyF1 && action == Release then v.(showStats := !v.showStats) else v;
      var v2 :=
        if key == KeyUp && action == Release && v1.scroll + ScrollStep <= ScrollCeiling
        then v1.(scroll := v1.scroll + ScrollStep) else v1;
      var v3 :=
        if key == KeyDown && action == Release && v2.scroll - ScrollStep >= ScrollFloor
        then v2.(scroll := v2.scroll - ScrollStep) else v2;
      if key == KeyEscape && action == Release then v3.(exit := true) else v3
    case Scroll(_) => v
    case Resize(w, h) => v.(width := w, height := h)
    case Exit => v.(exit := true)
  }

  /** Draining the queue: every pending event is handled once, oldest first. */
  function Drain(v: ViewState, pending: seq<Event>): (r: ViewState)
    ensures ScrollOk(v.scroll) ==> ScrollOk(r.scroll)
    ensures v.exit ==> r.exit
    decreases pending
  {
    if pending == [] then v else Drain(Handle(v, pending[0]), pending[1..])
  }

  /** The sizes passed to `bgfx::reset` while draining `pending`: one per Resize event. */
  function Resets(pending: seq<Event>): seq<Size>
    decreases pending
  {
    if pending == [] then []
    else (if pending[0].Resize? then [(pending[0].width, pending[0].height)] else []) + Resets(pending[1..])
  }

  /** Every reset carries the size of a Resize event among those drained. */
  lemma {:induction false} ResetsComeFromResizes(pending: seq<Event>)
    ensures forall i :: 0 <= i < |Resets(pending)| ==> Resize(Resets(pending)[i].0, Resets(pending)[i].1) in pending
    decreases pending
  {
    if pending != [] {
      ResetsComeFromResizes(pending[1..]);
      var head: seq<Size> := if pending[0].Resize? then [(pending[0].width, pending[0].height)] else [];
      var tail := Resets(pending[1..]);
      assert Resets(pending) == head + tail;
      forall i | 0 <= i < |head + tail|
        ensures Resize((head + tail)[i].0, (head + tail)[i].1) in pending
      {
        if i < |head| {
          assert pending[0] == Resize(head[0].0, head[0].1);
        } else {
          assert (head + tail)[i] == tail[i - |head|];
          assert pending[1..][0..] == pending[1..];
          assert Resize(tail[i - |head|].0, tail[i - |head|].1) in pending[1..];
        }
      }
    }
  }

  /** Draining no Resize event resets nothing. */
  lemma {:induction false} NoResizeNoReset(pending: seq<Event>)
    requires forall e :: e in pending ==> !e.Resize?
    ensures Resets(pending) == []
    decreases pending
  {
    if pending != [] {
      assert pending[0] in pending;
      assert forall e :: e in pending[1..] ==> e in pending;
      NoResizeNoReset(pending[1..]);
    }
  }

  /** The view state after the first `n` frames' drains, frame `k` draining `batches[k]`. */
  function ViewAfter(v: ViewState, batches: seq<seq<Event>>, n: nat): (r: ViewState)
    requires n <= |batches|
    ensures ScrollOk(v.scroll) ==> ScrollOk(r.scroll)
  {
    if n == 0 then v else Drain(ViewAfter(v, batches, n - 1), batches[n - 1])
  }

  /** The sizes passed to `bgfx::reset` by the drains of the first `n` frames, in order. */
  function ResetsAfter(batches: seq<seq<Event>>, n: nat): seq<Size>
    requires n <= |batches|
  {
    if n == 0 then [] else ResetsAfter(batches, n - 1) + Resets(batches[n - 1])
  }

  /** The batches one after another, as one queue would hold them. */
  function Flatten(batches: seq<seq<Event>>): seq<Event>
    decreases |batches|
  {
    if batches == [] then [] else Flatten(batches[..|batches| - 1]) + batches[|batches| - 1]
  }

  /** The view state after `n` frames is one drain of everything the first `n` frames saw. */
  lemma {:induction false} ViewAfterIsDrain(v: ViewState, batches: seq<seq<Event>>, n: nat)
    requires n <= |batches|
    ensures ViewAfter(v, batches, n) == Drain(v, Flatten(batches[..n]))
  {
    if n > 0 {
      ViewAfterIsDrain(v, batches, n - 1);
      assert batches[..n][..n - 1] == batches[..n - 1];
      DrainAppend(v, Flatten(batches[..n - 1]), batches[n - 1]);
    }
  }

  /** The resets of the first `n` frames are those of one drain of everything they saw. */
  lemma {:induction false} ResetsAfterIsResets(batches: seq<seq<Event>>, n: nat)
    requires n <= |batches|
    ensures ResetsAfter(batches, n) == Resets(Flatten(batches[..n]))
  {
    if n > 0 {
      ResetsAfterIsResets(batches, n - 1);
      assert batches[..n][..n - 1] == batches[..n - 1];
      ResetsAppend(Flatten(batches[..n - 1]), batches[n - 1]);
    }
  }

  /** The number of F1-release events in `es`. */
  function Toggles(es: seq<Event>): nat {
    if es == [] then 0 else (if es[0] == F1Release then 1 else 0) + Toggles(es[1..])
  }

  /** The size of the last Resize event in `es`, or `current` when there is none. */
  function LastSize(es: seq<Event>, current: Size): Size {
    if es == [] then current
    else if es[|es| - 1].Resize? then (es[|es| - 1].width, es[|es| - 1].height)
    else LastSize(es[..|es| - 1], current)
  }

  /** Events the handler ignores: Scroll events, and Key events that are not the release of
      F1, Up, Down or Escape. */
  predicate Inert(e: Event) {
    e.Scroll? || (e.Key? && (e.action != Release || e.key !in {KeyF1, KeyUp, KeyDown, KeyEscape}))
  }

  // ---------------------------------------------------------------- one event

  /** F1-release is the only event that changes `showStats`, and it always flips it. */
  lemma ShowStatsFlipsIffF1Release(v: ViewState, e: Event)
    ensures Handle(v, e).showStats != v.showStats <==> e == F1Release
    ensures e == F1Release ==> Handle(v, e) == v.(showStats := !v.showStats)
  {
  }

  /** Two F1 releases restore the view state. */
  lemma ToggleTwice(v: ViewState)
    ensures Handle(Handle(v, F1Release), F1Release) == v
  {
  }

  /** Up-release raises `scroll` by 0.1 when that keeps it at most 0, and otherwise changes
      nothing: the step is refused, not cut short at the bound. */
  lemma UpStep(v: ViewState)
    ensures v.scroll + ScrollStep <= ScrollCeiling ==> Handle(v, UpRelease) == v.(scroll := v.scroll + ScrollStep)
    ensures v.scroll + ScrollStep > ScrollCeiling ==> Handle(v, UpRelease) == v
  {
  }

  /** Down-release lowers `scroll` by 0.1 when that keeps it at least -1.8, and otherwise
      changes nothing. */
  lemma DownStep(v: ViewState)
    ensures v.scroll - ScrollStep >= ScrollFloor ==> Handle(v, DownRelease) == v.(scroll := v.scroll - ScrollStep)
    ensures v.scroll - ScrollStep < ScrollFloor ==> Handle(v, DownRelease) == v
  {
  }

  /** Up at the ceiling and Down at the floor are no-ops. */
  lemma ScrollBoundsAreNoOps(v: ViewState)
    ensures v.scroll == ScrollCeiling ==> Handle(v, UpRelease) == v
    ensures v.scroll == ScrollFloor ==> Handle(v, DownRelease) == v
  {
  }

  /** Exit and Escape-release set `exit`; every other event leaves it as it was. */
  lemma ExitIffRequested(v: ViewState, e: Event)
    ensures Handle(v, e).exit == (v.exit || RequestsExit(e))
  {
  }

  /** Exit and Escape-release set `exit` and change nothing else. */
  lemma ExitOnlySetsExit(v: ViewState, e: Event)
    requires RequestsExit(e)
    ensures Handle(v, e) == v.(exit := true)
  {
    if e.Key? {
      assert e == EscapeRelease;
    }
  }

  /** A Resize stores the event's size; one carrying the current size changes nothing. */
  lemma ResizeStoresSize(v: ViewState, w: U32, h: U32)
    ensures Handle(v, Resize(w, h)) == v.(width := w, height := h)
    ensures Handle(Handle(v, Resize(w, h)), Resize(w, h)) == Handle(v, Resize(w, h))
    ensures Handle(v, Resize(v.width, v.height)) == v
  {
  }

  /** Only Resize events change the size. */
  lemma SizeChangesOnlyOnResize(v: ViewState, e: Event)
    ensures !e.Resize? ==> Handle(v, e).width == v.width && Handle(v, e).height == v.height
  {
  }

  /** Scroll events, unrecognised keys and non-release actions change nothing. */
  lemma InertEventsChangeNothing(v: ViewState, e: Event)
    requires Inert(e)
    ensures Handle(v, e) == v
  {
  }

  /** Whether `exit` is already set makes no difference to how an event is handled otherwise. */
  lemma HandleIgnoresExit(v: ViewState, e: Event)
    ensures Handle(v.(exit := true), e) == Handle(v, e).(exit := true)
  {
  }

  // ---------------------------------------------------------------- one drain

  /** Draining `a + b` is draining `a` and then `b`: the drain is a left fold. */
  lemma {:induction false} DrainAppend(v: ViewState, a: seq<Event>, b: seq<Event>)
    ensures Drain(v, a + b) == Drain(Drain(v, a), b)
    decreases a
  {
    if a != [] {
      assert (a + b)[0] == a[0];
      assert (a + b)[1..] == a[1..] + b;
      DrainAppend(Handle(v, a[0]), a[1..], b);
    } else {
      assert a + b == b;
    }
  }

  /** The event popped last is handled last. */
  lemma DrainSnoc(v: ViewState, a: seq<Event>, e: Event)
    ensures Drain(v, a + [e]) == Handle(Drain(v, a), e)
  {
    DrainAppend(v, a, [e]);
  }

  /** `Resets` of a concatenation. */
  lemma {:induction false} ResetsAppend(a: seq<Event>, b: seq<Event>)
    ensures Resets(a + b) == Resets(a) + Resets(b)
  {
    if a != [] {
      assert (a + b)[0] == a[0];
      assert (a + b)[1..] == a[1..] + b;
      ResetsAppend(a[1..], b);
      var head := if a[0].Resize? then [(a[0].width, a[0].height)] else [];
      assert Resets(a + b) == head + (Resets(a[1..]) + Resets(b));
      assert Resets(a) == head + Resets(a[1..]);
    } else {
      assert a + b == b;
    }
  }

  /** After a drain, `showStats` has flipped once per F1-release event. */
  lemma {:induction false} DrainShowStats(v: ViewState, es: seq<Event>)
    ensures Drain(v, es).showStats == (v.showStats != (Toggles(es) % 2 == 1))
    decreases es
  {
    if es != [] {
      ShowStatsFlipsIffF1Release(v, es[0]);
      DrainShowStats(Handle(v, es[0]), es[1..]);
    }
  }

  /** A drain ends with `exit` set exactly when it was set before or some drained event asked
      for it. */
  lemma {:induction false} DrainExit(v: ViewState, es: seq<Event>)
    ensures Drain(v, es).exit <==> v.exit || exists i :: 0 <= i < |es| && RequestsExit(es[i])
    decreases es
  {
    if es != [] {
      ExitIffRequested(v, es[0]);
      DrainExit(Handle(v, es[0]), es[1..]);
      if exists i :: 0 <= i < |es[1..]| && RequestsExit(es[1..][i]) {
        var i :| 0 <= i < |es[1..]| && RequestsExit(es[1..][i]);
        assert RequestsExit(es[i + 1]);
      }
      if exists i :: 0 <= i < |es| && RequestsExit(es[i]) {
        var i :| 0 <= i < |es| && RequestsExit(es[i]);
        if i > 0 {
          assert RequestsExit(es[1..][i - 1]);
        }
      }
    }
  }

  /** Setting `exit` before a drain only sets `exit` after it. */
  lemma {:induction false} DrainIgnoresExit(v: ViewState, es: seq<Event>)
    ensures Drain(v.(exit := true), es) == Drain(v, es).(exit := true)
    decreases es
  {
    if es != [] {
      HandleIgnoresExit(v, es[0]);
      DrainIgnoresExit(Handle(v, es[0]), es[1..]);
    }
  }

  /** An exit request in mid-queue does not stop the drain: the events behind it are handled
      in the same pass, exactly as if the request had not been there, except for `exit`. */
  lemma ExitDoesNotStopDrain(v: ViewState, a: seq<Event>, e: Event, b: seq<Event>)
    requires RequestsExit(e)
    ensures Drain(v, a + [e] + b) == Drain(v, a + b).(exit := true)
  {
    DrainAppend(v, a + [e], b);
    DrainSnoc(v, a, e);
    DrainAppend(v, a, b);
    var u := Drain(v, a);
    ExitOnlySetsExit(u, e);
    DrainIgnoresExit(u, b);
  }

  /** After a drain the stored size is that of the last Resize drained, or the old one. */
  lemma {:induction false} DrainSize(v: ViewState, es: seq<Event>)
    ensures (Drain(v, es).width, Drain(v, es).height) == LastSize(es, (v.width, v.height))
  {
    if es != [] {
      var init, e := es[..|es| - 1], es[|es| - 1];
      assert es == init + [e];
      DrainSnoc(v, init, e);
      DrainSize(v, init);
      SizeChangesOnlyOnResize(Drain(v, init), e);
    }
  }

  /** The sequence of `n` copies of `e`. */
  function Repeat(e: Event, n: nat): (r: seq<Event>)
    ensures |r| == n && forall i :: 0 <= i < n ==> r[i] == e
  {
    if n == 0 then [] else [e] + Repeat(e, n - 1)
  }

  function Min(a: int, b: int): int { if a <= b then a else b }
  function Max(a: int, b: int): int { if a <= b then b else a }

  /** From `k` tenths below 0, `n` Down-releases reach `min(k + n, 18)` tenths below 0:
      repeated Down never passes the floor, and reaches it. */
  lemma {:induction false} RepeatedDown(v: ViewState, k: nat, n: nat)
    requires k <= 18 && v.scroll == -(k as real) / 10.0
    ensures Drain(v, Repeat(DownRelease, n)) == v.(scroll := -(Min(k + n, 18) as real) / 10.0)
    decreases n
  {
    if n > 0 {
      DownStep(v);
      if k < 18 {
        var v' := v.(scroll := -((k + 1) as real) / 10.0);
        assert Handle(v, DownRelease) == v';
        RepeatedDown(v', k + 1, n - 1);
      } else {
        assert Handle(v, DownRelease) == v;
        RepeatedDown(v, k, n - 1);
      }
    }
  }

  /** From `k` tenths below 0, `n` Up-releases reach `max(k - n, 0)` tenths below 0:
      repeated Up never passes the ceiling, and reaches it. */
  lemma {:induction false} RepeatedUp(v: ViewState, k: nat, n: nat)
    requires k <= 18 && v.scroll == -(k as real) / 10.0
    ensures Drain(v, Repeat(UpRelease, n)) == v.(scroll := -(Max(k - n, 0) as real) / 10.0)
    decreases n
  {
    if n > 0 {
      UpStep(v);
      if k > 0 {
        var v' := v.(scroll := -((k - 1) as real) / 10.0);
        assert Handle(v, UpRelease) == v';
        RepeatedUp(v', k - 1, n - 1);
      } else {
        assert Handle(v, UpRelease) == v;
        RepeatedUp(v, k, n - 1);
      }
    }
  }

  // ---------------------------------------------------------------- frames

  /** Once a frame's drain has set `exit`, every later frame's view has it set. */
  lemma {:induction false} ExitStaysSet(v: ViewState, batches: seq<seq<Event>>, i: nat, j: nat)
    requires i <= j <= |batches|
    requires ViewAfter(v, batches, i).exit
    ensures ViewAfter(v, batches, j).exit
  {
    if i < j {
      ExitStaysSet(v, batches, i, j - 1);
    }
  }
}
