/** The events the control thread hands to the API thread (cgol_compute/main.cpp:74-104),
    with the GLFW codes the API thread compares them against. */
module Events {

  /** A C `uint32_t`. */
  type U32 = x: int | 0 <= x < 0x1_0000_0000

  /** A C `int`, 32 bits wide on every platform the program builds for. */
  type I32 = x: int | -0x8000_0000 <= x < 0x8000_0000

  // GLFW 3's codes for the one action and the four keys the dispatch tests.
  const Release: I32 := 0
  const KeyEscape: I32 := 256
  const KeyDown: I32 := 264
  const KeyUp: I32 := 265
  const KeyF1: I32 := 290

  /** One variant per event struct; the `type` tag becomes the constructor. */
  datatype Event =
    | Exit
    | Key(key: I32, action: I32)
    | Resize(width: U32, height: U32)
    | Scroll(x: real)

  /** A window size as the API thread stores it. */
  type Size = (U32, U32)

  /** The key events the dispatch reacts to. */
  const F1Release: Event := Key(KeyF1, Release)
  const UpRelease: Event := Key(KeyUp, Release)
  const DownRelease: Event := Key(KeyDown, Release)
  const EscapeRelease: Event := Key(KeyEscape, Release)

  /** True of the events after which the API thread leaves its loop. */
  predicate RequestsExit(e: Event) {
    e.Exit? || e == EscapeRelease
  }

  /** The C conversion `(uint32_t)v` of an `int`: reduction modulo 2^32. */
  function ToU32(v: I32): (r: U32)
    ensures 0 <= v ==> r == v
    ensures v < 0 ==> r == v + 0x1_0000_0000
  {
    v % 0x1_0000_0000
  }

  /** The size a pair of polled `int`s becomes once cast to `uint32_t`. */
  function SizeOf(width: I32, height: I32): Size {
    (ToU32(width), ToU32(height))
  }

  /** Two different `int` sizes never become the same `uint32_t` size. */
  lemma SizeOfInjective(w: I32, h: I32, w': I32, h': I32)
    ensures SizeOf(w, h) == SizeOf(w', h') <==> w == w' && h == h'
  {
    if SizeOf(w, h) == SizeOf(w', h') {
      assert ToU32(w) == ToU32(w');
      assert ToU32(h) == ToU32(h');
    }
  }
}
