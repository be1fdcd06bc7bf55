/** Mouse and touch tracking of ParticleSystem (js/particles.js:179-196): screen
    coordinates to normalised device coordinates, and the per-frame
    smoothing of the tracked mouse toward the latest sample. */
module MouseInput {
  import opened MathModel

  /** window.innerWidth and window.innerHeight. */
  datatype Viewport = Viewport(width: real, height: real)

  predicate Showing(view: Viewport) {
    view.width > 0.0 && view.height > 0.0
  }

  /** x = clientX / innerWidth * 2 - 1, y = -(clientY / innerHeight) * 2 + 1. */
  function ToNdc(clientX: real, clientY: real, view: Viewport): Vec2
    requires Showing(view)
  {
    Vec2(clientX / view.width * 2.0 - 1.0, -(clientY / view.height) * 2.0 + 1.0)
  }

  /** The inverse mapping, from device coordinates back to the screen. */
  function FromNdc(v: Vec2, view: Viewport): Vec2 {
    Vec2((v.x + 1.0) / 2.0 * view.width, (1.0 - v.y) / 2.0 * view.height)
  }

  /** The mapping loses nothing: mapping back gives the screen point. */
  lemma NdcRoundTrip(clientX: real, clientY: real, view: Viewport)
    requires Showing(view)
    ensures FromNdc(ToNdc(clientX, clientY, view), view) == Vec2(clientX, clientY)
  {
    var v := ToNdc(clientX, clientY, view);
    assert (v.x + 1.0) / 2.0 == clientX / view.width;
    assert (1.0 - v.y) / 2.0 == clientY / view.height;
  }

  /** A point on the screen maps into [-1, 1] x [-1, 1]; the left edge goes to
      x = -1 and the top edge to y = 1 (screen y grows downward). */
  lemma NdcOnScreen(clientX: real, clientY: real, view: Viewport)
    requires Showing(view)
    requires 0.0 <= clientX <= view.width && 0.0 <= clientY <= view.height
    ensures -1.0 <= ToNdc(clientX, clientY, view).x <= 1.0
    ensures -1.0 <= ToNdc(clientX, clientY, view).y <= 1.0
    ensures clientX == 0.0 ==> ToNdc(clientX, clientY, view).x == -1.0
    ensures clientY == 0.0 ==> ToNdc(clientX, clientY, view).y == 1.0
  {
    assert 0.0 <= clientX / view.width <= 1.0 by {
      assert clientX / view.width * view.width == clientX;
    }
    assert 0.0 <= clientY / view.height <= 1.0 by {
      assert clientY / view.height * view.height == clientY;
    }
  }

  /** Vector2.lerp(target, alpha): this += (target - this) * alpha. */
  function Lerp(from: Vec2, to: Vec2, alpha: real): Vec2 {
    Vec2(from.x + (to.x - from.x) * alpha, from.y + (to.y - from.y) * alpha)
  }

  /** Each frame's smoothing closes 5% of the distance to the raw sample and
      never overshoots it. */
  lemma SmoothingContracts(mouse: Vec2, target: Vec2)
    ensures Lerp(mouse, target, 0.05).x - target.x == 0.95 * (mouse.x - target.x)
    ensures Lerp(mouse, target, 0.05).y - target.y == 0.95 * (mouse.y - target.y)
    ensures Abs(Lerp(mouse, target, 0.05).x - target.x) <= Abs(mouse.x - target.x)
    ensures Abs(Lerp(mouse, target, 0.05).y - target.y) <= Abs(mouse.y - target.y)
  {
  }
}
