/**
 * The hero carousel of the home page: four images, and two buttons that move the
 * current index forwards and backwards with wrap-around. The index arithmetic uses
 * JavaScript's `%`, whose result takes the sign of the dividend.
 */
module Home {
  /** The number of hero images. */
  const HeroImageCount: int := 4

  /** JavaScript's `a % n` for a positive `n`: the remainder of division truncated
      towards zero. It takes the sign of `a` (it is never negative for `a >= 0` and
      never positive for `a < 0`), is smaller than `n` in size, and differs from `a` by
      a multiple of `n`. */
  function JsRemainder(a: int, n: int): (r: int)
    requires n > 0
    ensures a >= 0 ==> 0 <= r < n
    ensures a < 0 ==> -n < r <= 0
    ensures exists q :: a - r == q * n
  {
    if a >= 0 then
      assert a - a % n == (a / n) * n;
      a % n
    else
      assert a + (-a) % n == (-((-a) / n)) * n;
      -((-a) % n)
  }

  /** An index of one of the images. */
  predicate IsSlide(i: int) {
    0 <= i < HeroImageCount
  }

  /** `nextSlide`: from any index that is not negative, the result is an image index,
      one further on, wrapping from the last image to the first. */
  function NextSlide(prev: int): (next: int)
    ensures prev >= 0 ==> IsSlide(next)
    ensures IsSlide(prev) ==> next == if prev == HeroImageCount - 1 then 0 else prev + 1
  {
    JsRemainder(prev + 1, HeroImageCount)
  }

  /** `prevSlide`: from an image index, the result is an image index, one back,
      wrapping from the first image to the last. */
  function PrevSlide(prev: int): (p: int)
    ensures IsSlide(prev) ==> IsSlide(p)
    ensures IsSlide(prev) ==> p == if prev == 0 then HeroImageCount - 1 else prev - 1
  {
    JsRemainder(prev - 1 + HeroImageCount, HeroImageCount)
  }

  /** The two buttons undo each other on every image index. */
  lemma SlidesInverse(i: int)
    requires IsSlide(i)
    ensures PrevSlide(NextSlide(i)) == i
    ensures NextSlide(PrevSlide(i)) == i
  {
  }

  datatype Click = Next | Prev

  function Step(i: int, c: Click): int {
    match c
    case Next => NextSlide(i)
    case Prev => PrevSlide(i)
  }

  /** The index after the clicks, in order, starting from `i`. */
  function Run(i: int, clicks: seq<Click>): int
    decreases |clicks|
  {
    if clicks == [] then i else Run(Step(i, clicks[0]), clicks[1..])
  }

  /** The forward clicks minus the backward ones. */
  function Net(clicks: seq<Click>): int {
    if clicks == [] then 0 else (if clicks[0] == Next then 1 else -1) + Net(clicks[1..])
  }

  /** From an image index, any sequence of clicks ends on the image its net number of
      forward clicks points to, counting round the carousel; in particular the index
      always names an image. */
  lemma {:induction false} RunIsNetRotation(i: int, clicks: seq<Click>)
    requires IsSlide(i)
    ensures Run(i, clicks) == (i + Net(clicks)) % HeroImageCount
    ensures IsSlide(Run(i, clicks))
    decreases |clicks|
  {
    if clicks != [] {
      var d := if clicks[0] == Next then 1 else -1;
      var j := Step(i, clicks[0]);
      StepRotates(i, clicks[0]);
      RunIsNetRotation(j, clicks[1..]);
      RotationsAdd(i + d, Net(clicks[1..]));
    }
  }

  /** One click moves the index by one, forwards or backwards, round the carousel. */
  lemma StepRotates(i: int, c: Click)
    requires IsSlide(i)
    ensures Step(i, c) == (i + (if c == Next then 1 else -1)) % HeroImageCount
  {
  }

  lemma RotationsAdd(x: int, y: int)
    ensures (x % HeroImageCount + y) % HeroImageCount == (x + y) % HeroImageCount
  {
  }

  /** Pressing "next" once per image comes back to the starting image. */
  lemma FullCycle(i: int)
    requires IsSlide(i)
    ensures Run(i, [Next, Next, Next, Next]) == i
  {
    var clicks := [Next, Next, Next, Next];
    assert Net(clicks[3..]) == 1;
    assert Net(clicks[2..]) == 2 by { assert clicks[2..][1..] == clicks[3..]; }
    assert Net(clicks[1..]) == 3 by { assert clicks[1..][1..] == clicks[2..]; }
    assert Net(clicks) == 4;
    RunIsNetRotation(i, clicks);
  }
}
