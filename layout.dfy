/** The size rule of the image box: the longer natural side decides which
    side of the box is pinned to 100% of the container, and the other side
    is set from the natural size; the box is then scaled by the zoom. */
module Layout {
  import opened Geometry
  import Zoom

  datatype Option<T> = None | Some(value: T)

  /** The width and height of a laid-out box, in screen pixels. */
  datatype Extent = Extent(width: real, height: real)

  /** The box aspect equals the natural aspect times the container aspect,
      written without division. In a square container this is the natural
      aspect; in any other container it is not, because percent widths and
      percent heights resolve against different sides of the container. */
  predicate AspectTimesContainer(box: Extent, natural: Size, container: Extent)
  {
    box.width * natural.h as real * container.height == box.height * natural.w as real * container.width
  }

  /** The box as the component sizes it. Percent widths are of the
      container's width and percent heights of its height; both branches use
      w / h. With no natural height yet (the initial size 0 x 0) the factor
      w / h is not a finite number and no box is defined. */
  function RenderedBox(container: Extent, natural: Size): (box: Option<Extent>)
    ensures box.None? <==> natural.h == 0
    ensures box.Some? && natural.w >= natural.h ==>
              box.value.height == container.height &&
              box.value.width * natural.h as real == container.width * natural.w as real
    ensures box.Some? && natural.w < natural.h ==>
              box.value.width == container.width &&
              box.value.height * natural.h as real == container.height * natural.w as real
  {
    if natural.h == 0 then None
    else if natural.w >= natural.h then
      Some(Extent(container.width * (natural.w as real / natural.h as real), container.height))
    else
      Some(Extent(container.width, container.height * (natural.w as real / natural.h as real)))
  }

  /** The box with the portrait branch using h / w. A portrait image of
      width 0 then has no finite box either. */
  function IntendedBox(container: Extent, natural: Size): (box: Option<Extent>)
    ensures box.None? <==> natural.h == 0 || natural.w == 0
    ensures box.Some? ==> AspectTimesContainer(box.value, natural, container)
    ensures box.Some? && natural.w >= natural.h ==>
              box.value.height == container.height &&
              box.value.width * natural.h as real == container.width * natural.w as real
    ensures box.Some? && natural.w < natural.h ==>
              box.value.width == container.width &&
              box.value.height * natural.w as real == container.height * natural.h as real
  {
    if natural.h == 0 || natural.w == 0 then None
    else if natural.w >= natural.h then
      Some(Extent(container.width * (natural.w as real / natural.h as real), container.height))
    else
      Some(Extent(container.width, container.height * (natural.h as real / natural.w as real)))
  }

  /** On landscape and square images the component's rule is the intended one. */
  lemma LandscapeAgrees(container: Extent, natural: Size)
    requires natural.w >= natural.h
    ensures RenderedBox(container, natural) == IntendedBox(container, natural)
  {
  }

  /** Whatever the container's shape, the component's box for a portrait
      image is shorter than the container, so the unzoomed image cannot cover
      it vertically; the intended box is at least as tall as the container. */
  lemma PortraitBoxTooShort(container: Extent, natural: Size)
    requires natural.w < natural.h
    requires container.height > 0.0
    ensures RenderedBox(container, natural).Some?
    ensures RenderedBox(container, natural).value.height < container.height
    ensures natural.w > 0 ==> IntendedBox(container, natural).Some? &&
                              IntendedBox(container, natural).value.height >= container.height
  {
    var w, h := natural.w as real, natural.h as real;
    assert w / h < 1.0;
    assert container.height * (w / h) < container.height * 1.0;
    if natural.w > 0 {
      assert h / w > 1.0;
      assert container.height * (h / w) > container.height * 1.0;
    }
  }

  /** In a non-empty container, the component's box for a portrait image
      misses the natural aspect times the container aspect: its height is
      scaled by w / h instead of h / w. In a square container this means
      the box never has the image's aspect. */
  lemma PortraitBoxBreaksAspect(container: Extent, natural: Size)
    requires natural.w < natural.h
    requires container.width > 0.0 && container.height > 0.0
    ensures RenderedBox(container, natural).Some?
    ensures !AspectTimesContainer(RenderedBox(container, natural).value, natural, container)
  {
    var w, h := natural.w as real, natural.h as real;
    var box := RenderedBox(container, natural).value;
    var c := container.width * container.height;
    assert c > 0.0;
    calc {
      box.height * w * container.width;
      container.height * (w / h) * w * container.width;
      c * (w * w / h);
    }
    calc {
      box.width * h * container.height;
      c * h;
    }
    assert w * w < h * h by {
      assert w * w <= w * h;
      assert w * h < h * h;
    }
    assert w * w / h < h;
    assert c * (w * w / h) < c * h;
  }

  /** A 1 x 2 portrait image in a 100 x 100 container gets a 100 x 50 box,
      landscape-shaped, where the intended rule gives a 1 : 2 box. */
  lemma PortraitExample()
    ensures RenderedBox(Extent(100.0, 100.0), Size(1, 2)) == Some(Extent(100.0, 50.0))
    ensures IntendedBox(Extent(100.0, 100.0), Size(1, 2)) == Some(Extent(100.0, 200.0))
  {
  }

  /** The on-screen extent after `scale(zoom)`: both sides times the zoom, so
      the scaling keeps whatever aspect the box has. */
  function ZoomedExtent(box: Extent, zoom: real): (e: Extent)
    requires zoom > 0.0
    ensures e.width == box.width * zoom && e.height == box.height * zoom
    ensures forall natural: Size, container: Extent ::
              AspectTimesContainer(box, natural, container) ==> AspectTimesContainer(e, natural, container)
  {
    Extent(box.width * zoom, box.height * zoom)
  }

  /** For a landscape or square image in a container of non-negative size,
      the component's box, scaled by any zoom of at least MIN_ZOOM, covers the
      container on both axes: the overflows the release clamp computes are
      then both non-negative. */
  lemma LandscapeZoomedCovers(container: Extent, natural: Size, zoom: real)
    requires natural.h > 0 && natural.w >= natural.h
    requires container.width >= 0.0 && container.height >= 0.0
    requires zoom >= Zoom.MIN_ZOOM
    ensures var e := ZoomedExtent(RenderedBox(container, natural).value, zoom);
            e.width >= container.width && e.height >= container.height
  {
    var w, h := natural.w as real, natural.h as real;
    var box := RenderedBox(container, natural).value;
    assert w / h >= 1.0;
    assert box.width >= container.width by {
      assert container.width * (w / h) >= container.width * 1.0;
    }
    assert box.width * zoom >= box.width * 1.0;
    assert box.height * zoom >= box.height * 1.0;
  }
}
