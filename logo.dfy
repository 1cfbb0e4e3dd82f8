/** The logo placement of `generate_preview`: the logo is resized to a square
    a third of the shorter side of the QR image and pasted at the centre,
    using itself as the mask only when it has an alpha channel. The images
    are reduced to their sizes; resampling and pixels are not modelled. */
module Logo {
  import opened Results

  datatype Size = Size(width: nat, height: nat)

  /** A square logo of side `side` pasted with its top-left corner at
      `(x, y)`; `masked` is whether the logo was passed as its own mask. */
  datatype Placement = Placement(side: nat, x: nat, y: nat, masked: bool)

  /** An image as the model sees it: its size and the logo pasted onto it, if any. */
  datatype Image = Image(size: Size, logo: Option<Placement>)

  function Min(a: nat, b: nat): nat {
    if a <= b then a else b
  }

  /** `min(img.size) // 3`: the largest side whose triple fits in the shorter
      side of the image. */
  function LogoSide(size: Size): (s: nat)
    ensures 3 * s <= Min(size.width, size.height) < 3 * (s + 1)
  {
    Min(size.width, size.height) / 3
  }

  /** `(extent - logo_size) // 2` along one axis. */
  function Offset(extent: nat, side: nat): (x: nat)
    requires side <= extent
    ensures x + side <= extent
    ensures extent - side - 2 * x == 0 || extent - side - 2 * x == 1
  {
    (extent - side) / 2
  }

  /** The resize and paste of `generate_preview` for a logo whose mode is
      `mode`. */
  function Place(size: Size, mode: string): (p: Placement)
    ensures p.side == LogoSide(size)
    ensures p.x + p.side <= size.width && p.y + p.side <= size.height
    ensures size.width - p.side - 2 * p.x in {0, 1}
    ensures size.height - p.side - 2 * p.y in {0, 1}
    ensures p.masked <==> mode == "RGBA"
  {
    var s := LogoSide(size);
    Placement(s, Offset(size.width, s), Offset(size.height, s), mode == "RGBA")
  }

  /** The image `generate_preview` keeps: the rendered QR code, with the logo
      pasted onto it when a logo path is set. Pasting keeps the image size. */
  function Compose(rendered: Size, logoMode: Option<string>): (img: Image)
    ensures img.size == rendered
    ensures img.logo.Some? <==> logoMode.Some?
    ensures logoMode.Some? ==> img.logo.value == Place(rendered, logoMode.value)
  {
    match logoMode
    case None => Image(rendered, None)
    case Some(mode) => Image(rendered, Some(Place(rendered, mode)))
  }

  /** The side is the only one whose triple fits with less than a logo side to
      spare: any side `t` with `3t <= min(w, h) < 3(t + 1)` is `LogoSide`. */
  lemma LogoSideUnique(size: Size, t: nat)
    requires 3 * t <= Min(size.width, size.height) < 3 * (t + 1)
    ensures t == LogoSide(size)
  {
  }

  /** On a square image, the usual output of the encoder, the logo sits on the
      diagonal and the two margins together are at least twice its side. */
  lemma SquarePlacement(n: nat, mode: string)
    ensures var p := Place(Size(n, n), mode);
      && p.x == p.y
      && 3 * p.side <= n
      && n - p.side >= 2 * p.side
  {
  }
}
