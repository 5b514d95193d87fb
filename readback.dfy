/**
  What `Renderer.read` returns (renderer.py): the linear depth image and,
  unless DepthOnly is set, the colour image with three or four channels per
  pixel, both flipped so that row 0 is the top of the image, and both
  resized to the viewport size divided by the display scale on macOS.
 */
module Readback {
  import opened Optional
  import RenderFlags
  import Images
  import DepthReadback

  newtype byte = x: int | 0 <= x < 256

  /** PIL resampling filters: nearest for depth, bilinear for colour. */
  datatype Filter = Nearest | Bilinear

  /** An image as `read` returns it: pixel rows at framebuffer resolution, or
      the result of resizing `source` with `filter` to width x height (only
      the size and the filter of a resize are modelled). */
  datatype Image<T> =
    | Pixels(rows: seq<seq<T>>)
    | Resampled(source: seq<seq<T>>, filter: Filter, width: nat, height: nat)

  /** The numpy shape (height, width) of an image. */
  predicate HasShape<T>(img: Image<T>, height: nat, width: nat) {
    match img
    case Pixels(rows) => |rows| == height && forall i :: 0 <= i < height ==> |rows[i]| == width
    case Resampled(_, _, w, h) => h == height && w == width
  }

  datatype ReadResult =
    | DepthOnly(depth: Image<DepthReadback.Float>)
    | ColorAndDepth(color: Image<seq<byte>>, depth: Image<DepthReadback.Float>)

  /** Channels per colour pixel: GL_RGBA with the Rgba flag, GL_RGB without. */
  function Channels(flags: RenderFlags.Flags): (n: nat)
    ensures n == 4 <==> RenderFlags.HasFlag(flags, RenderFlags.Rgba)
    ensures n == 3 <==> !RenderFlags.HasFlag(flags, RenderFlags.Rgba)
  {
    if RenderFlags.HasFlag(flags, RenderFlags.Rgba) then 4 else 3
  }

  /** The colour readback cut into consecutive pixels of `channels` bytes:
      channel c of pixel k is byte k * channels + c. */
  function ColorPixels(buf: seq<byte>, count: nat, channels: nat): (pixels: seq<seq<byte>>)
    requires |buf| == count * channels
    ensures |pixels| == count
    ensures forall k :: 0 <= k < count ==> |pixels[k]| == channels
    ensures forall k, c :: 0 <= k < count && 0 <= c < channels ==>
      Images.Offset(k, channels, c) < |buf| && pixels[k][c] == buf[Images.Offset(k, channels, c)]
  {
    Images.ReshapeCells(buf, count, channels);
    Images.Reshape(buf, count, channels)
  }

  /** The colour readback reshaped to (height, width, channels) and flipped. */
  function ColorImage(buf: seq<byte>, height: nat, width: nat, channels: nat): (im: seq<seq<seq<byte>>>)
    requires |buf| == height * width * channels
    ensures |im| == height
    ensures forall i :: 0 <= i < height ==> |im[i]| == width
  {
    Images.FlipRows(Images.Reshape(ColorPixels(buf, height * width, channels), height, width))
  }

  /** Output pixel (i, j) is pixel j of input row height - 1 - i, that is
      pixel (height - 1 - i) * width + j of the buffer read as consecutive
      runs of `channels` bytes. */
  lemma ColorImageAt(buf: seq<byte>, height: nat, width: nat, channels: nat, i: nat, j: nat)
    requires |buf| == height * width * channels
    requires i < height && j < width
    ensures Images.Offset(height - 1 - i, width, j) < height * width
    ensures ColorImage(buf, height, width, channels)[i][j]
         == ColorPixels(buf, height * width, channels)[Images.Offset(height - 1 - i, width, j)]
  {
    var pixels := ColorPixels(buf, height * width, channels);
    Images.FlippedAt(pixels, height, width, i, j);
  }

  /** Every pixel of the colour image has `channels` channels. */
  lemma ColorPixelLengths(buf: seq<byte>, height: nat, width: nat, channels: nat)
    requires |buf| == height * width * channels
    ensures forall i, j :: 0 <= i < height && 0 <= j < width ==> |ColorImage(buf, height, width, channels)[i][j]| == channels
  {
    var pixels := ColorPixels(buf, height * width, channels);
    Images.ReshapeKeeps(pixels, height, width, (px: seq<byte>) => |px| == channels);
  }

  /** `_resize_image`: the image resized to (viewport_width // dpscale,
      viewport_height // dpscale), nearest for depth and bilinear (antialias)
      for colour. */
  function ResizeImage<T>(img: seq<seq<T>>, antialias: bool, viewportWidth: nat, viewportHeight: nat, dpscale: nat): (r: Image<T>)
    requires dpscale > 0
    ensures HasShape(r, viewportHeight / dpscale, viewportWidth / dpscale)
  {
    Resampled(img, if antialias then Bilinear else Nearest, viewportWidth / dpscale, viewportHeight / dpscale)
  }

  /** The result of `read` on a render target of width x height, given the
      depth and colour buffers glReadPixels returns; `resize` is the platform
      test (macOS) that guards both resizes. */
  function ReadOutput(depthBuf: seq<real>, colorBuf: seq<byte>, width: nat, height: nat,
                      zNear: real, zFar: Option<real>, flags: RenderFlags.Flags,
                      resize: bool, viewportWidth: nat, viewportHeight: nat, dpscale: nat): (r: ReadResult)
    requires dpscale > 0
    requires |depthBuf| == height * width
    requires !RenderFlags.HasFlag(flags, RenderFlags.DepthOnly) ==> |colorBuf| == height * width * Channels(flags)
    ensures r.DepthOnly? <==> RenderFlags.HasFlag(flags, RenderFlags.DepthOnly)
    ensures HasShape(r.depth, if resize then viewportHeight / dpscale else height,
                              if resize then viewportWidth / dpscale else width)
    ensures r.ColorAndDepth? ==> HasShape(r.color, if resize then viewportHeight / dpscale else height,
                                                   if resize then viewportWidth / dpscale else width)
  {
    var depth := DepthReadback.DepthImage(depthBuf, height, width, zNear, zFar);
    var depthOut := if resize then ResizeImage(depth, false, viewportWidth, viewportHeight, dpscale) else Pixels(depth);
    if RenderFlags.HasFlag(flags, RenderFlags.DepthOnly) then
      DepthOnly(depthOut)
    else
      var color := ColorImage(colorBuf, height, width, Channels(flags));
      var colorOut := if resize then ResizeImage(color, true, viewportWidth, viewportHeight, dpscale) else Pixels(color);
      ColorAndDepth(colorOut, depthOut)
  }

  /** The shape rules of `read`: DepthOnly returns the depth image alone
      (already rescaled, since the rescale comes first); otherwise a colour
      image of (height, width) pixels of 4 channels with Rgba and 3 without.
      Without the resize both images are the framebuffer-size images
      unchanged; with it both are resized to (viewport_height // dpscale,
      viewport_width // dpscale), depth with nearest and colour with bilinear. */
  lemma ReadOutputShape(depthBuf: seq<real>, colorBuf: seq<byte>, width: nat, height: nat,
                        zNear: real, zFar: Option<real>, flags: RenderFlags.Flags,
                        resize: bool, viewportWidth: nat, viewportHeight: nat, dpscale: nat)
    requires dpscale > 0
    requires |depthBuf| == height * width
    requires !RenderFlags.HasFlag(flags, RenderFlags.DepthOnly) ==> |colorBuf| == height * width * Channels(flags)
    ensures var r := ReadOutput(depthBuf, colorBuf, width, height, zNear, zFar, flags, resize, viewportWidth, viewportHeight, dpscale);
      && (r.DepthOnly? <==> RenderFlags.HasFlag(flags, RenderFlags.DepthOnly))
      && (Channels(flags) == 4 <==> RenderFlags.HasFlag(flags, RenderFlags.Rgba))
      && (Channels(flags) == 3 <==> !RenderFlags.HasFlag(flags, RenderFlags.Rgba))
      && (!resize ==>
            r.depth == Pixels(DepthReadback.DepthImage(depthBuf, height, width, zNear, zFar)) &&
            HasShape(r.depth, height, width) &&
            (r.ColorAndDepth? ==>
               r.color == Pixels(ColorImage(colorBuf, height, width, Channels(flags))) &&
               HasShape(r.color, height, width) &&
               forall i, j :: 0 <= i < height && 0 <= j < width ==> |r.color.rows[i][j]| == Channels(flags)))
      && (resize ==>
            r.depth == Resampled(DepthReadback.DepthImage(depthBuf, height, width, zNear, zFar), Nearest,
                                 viewportWidth / dpscale, viewportHeight / dpscale) &&
            HasShape(r.depth, viewportHeight / dpscale, viewportWidth / dpscale) &&
            (r.ColorAndDepth? ==>
               r.color == Resampled(ColorImage(colorBuf, height, width, Channels(flags)), Bilinear,
                                    viewportWidth / dpscale, viewportHeight / dpscale) &&
               HasShape(r.color, viewportHeight / dpscale, viewportWidth / dpscale)))
  {
    if !RenderFlags.HasFlag(flags, RenderFlags.DepthOnly) {
      ColorPixelLengths(colorBuf, height, width, Channels(flags));
    }
  }
}
