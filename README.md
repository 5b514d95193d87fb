# Offscreen render target and readback of `Renderer`

This project models the offscreen framebuffer bookkeeping and readback of the
`Renderer` class in `renderer.py`.

**The render target.** The renderer owns six OpenGL names:
- a single-sample framebuffer with a colour and a depth renderbuffer;
- a 4-sample framebuffer with a colour and a depth renderbuffer.

It also records the size they were made at. `configure` creates the target
lazily at the viewport size. When the viewport size changes, it releases the
target and builds a new one. It then binds the 4-sample framebuffer for
drawing when the OFFSCREEN flag is set (the window framebuffer otherwise) and
sets the viewport.

**Readback.** `read` resolves the 4-sample framebuffer into the single-sample
one. It returns the depth buffer converted to linear eye-space depth, with
background pixels set to 0.0, and, unless DEPTH_ONLY is set, the colour buffer
with 3 or 4 channels. Both images are flipped so that row 0 is the top row. On
macOS both are resized to the viewport size divided by the display scale.

Files:
- `optional.dfy`: the `Option` type, standing for Python's `None`.
- `render_flags.dfy`: the `RenderFlags` bit constants and the flag test `flags & flag`.
- `gl.dfy`: the part of an OpenGL context the renderer touches. This is a
  class with the live renderbuffer and framebuffer names and an allocator of
  unused names. It also has ghost state: the draw and read bindings, the bound
  renderbuffer, renderbuffer storage, framebuffer attachments, the viewport,
  and a history of the name-generating and name-deleting calls, in order.
- `renderer.dfy`: the `Renderer` class, with its six handle fields and the
  recorded size, and the methods that create, delete, configure and read the
  target.
- `images.dfy`: numpy's `reshape` and `flip(axis=0)` on a flat buffer.
- `depth_readback.dfy`: the depth conversion. It is a function per pixel and
  per image, plus the method that applies it the way the source does: a
  sentinel mask, then two masked in-place updates of a 2-D array.
- `readback.dfy`: the colour image, `_resize_image`, and the result of `read`.

The GL context is passed explicitly to every method that makes GL calls.
`sys.platform == 'darwin'` becomes the constructor parameter `onDarwin`. The
display scale `dpscale` is 2 when it holds and 1 otherwise. The pixel
buffers `glReadPixels` returns become parameters of `Read`.

Notes on the source:
- Linear depth strictly increases with device depth for both far-plane
  variants (`FiniteFarDepthIncreasing`, `InfiniteFarDepthIncreasing`).
- The resized size is computed from the viewport size
  (renderer.py:262-263), not from the render target's size. The two agree
  whenever `configure` has been called since the viewport last changed.
- The deletion test in `_configure_main_framebuffer` (renderer.py:110-112)
  binds the presence test to the width comparison only, so a height change
  alone requests a delete even when there is no target. The model keeps that
  grouping (`Rendering.DeleteRequested`). The extra call has no effect,
  because the GL calls in `_delete_main_framebuffer` are guarded by presence
  tests.
- The code has no failure path for creation and no teardown of the target.

## Model

| member | source | states |
|---|---|---|
| `RenderFlags.Named` | renderer.py:17-47 | every named flag other than NONE and SHADOWS_ALL is a single bit, and no two share a bit |
| `RenderFlags.OrComposes` | renderer.py:9-47 | a flag is set in the bitwise OR of `a` and `b` exactly when it is set in `a` or in `b`; NONE sets no flag; SHADOWS_ALL is the three shadow flags together |
| `RenderFlags.HasFlag` | renderer.py:93 | the truth test `flags & flag` detects a flag all of whose bits are in the set, and never detects Normal or anything in the empty set |
| `Rendering.Renderer.constructor` | renderer.py:66-83 | the viewport size is stored, dpscale is 2 on macOS and 1 elsewhere, and there is no render target (all six handles and both recorded dimensions None) |
| `Rendering.DeleteRequested` | renderer.py:109-113 | with no recorded height, deletion is always requested; with a framebuffer and a recorded size, it is requested exactly when the size differs from the viewport; without a framebuffer, only a height mismatch counts |
| `Rendering.CreateRenderbuffers` | renderer.py:118-133 | two distinct unused renderbuffer names become live with RGBA and 24-bit depth storage of the given size and sample count; the depth one stays bound; the history gains one generation call |
| `Rendering.CreateAttachedFramebuffer` | renderer.py:135-144 | an unused framebuffer name becomes live, is bound for drawing and gets the colour and depth attachments; the history gains one generation call |
| `Rendering.CreateFramebuffer` | renderer.py:118-144 | the two new renderbuffers are distinct and unused, and so is the new framebuffer; they get RGBA and 24-bit depth storage of the given size with the given sample count; the framebuffer gets colour and depth attachments; it is left bound for drawing and the depth renderbuffer stays bound; the history gains the two generation calls |
| `Rendering.CreatedTargetBuilt` | renderer.py:118-167 | two framebuffers made one after the other from distinct unused names form a complete target: six distinct live names, the right storage and the right attachments |
| `Rendering.ReleaseTarget` | renderer.py:174-179 | the three deleting calls on a full target, in source order: exactly its six names stop being live, their storage and attachments go, everything else in storage and attachments is kept, a binding to a deleted framebuffer reverts to 0, and a bound renderbuffer among the deleted ones reverts to 0 |
| `Rendering.CreateTarget` | renderer.py:116-167 | after both halves of the creating branch, the target is complete at the given size; exactly its six names became live, and none was live before; the history gains the single-sample generation calls, then the multisample ones; the 4-sample framebuffer is bound for drawing; storage and attachments already present are kept |
| `Rendering.Renderer.CreateMainFramebuffer` | renderer.py:116-170 | the creating branch stores the new handles and the recorded size, which equals the viewport size, so the target matches the viewport and is complete and freshly allocated |
| `Rendering.Renderer.DeleteMainFramebuffer` | renderer.py:172-187 | afterwards every handle and both recorded dimensions are None; with no target the context is unchanged (no GL call, no double free); with a target exactly its six names stop being live, their storage is gone, the history gains the three delete calls in source order, a draw or read binding to a deleted framebuffer reverts to 0, and so does a bound renderbuffer that was deleted; storage and attachments of names the renderer does not own are kept |
| `Rendering.DeleteTwice` | renderer.py:172-187 | two deletes in a row release the target exactly once |
| `Rendering.Renderer.ConfigureMainFramebuffer` | renderer.py:108-170 | afterwards the target exists, is complete and matches the viewport; if it already matched, neither the renderer nor the context changed; otherwise the old target was released before the new one was generated, the new names were not otherwise in use, only the owned names changed, storage and attachments of other names are kept, a read binding to an old framebuffer reverts to 0, the new 4-sample framebuffer is bound for drawing and its depth renderbuffer stays bound |
| `Rendering.Renderer.Configure` | renderer.py:86-98 | the target matches the viewport; the draw framebuffer is the 4-sample framebuffer when OFFSCREEN is set and 0 otherwise; the viewport is (0, 0, viewport width, viewport height); if the target already matched, the target, the history, the live names, storage, attachments, the read binding and the bound renderbuffer are all unchanged; otherwise the old target was released before the new one was created from names not otherwise in use, only the owned names changed, storage and attachments of other names are kept, a read binding to an old framebuffer reverts to 0, and the new 4-sample depth renderbuffer stays bound |
| `Rendering.ConfigureTwice` | renderer.py:108-116 | configuring twice for the same viewport leaves the history and target of the first call, so the second makes no GL name call; the first call's history is the old one when the target already matched, and otherwise the old one plus the release of the old target (if any) and the creation of the new one |
| `Rendering.ReconfigureAfterResize` | renderer.py:108-116 | after configuring twice and then changing the width, the history is the history after the first configure, then the release of the target that configure left, then the creation of the new one, so the second configure made no GL name call; that first history is the old history when the target already matched, and otherwise the old history plus the release of the old target (if any) and the creation of the target left |
| `Rendering.Renderer.Read` | renderer.py:189-254 | the single-sample framebuffer ends up bound for reading and drawing, and the result is the reference readback `ReadOutput` of the given buffers at the recorded size, with the resize applied exactly on macOS |
| `Images.Reshape` | renderer.py:214-215 | reshaping a buffer of height·width elements gives height rows of width elements |
| `Images.ReshapeAt` | renderer.py:214-215 | element (i, j) of the reshaped buffer is element i·width + j of the flat buffer |
| `Images.ReshapeCells` | renderer.py:214-215 | every cell (i, j) of the reshaped buffer is element i·width + j of the flat buffer |
| `Images.ReshapeKeeps` | renderer.py:240-247 | a property of every element of the flat buffer holds of every cell of the reshaped buffer |
| `Images.FlipRows` | renderer.py:216 | flipping keeps the row count, and row i of the result is row n-1-i of the input |
| `Images.FlippedAt` | renderer.py:214-216 | after reshape and flip, cell (i, j) is element (height-1-i)·width + j of the flat buffer |
| `DepthReadback.DepthImage` | renderer.py:214-226 | the depth image has height rows of width pixels |
| `DepthReadback.DepthPixel` | renderer.py:217-226 | a pixel at the sentinel 1.0 reads 0.0; any other pixel reads the linearisation of its remapped value 2d - 1 |
| `DepthReadback.Linearize` | renderer.py:219-225 | with the far plane at infinity the result is non-finite exactly when 1 - ndc is 0, and otherwise times (1 - ndc) gives 2·z_near; with a finite far plane it is non-finite exactly when the denominator is 0, and otherwise times the denominator gives 2·z_near·z_far |
| `DepthReadback.FarDenominator` | renderer.py:223-225 | the denominator is 2·z_far at ndc = -1 (the near plane) and 2·z_near at ndc = 1 (the far plane) |
| `DepthReadback.DepthImageAt` | renderer.py:214-226 | output pixel (i, j) is the conversion of raw element (height-1-i)·width + j, and a raw value of exactly 1.0 reads 0.0 whatever the clip planes are |
| `DepthReadback.NearPlaneDepth` | renderer.py:218-225 | device depth 0 reads exactly z_near, with a finite far plane and with the far plane at infinity |
| `DepthReadback.FarDenominatorBounds` | renderer.py:223-225 | for device depth in [0, 1) and 0 < z_near < z_far, the denominator of the finite-far formula lies in (2·z_near, 2·z_far] |
| `DepthReadback.FarDenominatorDecreasing` | renderer.py:223-225 | the denominator of the finite-far formula strictly falls as the remapped depth rises |
| `DepthReadback.FiniteFarDepthInRange` | renderer.py:218-225 | with 0 < z_near < z_far, every device depth in [0, 1) reads a finite linear depth in [z_near, z_far) |
| `DepthReadback.FiniteFarDepthIncreasing` | renderer.py:218-225 | with a finite far plane, linear depth strictly increases with device depth |
| `DepthReadback.InfiniteFarDepth` | renderer.py:220-221 | with the far plane at infinity, device depth d in [0, 1) reads z_near / (1 - d), which is at least z_near |
| `DepthReadback.InfiniteFarDepthIncreasing` | renderer.py:220-221 | with the far plane at infinity, linear depth strictly increases with device depth |
| `DepthReadback.DeviceDepth` | renderer.py:218 | remapping the projected device depth gives the projected normalised device coordinate |
| `DepthReadback.InfiniteFarInvertsProjection` | renderer.py:218-221 | with the far plane at infinity, the readback recovers the eye-space distance z of every point with z_near <= z |
| `DepthReadback.ProjectedFarDenominator` | renderer.py:223-225 | at the projected coordinate of z, the finite-far denominator times z equals 2·z_far·z_near |
| `DepthReadback.FiniteFarInvertsProjection` | renderer.py:218-225 | with a finite far plane, the readback recovers the eye-space distance z of every point with z_near <= z < z_far |
| `DepthReadback.LinearizeInvertsProjection` | renderer.py:217-226 | the readback inverts the perspective projection between the near and far planes, for both far-plane variants |
| `DepthReadback.FarPlaneReadsAsBackground` | renderer.py:217-226 | a point on the far plane projects to device depth 1.0 and reads as background 0.0 |
| `DepthReadback.LinearizeUnmasked` | renderer.py:219-225 | the masked in-place update overwrites exactly the cells not at the sentinel with their linear depth and leaves the sentinel cells remapped |
| `DepthReadback.ZeroMasked` | renderer.py:226 | the masked in-place update sets exactly the sentinel cells to 0.0, so every cell then holds its pixel's depth |
| `DepthReadback.LinearizeDepth` | renderer.py:214-226 | the array computation (reshape, flip, mask, remap, two masked updates) yields exactly the reference depth image |
| `Readback.ColorPixels` | renderer.py:240-247 | the colour buffer splits into `count` pixels of `channels` bytes each, channel c of pixel k being byte k·channels + c |
| `Readback.ColorImage` | renderer.py:236-248 | the colour image has height rows of width pixels |
| `Readback.ColorImageAt` | renderer.py:240-248 | output pixel (i, j) is pixel (height-1-i)·width + j of the buffer |
| `Readback.ColorPixelLengths` | renderer.py:236-247 | every colour pixel has 4 channels with RGBA and 3 without |
| `Readback.Channels` | renderer.py:236-247 | a colour pixel has 4 channels exactly when RGBA is set and 3 exactly when it is not |
| `Readback.ResizeImage` | renderer.py:256-265 | the resized image has size (viewport_width // dpscale, viewport_height // dpscale) |
| `Readback.ReadOutput` | renderer.py:228-254 | the result is depth alone exactly when DEPTH_ONLY is set; the depth image, and the colour image when present, have the framebuffer shape without the resize and shape (viewport_height // dpscale, viewport_width // dpscale) with it |
| `Readback.ReadOutputShape` | renderer.py:228-254 | DEPTH_ONLY returns the depth image alone, already resized when the resize applies; otherwise colour and depth come back; colour has 4 channels exactly with RGBA and 3 otherwise; without the resize both images keep the framebuffer size; with it both are resized to viewport // dpscale, depth with nearest and colour with bilinear |

## Left out

- The pixel effects of OpenGL are not modelled: rendering, the multisample
  resolve by `glBlitFramebuffer` (renderer.py:200-207) and what `glReadPixels`
  reads. The buffers `glReadPixels` returns are parameters of `Read`.
- The depth test state set in `_configure_forward_pass_viewport` is not
  modelled: `glEnable(GL_DEPTH_TEST)`, `glDepthMask`, `glDepthFunc` and
  `glDepthRange` (renderer.py:99-102). It does not touch the render target.
- PIL resampling (renderer.py:258-265): only the output size and the filter
  are modelled, not the resampled pixel values.
- float32 arithmetic is idealised as real arithmetic. A zero denominator in
  the depth formula gives `NonFinite` (IEEE infinity or NaN) instead of a
  rounded value.
- `sys.platform` is replaced by the constructor parameter `onDarwin`.
- The `print` calls, the `point_size` and `_shadow_fb` fields, and every flag
  other than OFFSCREEN, DEPTH_ONLY and RGBA are left out. They have no
  behaviour in this code.
- GL errors are not modelled. Reading with no target (all handles None) is
  excluded by `Read`'s precondition, because the source's GL calls would then
  fail with `None` sizes.
- Name reuse by the GL implementation is not modelled: the allocator never
  hands out a deleted name again.
- The GL side effect of detaching a deleted renderbuffer from framebuffers
  that are still live is not modelled. It never arises here, because
  framebuffers are deleted before their renderbuffers.
- `Rendering.Renderer.CreateMainFramebuffer` stores the six handles after all
  the GL calls, whereas the source assigns each handle as soon as its name is
  generated. The GL calls in between take the names from these fields. The
  model passes the same names from local variables, so the calls and the
  final state are the same. GL errors part-way through are not modelled (see
  above).
- `Rendering.Renderer.DeleteMainFramebuffer` tests presence once (`mainFb`)
  where the source tests `_main_fb`, `_main_cb` and `_main_db` separately
  (renderer.py:174-179). The renderer's invariant sets or clears the six
  handles together, so the three tests always agree.
