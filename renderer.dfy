/**
  The offscreen render target of `Renderer` (renderer.py): a single-sample
  framebuffer (colour and depth renderbuffers) that is read back, and a
  4-sample framebuffer of the same size that is drawn into, created lazily
  at the viewport size, released and recreated when the viewport size
  changes, and read back as linear depth and colour images.
 */
module Rendering {
  import opened Optional
  import opened GL
  import RenderFlags
  import Readback
  import DepthReadback

  /** The six GL names of a render target. */
  datatype Handles = Handles(fb: nat, cb: nat, db: nat, fbMs: nat, cbMs: nat, dbMs: nat) {
    function Renderbuffers(): set<nat> {
      {cb, db} + {cbMs, dbMs}
    }

    function Framebuffers(): set<nat> {
      {fb} + {fbMs}
    }
  }

  /** The deleting calls `_delete_main_framebuffer` makes on a full target,
      in order: both framebuffers, both colour renderbuffers, both depth
      renderbuffers. */
  function ReleaseEvents(h: Handles): seq<Event> {
    [Deleted(Framebuffer, [h.fb, h.fbMs])] +
    ([Deleted(Renderbuffer, [h.cb, h.cbMs])] +
     [Deleted(Renderbuffer, [h.db, h.dbMs])])
  }

  /** The name-generating calls of CreateFramebuffer: two renderbuffers, then
      one framebuffer. */
  function PairEvents(cb: nat, db: nat, fb: nat): seq<Event> {
    [Generated(Renderbuffer, [cb, db]), Generated(Framebuffer, [fb])]
  }

  /** The name-generating calls that create a target, in order: the
      single-sample half, then the multisample half. */
  function CreateEvents(h: Handles): seq<Event> {
    PairEvents(h.cb, h.db, h.fb) + PairEvents(h.cbMs, h.dbMs, h.fbMs)
  }

  lemma UnionAssoc<T>(a: set<T>, b: set<T>, c: set<T>)
    ensures (a + b) + c == a + (b + c)
  {
  }

  lemma AppendAssoc<T>(a: seq<T>, b: seq<T>, c: seq<T>)
    ensures (a + b) + c == a + (b + c)
  {
  }

  /** A target as `_configure_main_framebuffer` builds it, in a context with
      the given live names, storage and attachments: six distinct live names,
      RGBA colour and 24-bit depth storage of width x height (single-sample
      for the framebuffer that is read back, 4 samples for the one drawn
      into), and each framebuffer's two attachments. */
  predicate Built(t: Handles, width: nat, height: nat, renderbuffers: set<nat>, framebuffers: set<nat>,
                  storage: map<nat, Storage>, attachments: map<(nat, AttachmentPoint), nat>)
  {
    t.fb != t.fbMs &&
    t.cb != t.db && t.cb != t.cbMs && t.cb != t.dbMs &&
    t.db != t.cbMs && t.db != t.dbMs && t.cbMs != t.dbMs &&
    t.Renderbuffers() <= renderbuffers &&
    t.Framebuffers() <= framebuffers &&
    t.cb in storage && storage[t.cb] == Storage(0, Rgba, width, height) &&
    t.db in storage && storage[t.db] == Storage(0, DepthComponent24, width, height) &&
    t.cbMs in storage && storage[t.cbMs] == Storage(4, Rgba, width, height) &&
    t.dbMs in storage && storage[t.dbMs] == Storage(4, DepthComponent24, width, height) &&
    (t.fb, ColorAttachment0) in attachments && attachments[(t.fb, ColorAttachment0)] == t.cb &&
    (t.fb, DepthAttachment) in attachments && attachments[(t.fb, DepthAttachment)] == t.db &&
    (t.fbMs, ColorAttachment0) in attachments && attachments[(t.fbMs, ColorAttachment0)] == t.cbMs &&
    (t.fbMs, DepthAttachment) in attachments && attachments[(t.fbMs, DepthAttachment)] == t.dbMs
  }

  /** Two framebuffers created one after the other, each with storage and
      attachments as CreateFramebuffer gives them, make a built target,
      whatever the storage and attachments held before. */
  lemma CreatedTargetBuilt(t: Handles, width: nat, height: nat, renderbuffers: set<nat>, framebuffers: set<nat>,
                           storage: map<nat, Storage>, attachments: map<(nat, AttachmentPoint), nat>)
    requires t.cb != t.db && t.cbMs != t.dbMs && t.fb != t.fbMs
    requires t.cbMs !in renderbuffers + {t.cb, t.db} && t.dbMs !in renderbuffers + {t.cb, t.db}
    ensures Built(t, width, height,
                  renderbuffers + {t.cb, t.db} + {t.cbMs, t.dbMs},
                  framebuffers + {t.fb} + {t.fbMs},
                  storage[t.cb := Storage(0, Rgba, width, height)][t.db := Storage(0, DepthComponent24, width, height)]
                         [t.cbMs := Storage(4, Rgba, width, height)][t.dbMs := Storage(4, DepthComponent24, width, height)],
                  attachments[(t.fb, ColorAttachment0) := t.cb][(t.fb, DepthAttachment) := t.db]
                             [(t.fbMs, ColorAttachment0) := t.cbMs][(t.fbMs, DepthAttachment) := t.dbMs])
  {
  }

  /** Every storage entry of a renderbuffer outside `dropped` is still there,
      unchanged. */
  predicate KeepsStorage(before: map<nat, Storage>, after: map<nat, Storage>, dropped: set<nat>) {
    forall n :: n in before && n !in dropped ==> n in after && after[n] == before[n]
  }

  /** Every attachment of a framebuffer outside `dropped` is still there,
      unchanged. */
  predicate KeepsAttachments(before: map<(nat, AttachmentPoint), nat>, after: map<(nat, AttachmentPoint), nat>,
                             dropped: set<nat>) {
    forall key :: key in before && key.0 !in dropped ==> key in after && after[key] == before[key]
  }

  /** The deletion test of `_configure_main_framebuffer` exactly as written:
      `and` binds tighter than `or`, so it reads
      `(fb is not None and width != dims[0]) or height != dims[1]`.
      With no stored size it always asks for deletion; with a framebuffer and
      a stored size it asks exactly when the size differs from the viewport;
      without a framebuffer a width mismatch alone does not count. */
  function DeleteRequested(hasFb: bool, width: nat, height: nat, dims: (Option<nat>, Option<nat>)): (r: bool)
    ensures dims.1.None? ==> r
    ensures hasFb && dims.0.Some? && dims.1.Some? ==> (r <==> dims != (Some(width), Some(height)))
    ensures !hasFb ==> (r <==> dims.1 != Some(height))
  {
    (hasFb && Some(width) != dims.0) || Some(height) != dims.1
  }

  class Renderer {
    /** Whether the process runs on macOS (`sys.platform == 'darwin'`). */
    const onDarwin: bool
    /** Display density scale: 2 on macOS (retina), 1 elsewhere. */
    const dpscale: nat
    var viewportWidth: nat
    var viewportHeight: nat
    var mainFb: Option<nat>
    var mainCb: Option<nat>
    var mainDb: Option<nat>
    var mainFbMs: Option<nat>
    var mainCbMs: Option<nat>
    var mainDbMs: Option<nat>
    var mainFbDims: (Option<nat>, Option<nat>)

    /** No render target: every handle and the stored size are None. */
    predicate NoTarget()
      reads this
    {
      mainFb.None? && mainCb.None? && mainDb.None? &&
      mainFbMs.None? && mainCbMs.None? && mainDbMs.None? &&
      mainFbDims == (None, None)
    }

    /** A render target: every handle and the stored size are set. */
    predicate HasTarget()
      reads this
    {
      mainFb.Some? && mainCb.Some? && mainDb.Some? &&
      mainFbMs.Some? && mainCbMs.Some? && mainDbMs.Some? &&
      mainFbDims.0.Some? && mainFbDims.1.Some?
    }

    function Target(): Handles
      reads this
      requires HasTarget()
    {
      Handles(mainFb.value, mainCb.value, mainDb.value, mainFbMs.value, mainCbMs.value, mainDbMs.value)
    }

    /** A render target of the current viewport size. */
    predicate Matches()
      reads this
    {
      HasTarget() && mainFbDims == (Some(viewportWidth), Some(viewportHeight))
    }

    /** The renderbuffer names the renderer owns. */
    function OwnedRenderbuffers(): set<nat>
      reads this
    {
      if HasTarget() then Target().Renderbuffers() else {}
    }

    /** The framebuffer names the renderer owns. */
    function OwnedFramebuffers(): set<nat>
      reads this
    {
      if HasTarget() then Target().Framebuffers() else {}
    }

    /** The target as `_configure_main_framebuffer` builds it (see Built). */
    ghost predicate TargetBuilt(ctx: Context)
      reads this, ctx`renderbuffers, ctx`framebuffers, ctx`storage, ctx`attachments
      requires HasTarget()
    {
      Built(Target(), mainFbDims.0.value, mainFbDims.1.value,
            ctx.renderbuffers, ctx.framebuffers, ctx.storage, ctx.attachments)
    }

    /** The renderer's invariant: either no target at all, or a complete one. */
    ghost predicate Valid(ctx: Context)
      reads this, ctx`renderbuffers, ctx`framebuffers, ctx`nextRenderbuffer, ctx`nextFramebuffer, ctx`storage, ctx`attachments
    {
      ctx.Valid() &&
      dpscale == (if onDarwin then 2 else 1) &&
      (NoTarget() || (HasTarget() && TargetBuilt(ctx)))
    }

    /** The old target (if any) was released and a new one created: the
        history gains the release calls, then the creation calls; exactly the
        owned names changed; the new names were not otherwise in use; the
        storage and attachments of names the renderer does not own are kept;
        and a read binding to an old framebuffer reverts to 0. */
    twostate predicate Replaced(ctx: Context)
      reads this, ctx`history, ctx`renderbuffers, ctx`framebuffers, ctx`storage, ctx`attachments, ctx`readFramebuffer
    {
      HasTarget() &&
      ctx.history == old(ctx.history) +
        (if old(HasTarget()) then ReleaseEvents(old(Target())) else []) +
        CreateEvents(Target()) &&
      ctx.renderbuffers == (old(ctx.renderbuffers) - old(OwnedRenderbuffers())) + Target().Renderbuffers() &&
      ctx.framebuffers == (old(ctx.framebuffers) - old(OwnedFramebuffers())) + Target().Framebuffers() &&
      Target().Renderbuffers() !! old(ctx.renderbuffers) - old(OwnedRenderbuffers()) &&
      Target().Framebuffers() !! old(ctx.framebuffers) - old(OwnedFramebuffers()) &&
      KeepsStorage(old(ctx.storage), ctx.storage, old(OwnedRenderbuffers())) &&
      KeepsAttachments(old(ctx.attachments), ctx.attachments, old(OwnedFramebuffers())) &&
      ctx.readFramebuffer == if old(ctx.readFramebuffer) in old(OwnedFramebuffers()) then 0 else old(ctx.readFramebuffer)
    }

    /** What a call to `_configure_main_framebuffer` did, as seen from after
        it: nothing at all if the target already matched the viewport;
        otherwise the target was replaced (see Replaced), the multisample
        framebuffer is left bound for drawing, its depth renderbuffer stays
        bound and the viewport is untouched. */
    twostate predicate Refreshed(ctx: Context)
      reads this, ctx
    {
      if old(Matches()) then
        unchanged(this) && unchanged(ctx)
      else
        Replaced(ctx) &&
        ctx.drawFramebuffer == Target().fbMs &&
        ctx.boundRenderbuffer == Target().dbMs &&
        ctx.viewport == old(ctx.viewport)
    }

    /** `__init__`: no render target yet. */
    constructor (viewportWidth: nat, viewportHeight: nat, onDarwin: bool)
      ensures this.viewportWidth == viewportWidth && this.viewportHeight == viewportHeight
      ensures this.onDarwin == onDarwin && dpscale == (if onDarwin then 2 else 1)
      ensures NoTarget()
    {
      this.onDarwin := onDarwin;
      dpscale := if onDarwin then 2 else 1;
      this.viewportWidth := viewportWidth;
      this.viewportHeight := viewportHeight;
      mainFb, mainCb, mainDb := None, None, None;
      mainFbMs, mainCbMs, mainDbMs := None, None, None;
      mainFbDims := (None, None);
    }

    /** `_delete_main_framebuffer`: each pair of names is deleted only if its
        single-sample handle is set; afterwards there is no target. */
    method DeleteMainFramebuffer(ctx: Context)
      requires ctx.Valid() && (NoTarget() || HasTarget())
      modifies this`mainFb, this`mainCb, this`mainDb, this`mainFbMs, this`mainCbMs, this`mainDbMs, this`mainFbDims
      modifies ctx`framebuffers, ctx`drawFramebuffer, ctx`readFramebuffer, ctx`attachments
      modifies ctx`renderbuffers, ctx`boundRenderbuffer, ctx`storage, ctx`history
      ensures ctx.Valid() && NoTarget()
      ensures old(NoTarget()) ==> unchanged(ctx)
      ensures old(HasTarget()) ==> ctx.history == old(ctx.history) + ReleaseEvents(old(Target()))
      ensures ctx.renderbuffers == old(ctx.renderbuffers) - old(OwnedRenderbuffers())
      ensures ctx.framebuffers == old(ctx.framebuffers) - old(OwnedFramebuffers())
      ensures ctx.drawFramebuffer == if old(ctx.drawFramebuffer) in old(OwnedFramebuffers()) then 0 else old(ctx.drawFramebuffer)
      ensures ctx.readFramebuffer == if old(ctx.readFramebuffer) in old(OwnedFramebuffers()) then 0 else old(ctx.readFramebuffer)
      ensures ctx.boundRenderbuffer == if old(ctx.boundRenderbuffer) in old(OwnedRenderbuffers()) then 0 else old(ctx.boundRenderbuffer)
      ensures KeepsStorage(old(ctx.storage), ctx.storage, old(OwnedRenderbuffers()))
      ensures forall n :: n in old(OwnedRenderbuffers()) ==> n !in ctx.storage
      ensures KeepsAttachments(old(ctx.attachments), ctx.attachments, old(OwnedFramebuffers()))
    {
      if mainFb.Some? {
        ReleaseTarget(ctx, Target());
      }
      mainFb, mainCb, mainDb := None, None, None;
      mainFbMs, mainCbMs, mainDbMs := None, None, None;
      mainFbDims := (None, None);
    }

    /** The creating branch of `_configure_main_framebuffer`: a single-sample
        and a 4-sample framebuffer of the viewport size, with the multisample
        one left bound for drawing and its depth renderbuffer left bound. */
    method CreateMainFramebuffer(ctx: Context)
      requires ctx.Valid() && NoTarget()
      modifies this`mainFb, this`mainCb, this`mainDb, this`mainFbMs, this`mainCbMs, this`mainDbMs, this`mainFbDims
      modifies ctx`renderbuffers, ctx`nextRenderbuffer, ctx`framebuffers, ctx`nextFramebuffer
      modifies ctx`boundRenderbuffer, ctx`drawFramebuffer, ctx`storage, ctx`attachments, ctx`history
      ensures ctx.Valid() && Matches() && TargetBuilt(ctx)
      ensures ctx.history == old(ctx.history) + CreateEvents(Target())
      ensures ctx.renderbuffers == old(ctx.renderbuffers) + Target().Renderbuffers()
      ensures ctx.framebuffers == old(ctx.framebuffers) + Target().Framebuffers()
      ensures Target().Renderbuffers() !! old(ctx.renderbuffers)
      ensures Target().Framebuffers() !! old(ctx.framebuffers)
      ensures KeepsStorage(old(ctx.storage), ctx.storage, {})
      ensures KeepsAttachments(old(ctx.attachments), ctx.attachments, {})
      ensures ctx.drawFramebuffer == Target().fbMs && ctx.boundRenderbuffer == Target().dbMs
    {
      var t := CreateTarget(ctx, viewportWidth, viewportHeight);
      mainFb, mainCb, mainDb := Some(t.fb), Some(t.cb), Some(t.db);
      mainFbMs, mainCbMs, mainDbMs := Some(t.fbMs), Some(t.cbMs), Some(t.dbMs);
      mainFbDims := (Some(viewportWidth), Some(viewportHeight));
    }

    /** `_configure_main_framebuffer`: afterwards there is a target of the
        viewport size; it is the old one when that already matched. */
    method ConfigureMainFramebuffer(ctx: Context)
      requires Valid(ctx)
      modifies this`mainFb, this`mainCb, this`mainDb, this`mainFbMs, this`mainCbMs, this`mainDbMs, this`mainFbDims
      modifies ctx`renderbuffers, ctx`nextRenderbuffer, ctx`framebuffers, ctx`nextFramebuffer
      modifies ctx`boundRenderbuffer, ctx`drawFramebuffer, ctx`readFramebuffer, ctx`storage, ctx`attachments, ctx`history
      ensures Valid(ctx) && Matches()
      ensures Refreshed(ctx)
    {
      if DeleteRequested(mainFb.Some?, viewportWidth, viewportHeight, mainFbDims) {
        DeleteMainFramebuffer(ctx);
      }
      if mainFb.None? {
        CreateMainFramebuffer(ctx);
      }
    }

    /** `configure` / `_configure_forward_pass_viewport`: ensure the target,
        bind the multisample framebuffer for drawing when rendering offscreen
        (the window's framebuffer otherwise) and set the viewport. */
    method Configure(ctx: Context, flags: RenderFlags.Flags)
      requires Valid(ctx)
      modifies this`mainFb, this`mainCb, this`mainDb, this`mainFbMs, this`mainCbMs, this`mainDbMs, this`mainFbDims
      modifies ctx`renderbuffers, ctx`nextRenderbuffer, ctx`framebuffers, ctx`nextFramebuffer
      modifies ctx`boundRenderbuffer, ctx`drawFramebuffer, ctx`readFramebuffer, ctx`storage, ctx`attachments, ctx`history
      modifies ctx`viewport
      ensures Valid(ctx) && Matches()
      ensures ctx.drawFramebuffer == if RenderFlags.HasFlag(flags, RenderFlags.Offscreen) then Target().fbMs else 0
      ensures ctx.viewport == Rect(0, 0, viewportWidth, viewportHeight)
      ensures old(Matches()) ==>
        Target() == old(Target()) && ctx.history == old(ctx.history) &&
        ctx.renderbuffers == old(ctx.renderbuffers) && ctx.framebuffers == old(ctx.framebuffers) &&
        ctx.storage == old(ctx.storage) && ctx.attachments == old(ctx.attachments) &&
        ctx.readFramebuffer == old(ctx.readFramebuffer) && ctx.boundRenderbuffer == old(ctx.boundRenderbuffer)
      ensures !old(Matches()) ==> Replaced(ctx) && ctx.boundRenderbuffer == Target().dbMs
    {
      ConfigureMainFramebuffer(ctx);
      assert !old(Matches()) ==> Replaced(ctx) && ctx.boundRenderbuffer == Target().dbMs;
      ctx.BindDrawFramebuffer(if RenderFlags.HasFlag(flags, RenderFlags.Offscreen) then mainFbMs.value else 0);
      ctx.SetViewport(0, 0, viewportWidth, viewportHeight);
    }

    /** `read` / `_read_main_framebuffer`: resolve the multisample target into
        the single-sample one (the blits move pixels, which are not modelled),
        leave the single-sample framebuffer bound for reading and drawing, and
        turn the buffers glReadPixels returns into the images `read` returns.
        The target must exist: with no stored size the GL calls fail. */
    method Read(ctx: Context, zNear: real, zFar: Option<real>, flags: RenderFlags.Flags,
                depthBuf: seq<real>, colorBuf: seq<Readback.byte>)
      returns (result: Readback.ReadResult)
      requires Valid(ctx) && HasTarget()
      requires |depthBuf| == mainFbDims.1.value * mainFbDims.0.value
      requires !RenderFlags.HasFlag(flags, RenderFlags.DepthOnly) ==>
        |colorBuf| == mainFbDims.1.value * mainFbDims.0.value * Readback.Channels(flags)
      modifies ctx`readFramebuffer, ctx`drawFramebuffer
      ensures Valid(ctx)
      ensures ctx.readFramebuffer == Target().fb && ctx.drawFramebuffer == Target().fb
      ensures result == Readback.ReadOutput(depthBuf, colorBuf, mainFbDims.0.value, mainFbDims.1.value,
                                            zNear, zFar, flags, onDarwin, viewportWidth, viewportHeight, dpscale)
    {
      var width, height := mainFbDims.0.value, mainFbDims.1.value;
      ctx.BindReadFramebuffer(mainFbMs.value);
      ctx.BindDrawFramebuffer(mainFb.value);
      ctx.BindReadFramebuffer(mainFb.value);

      var depth := DepthReadback.LinearizeDepth(depthBuf, height, width, zNear, zFar);
      var depthIm := Readback.Pixels(depth);
      if onDarwin {
        depthIm := Readback.ResizeImage(depth, false, viewportWidth, viewportHeight, dpscale);
      }
      if RenderFlags.HasFlag(flags, RenderFlags.DepthOnly) {
        return Readback.DepthOnly(depthIm);
      }

      var color := Readback.ColorImage(colorBuf, height, width, Readback.Channels(flags));
      var colorIm := Readback.Pixels(color);
      if onDarwin {
        colorIm := Readback.ResizeImage(color, true, viewportWidth, viewportHeight, dpscale);
      }
      result := Readback.ColorAndDepth(colorIm, depthIm);
    }
  }

  /** The deleting calls of `_delete_main_framebuffer` on a full target, in
      source order: both framebuffers, both colour renderbuffers, both depth
      renderbuffers. */
  method ReleaseTarget(ctx: Context, t: Handles)
    requires ctx.Valid()
    modifies ctx`framebuffers, ctx`drawFramebuffer, ctx`readFramebuffer, ctx`attachments
    modifies ctx`renderbuffers, ctx`boundRenderbuffer, ctx`storage, ctx`history
    ensures ctx.Valid()
    ensures ctx.history == old(ctx.history) + ReleaseEvents(t)
    ensures ctx.renderbuffers == old(ctx.renderbuffers) - t.Renderbuffers()
    ensures ctx.framebuffers == old(ctx.framebuffers) - t.Framebuffers()
    ensures ctx.drawFramebuffer == if old(ctx.drawFramebuffer) in t.Framebuffers() then 0 else old(ctx.drawFramebuffer)
    ensures ctx.readFramebuffer == if old(ctx.readFramebuffer) in t.Framebuffers() then 0 else old(ctx.readFramebuffer)
    ensures ctx.boundRenderbuffer == if old(ctx.boundRenderbuffer) in t.Renderbuffers() then 0 else old(ctx.boundRenderbuffer)
    ensures KeepsStorage(old(ctx.storage), ctx.storage, t.Renderbuffers())
    ensures forall n :: n in t.Renderbuffers() ==> n !in ctx.storage
    ensures KeepsAttachments(old(ctx.attachments), ctx.attachments, t.Framebuffers())
  {
    ctx.DeleteFramebuffers([t.fb, t.fbMs]);
    ctx.DeleteRenderbuffers([t.cb, t.cbMs]);
    ctx.DeleteRenderbuffers([t.db, t.dbMs]);
    AppendAssoc(old(ctx.history) + [Deleted(Framebuffer, [t.fb, t.fbMs])],
                [Deleted(Renderbuffer, [t.cb, t.cbMs])], [Deleted(Renderbuffer, [t.db, t.dbMs])]);
    AppendAssoc(old(ctx.history), [Deleted(Framebuffer, [t.fb, t.fbMs])],
                [Deleted(Renderbuffer, [t.cb, t.cbMs])] + [Deleted(Renderbuffer, [t.db, t.dbMs])]);
  }

  /** One half of the creating branch of `_configure_main_framebuffer`:
      generate a colour and a depth renderbuffer, give them RGBA and 24-bit
      depth storage of width x height with `samples` samples (0 for
      glRenderbufferStorage, 4 for glRenderbufferStorageMultisample), generate
      a framebuffer, bind it for drawing and attach the two renderbuffers. */
  method CreateFramebuffer(ctx: Context, samples: nat, width: nat, height: nat) returns (fb: nat, cb: nat, db: nat)
    requires ctx.Valid()
    modifies ctx`renderbuffers, ctx`nextRenderbuffer, ctx`framebuffers, ctx`nextFramebuffer
    modifies ctx`boundRenderbuffer, ctx`drawFramebuffer, ctx`storage, ctx`attachments, ctx`history
    ensures ctx.Valid()
    ensures cb != db && cb !in old(ctx.renderbuffers) && db !in old(ctx.renderbuffers) && fb !in old(ctx.framebuffers)
    ensures ctx.renderbuffers == old(ctx.renderbuffers) + {cb, db}
    ensures ctx.framebuffers == old(ctx.framebuffers) + {fb}
    ensures ctx.storage == old(ctx.storage)[cb := Storage(samples, Rgba, width, height)]
                                           [db := Storage(samples, DepthComponent24, width, height)]
    ensures ctx.attachments == old(ctx.attachments)[(fb, ColorAttachment0) := cb][(fb, DepthAttachment) := db]
    ensures ctx.history == old(ctx.history) + PairEvents(cb, db, fb)
    ensures ctx.drawFramebuffer == fb && ctx.boundRenderbuffer == db
  {
    cb, db := CreateRenderbuffers(ctx, samples, width, height);
    fb := CreateAttachedFramebuffer(ctx, cb, db);
  }

  /** Lines 118-133 (or 147-157): two new renderbuffers with colour and
      depth storage; the depth one is left bound. */
  method CreateRenderbuffers(ctx: Context, samples: nat, width: nat, height: nat) returns (cb: nat, db: nat)
    requires ctx.Valid()
    modifies ctx`renderbuffers, ctx`nextRenderbuffer, ctx`boundRenderbuffer, ctx`storage, ctx`history
    ensures ctx.Valid()
    ensures cb != db && cb !in old(ctx.renderbuffers) && db !in old(ctx.renderbuffers)
    ensures ctx.renderbuffers == old(ctx.renderbuffers) + {cb, db}
    ensures ctx.storage == old(ctx.storage)[cb := Storage(samples, Rgba, width, height)]
                                           [db := Storage(samples, DepthComponent24, width, height)]
    ensures ctx.history == old(ctx.history) + [Generated(Renderbuffer, [cb, db])]
    ensures ctx.boundRenderbuffer == db
  {
    var names := ctx.GenRenderbuffers(2);
    cb, db := names[0], names[1];
    assert names == [cb, db];
    ctx.BindRenderbuffer(cb);
    ctx.RenderbufferStorage(samples, Rgba, width, height);
    ctx.BindRenderbuffer(db);
    ctx.RenderbufferStorage(samples, DepthComponent24, width, height);
  }

  /** Lines 135-144 (or 158-167): a new framebuffer, bound for drawing, with
      the two renderbuffers attached as colour and depth. */
  method CreateAttachedFramebuffer(ctx: Context, cb: nat, db: nat) returns (fb: nat)
    requires ctx.Valid()
    modifies ctx`framebuffers, ctx`nextFramebuffer, ctx`drawFramebuffer, ctx`attachments, ctx`history
    ensures ctx.Valid()
    ensures fb !in old(ctx.framebuffers)
    ensures ctx.framebuffers == old(ctx.framebuffers) + {fb}
    ensures ctx.attachments == old(ctx.attachments)[(fb, ColorAttachment0) := cb][(fb, DepthAttachment) := db]
    ensures ctx.history == old(ctx.history) + [Generated(Framebuffer, [fb])]
    ensures ctx.drawFramebuffer == fb
  {
    fb := ctx.GenFramebuffer();
    ctx.BindDrawFramebuffer(fb);
    ctx.FramebufferRenderbuffer(ColorAttachment0, cb);
    ctx.FramebufferRenderbuffer(DepthAttachment, db);
  }

  /** The GL calls of the creating branch of `_configure_main_framebuffer`:
      the single-sample framebuffer, then the multisample one, both of
      width x height. */
  method CreateTarget(ctx: Context, width: nat, height: nat) returns (t: Handles)
    requires ctx.Valid()
    modifies ctx`renderbuffers, ctx`nextRenderbuffer, ctx`framebuffers, ctx`nextFramebuffer
    modifies ctx`boundRenderbuffer, ctx`drawFramebuffer, ctx`storage, ctx`attachments, ctx`history
    ensures ctx.Valid()
    ensures Built(t, width, height, ctx.renderbuffers, ctx.framebuffers, ctx.storage, ctx.attachments)
    ensures ctx.history == old(ctx.history) + CreateEvents(t)
    ensures ctx.renderbuffers == old(ctx.renderbuffers) + t.Renderbuffers()
    ensures ctx.framebuffers == old(ctx.framebuffers) + t.Framebuffers()
    ensures t.Renderbuffers() !! old(ctx.renderbuffers) && t.Framebuffers() !! old(ctx.framebuffers)
    ensures KeepsStorage(old(ctx.storage), ctx.storage, {})
    ensures KeepsAttachments(old(ctx.attachments), ctx.attachments, {})
    ensures ctx.drawFramebuffer == t.fbMs && ctx.boundRenderbuffer == t.dbMs
  {
    var fb, cb, db := CreateFramebuffer(ctx, 0, width, height);
    var fbMs, cbMs, dbMs := CreateFramebuffer(ctx, 4, width, height);
    t := Handles(fb, cb, db, fbMs, cbMs, dbMs);
    CreatedTargetBuilt(t, width, height, old(ctx.renderbuffers), old(ctx.framebuffers), old(ctx.storage), old(ctx.attachments));
    AppendAssoc(old(ctx.history), PairEvents(cb, db, fb), PairEvents(cbMs, dbMs, fbMs));
    UnionAssoc(old(ctx.renderbuffers), {cb, db}, {cbMs, dbMs});
    UnionAssoc(old(ctx.framebuffers), {fb}, {fbMs});
  }

  /** Deleting twice in a row releases the target once: the second call
      finds no handles and makes no GL call, so nothing is freed twice. */
  method DeleteTwice(r: Renderer, ctx: Context)
    requires r.Valid(ctx) && r.HasTarget()
    modifies r, ctx
    ensures r.Valid(ctx) && r.NoTarget()
    ensures ctx.history == old(ctx.history) + ReleaseEvents(old(r.Target()))
  {
    r.DeleteMainFramebuffer(ctx);
    r.DeleteMainFramebuffer(ctx);
  }

  /** Configuring twice for the same viewport makes no GL name call the
      second time: the history and the target are those the first call left.
      `configured` is that history and `target` that target. */
  method ConfigureTwice(r: Renderer, ctx: Context, flags: RenderFlags.Flags)
    returns (ghost configured: seq<Event>, ghost target: Handles)
    requires r.Valid(ctx)
    modifies r`mainFb, r`mainCb, r`mainDb, r`mainFbMs, r`mainCbMs, r`mainDbMs, r`mainFbDims
    modifies ctx`renderbuffers, ctx`nextRenderbuffer, ctx`framebuffers, ctx`nextFramebuffer
    modifies ctx`boundRenderbuffer, ctx`drawFramebuffer, ctx`readFramebuffer, ctx`storage, ctx`attachments, ctx`history
    modifies ctx`viewport
    ensures r.Valid(ctx) && r.Matches() && r.Target() == target && ctx.history == configured
    ensures old(r.Matches()) ==> configured == old(ctx.history) && target == old(r.Target())
    ensures !old(r.Matches()) ==>
      (configured == old(ctx.history) +
         (if old(r.HasTarget()) then ReleaseEvents(old(r.Target())) else []) +
         CreateEvents(target))
  {
    r.Configure(ctx, flags);
    configured := ctx.history;
    target := r.Target();
    r.Configure(ctx, flags);
  }

  /** Changing the viewport size after configuring (twice) releases the
      target the configuring left and creates a new one of the new size.
      `configured` is the call history after the first configure and
      `released` the target it left. */
  method ReconfigureAfterResize(r: Renderer, ctx: Context, flags: RenderFlags.Flags, width: nat, height: nat)
    returns (ghost configured: seq<Event>, ghost released: Handles)
    requires r.Valid(ctx)
    requires width != r.viewportWidth
    modifies r, ctx
    ensures r.Valid(ctx) && r.Matches() && r.mainFbDims == (Some(width), Some(height))
    ensures old(r.Matches()) ==> configured == old(ctx.history) && released == old(r.Target())
    ensures !old(r.Matches()) ==>
      (configured == old(ctx.history) +
         (if old(r.HasTarget()) then ReleaseEvents(old(r.Target())) else []) +
         CreateEvents(released))
    ensures ctx.history == configured + ReleaseEvents(released) + CreateEvents(r.Target())
  {
    configured, released := ConfigureTwice(r, ctx, flags);
    r.viewportWidth, r.viewportHeight := width, height;
    r.Configure(ctx, flags);
  }
}
