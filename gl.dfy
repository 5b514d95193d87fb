/**
  The part of an OpenGL context the renderer's framebuffer bookkeeping
  touches: renderbuffer and framebuffer names (live sets and an allocator
  that hands out names not in use), renderbuffer storage parameters,
  framebuffer attachments, the current bindings and the viewport. Pixel
  contents are not part of this model. The context also keeps a history of
  the name-generating and name-deleting calls made on it, so that callers can
  state in what order objects were released and created.
 */
module GL {
  /** Renderbuffer internal formats used by the renderer. */
  datatype Format = Rgba | DepthComponent24

  /** Storage given to a renderbuffer (samples 0: single-sample storage). */
  datatype Storage = Storage(samples: nat, format: Format, width: nat, height: nat)

  datatype AttachmentPoint = ColorAttachment0 | DepthAttachment

  datatype Rect = Rect(x: int, y: int, width: int, height: int)

  datatype ObjectKind = Renderbuffer | Framebuffer

  /** One name-generating (glGen*) or name-deleting (glDelete*) call. */
  datatype Event = Generated(kind: ObjectKind, names: seq<nat>) | Deleted(kind: ObjectKind, names: seq<nat>)

  /** Name 0 stands for "no renderbuffer" and for the default (window)
      framebuffer; it is never generated. Storage and attachments exist only
      for live names. */
  class Context {
    var renderbuffers: set<nat>
    var framebuffers: set<nat>
    var nextRenderbuffer: nat
    var nextFramebuffer: nat
    ghost var drawFramebuffer: nat
    ghost var readFramebuffer: nat
    ghost var boundRenderbuffer: nat
    ghost var viewport: Rect
    ghost var storage: map<nat, Storage>
    ghost var attachments: map<(nat, AttachmentPoint), nat>
    ghost var history: seq<Event>

    ghost predicate Valid()
      reads this`renderbuffers, this`framebuffers, this`nextRenderbuffer, this`nextFramebuffer
      reads this`storage, this`attachments
    {
      0 < nextRenderbuffer && 0 < nextFramebuffer &&
      (forall name :: name in renderbuffers ==> 0 < name < nextRenderbuffer) &&
      (forall name :: name in framebuffers ==> 0 < name < nextFramebuffer) &&
      storage.Keys <= renderbuffers &&
      (forall key :: key in attachments ==> key.0 in framebuffers)
    }

    /** A context as created for a window of the given size. */
    constructor (windowWidth: nat, windowHeight: nat)
      ensures Valid()
      ensures renderbuffers == {} && framebuffers == {}
      ensures drawFramebuffer == 0 && readFramebuffer == 0 && boundRenderbuffer == 0
      ensures viewport == Rect(0, 0, windowWidth, windowHeight)
      ensures storage == map[] && attachments == map[] && history == []
    {
      renderbuffers, framebuffers := {}, {};
      nextRenderbuffer, nextFramebuffer := 1, 1;
      drawFramebuffer, readFramebuffer, boundRenderbuffer := 0, 0, 0;
      viewport := Rect(0, 0, windowWidth, windowHeight);
      storage, attachments, history := map[], map[], [];
    }

    /** glGenRenderbuffers(n): n distinct names, none of them in use. */
    method GenRenderbuffers(n: nat) returns (names: seq<nat>)
      requires Valid()
      modifies this`renderbuffers, this`nextRenderbuffer, this`history
      ensures Valid()
      ensures |names| == n && forall i, j :: 0 <= i < j < n ==> names[i] != names[j]
      ensures forall i :: 0 <= i < n ==> names[i] != 0 && names[i] !in old(renderbuffers)
      ensures renderbuffers == old(renderbuffers) + set name | name in names
      ensures history == old(history) + [Generated(Renderbuffer, names)]
    {
      var first := nextRenderbuffer;
      names := seq(n, i requires 0 <= i => first + i);
      renderbuffers := renderbuffers + set name | name in names;
      nextRenderbuffer := nextRenderbuffer + n;
      history := history + [Generated(Renderbuffer, names)];
    }

    /** glGenFramebuffers(1): one name not in use. */
    method GenFramebuffer() returns (name: nat)
      requires Valid()
      modifies this`framebuffers, this`nextFramebuffer, this`history
      ensures Valid()
      ensures name != 0 && name !in old(framebuffers)
      ensures framebuffers == old(framebuffers) + {name}
      ensures history == old(history) + [Generated(Framebuffer, [name])]
    {
      name := nextFramebuffer;
      framebuffers := framebuffers + {name};
      nextFramebuffer := nextFramebuffer + 1;
      history := history + [Generated(Framebuffer, [name])];
    }

    /** glDeleteFramebuffers: the names stop being in use, their attachments
        go, and a binding to one of them reverts to the default framebuffer. */
    method DeleteFramebuffers(names: seq<nat>)
      requires Valid()
      modifies this`framebuffers, this`drawFramebuffer, this`readFramebuffer, this`attachments, this`history
      ensures Valid()
      ensures framebuffers == old(framebuffers) - set name | name in names
      ensures drawFramebuffer == if old(drawFramebuffer) in names then 0 else old(drawFramebuffer)
      ensures readFramebuffer == if old(readFramebuffer) in names then 0 else old(readFramebuffer)
      ensures attachments == map k | k in old(attachments) && k.0 !in names :: old(attachments)[k]
      ensures history == old(history) + [Deleted(Framebuffer, names)]
    {
      DetachKeepsLive(attachments, framebuffers, names);
      ghost var detached := map k | k in attachments && k.0 !in names :: attachments[k];
      framebuffers := framebuffers - set name | name in names;
      drawFramebuffer := if drawFramebuffer in names then 0 else drawFramebuffer;
      readFramebuffer := if readFramebuffer in names then 0 else readFramebuffer;
      attachments := detached;
      history := history + [Deleted(Framebuffer, names)];
    }

    /** Removing the attachments of deleted framebuffers leaves attachments
        of live framebuffers only. */
    static lemma DetachKeepsLive(attachments: map<(nat, AttachmentPoint), nat>, framebuffers: set<nat>, names: seq<nat>)
      requires forall key :: key in attachments ==> key.0 in framebuffers
      ensures forall key :: key in (map k | k in attachments && k.0 !in names :: attachments[k]) ==>
                key.0 in framebuffers - set name | name in names
    {
    }

    /** glDeleteRenderbuffers: the names stop being in use, their storage is
        released, and a binding to one of them reverts to 0. */
    method DeleteRenderbuffers(names: seq<nat>)
      requires Valid()
      modifies this`renderbuffers, this`boundRenderbuffer, this`storage, this`history
      ensures Valid()
      ensures renderbuffers == old(renderbuffers) - set name | name in names
      ensures boundRenderbuffer == if old(boundRenderbuffer) in names then 0 else old(boundRenderbuffer)
      ensures storage == map k | k in old(storage) && k !in names :: old(storage)[k]
      ensures history == old(history) + [Deleted(Renderbuffer, names)]
    {
      ghost var released := map k | k in storage && k !in names :: storage[k];
      renderbuffers := renderbuffers - set name | name in names;
      boundRenderbuffer := if boundRenderbuffer in names then 0 else boundRenderbuffer;
      storage := released;
      history := history + [Deleted(Renderbuffer, names)];
    }

    /** glBindRenderbuffer(GL_RENDERBUFFER, name). */
    method BindRenderbuffer(name: nat)
      modifies this`boundRenderbuffer
      ensures boundRenderbuffer == name
    {
      boundRenderbuffer := name;
    }

    /** glRenderbufferStorage / glRenderbufferStorageMultisample on the bound
        renderbuffer; with no live renderbuffer bound the call has no effect. */
    method RenderbufferStorage(samples: nat, format: Format, width: nat, height: nat)
      requires Valid()
      modifies this`storage
      ensures Valid()
      ensures storage == if boundRenderbuffer in renderbuffers
                         then old(storage)[boundRenderbuffer := Storage(samples, format, width, height)]
                         else old(storage)
    {
      if boundRenderbuffer in renderbuffers {
        storage := storage[boundRenderbuffer := Storage(samples, format, width, height)];
      }
    }

    /** glBindFramebuffer(GL_DRAW_FRAMEBUFFER, name). */
    method BindDrawFramebuffer(name: nat)
      modifies this`drawFramebuffer
      ensures drawFramebuffer == name
    {
      drawFramebuffer := name;
    }

    /** glBindFramebuffer(GL_READ_FRAMEBUFFER, name). */
    method BindReadFramebuffer(name: nat)
      modifies this`readFramebuffer
      ensures readFramebuffer == name
    {
      readFramebuffer := name;
    }

    /** glFramebufferRenderbuffer(GL_DRAW_FRAMEBUFFER, point, GL_RENDERBUFFER,
        renderbuffer); with the default framebuffer bound the call has no effect. */
    method FramebufferRenderbuffer(point: AttachmentPoint, renderbuffer: nat)
      requires Valid()
      modifies this`attachments
      ensures Valid()
      ensures attachments == if drawFramebuffer in framebuffers
                             then old(attachments)[(drawFramebuffer, point) := renderbuffer]
                             else old(attachments)
    {
      if drawFramebuffer in framebuffers {
        attachments := attachments[(drawFramebuffer, point) := renderbuffer];
      }
    }

    /** glViewport(x, y, width, height). */
    method SetViewport(x: int, y: int, width: int, height: int)
      modifies this`viewport
      ensures viewport == Rect(x, y, width, height)
    {
      viewport := Rect(x, y, width, height);
    }
  }
}
