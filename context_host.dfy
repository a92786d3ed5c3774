/**
  The GL context host (`UnityGraphicsGLCore_Impl`): it binds a desktop OpenGL
  rendering context to a native window through WGL and owns it until it is
  destroyed.

  Every Win32, WGL and GLEW call is foreign. The model passes the results the
  host uses in (`Platform`). The calls that take or return a device context,
  pixel format or rendering context, and `glewInit`, `wglSwapIntervalEXT` and
  `::SwapBuffers`, are recorded in the ghost trace `Calls`; `GetClientRect`
  and `wglewIsSupported` are represented only by their results, and the BOOL
  results the host ignores are not modelled. Handles are natural numbers, 0 being the
  null handle. The `_DEBUG` build configuration is the `debugBuild` argument.
*/
module GLContextHost {
  import opened Wrappers
  import opened WglContextAttribs

  /** An opaque platform handle (HWND, HDC, HGLRC); 0 is null. */
  type Handle = nat
  const NULL: Handle := 0

  /** The success code of `glewInit`. */
  const GLEW_OK: int := 0

  /** A window client rectangle, as `GetClientRect` fills it. */
  datatype Rect = Rect(left: int, top: int, right: int, bottom: int)

  /** The answers of the platform to the calls `InitGLContext` makes, in the order it makes them. */
  datatype Platform = Platform(
    clientRect: Rect,              // GetClientRect
    deviceContext: Handle,         // GetDC
    pixelFormat: int,              // ChoosePixelFormat; 0 means no format matched
    setPixelFormatOk: bool,        // SetPixelFormat
    tempContext: Handle,           // wglCreateContext
    glewStatus: int,               // glewInit
    createContextSupported: bool,  // wglewIsSupported("WGL_ARB_create_context") == 1
    attribContext: Handle)         // wglCreateContextAttribsARB, possibly null

  /** The three exceptions `InitGLContext` raises. */
  datatype InitError = InvalidPixelFormat | SetPixelFormatFailed | GlewInitFailed

  datatype InitResult = Initialized | Threw(error: InitError)

  /** A recorded platform call of the host, with its arguments and, where the host uses it, its result. */
  datatype WglCall =
    | GetDC(window: Handle, dc: Handle)
    | ChoosePixelFormat(dc: Handle, format: int)
    | SetPixelFormat(dc: Handle, format: int, ok: bool)
    | CreateContext(dc: Handle, created: Handle)
    | MakeCurrent(dc: Handle, context: Handle)
    | GlewInit(status: int)
    | CreateContextAttribs(dc: Handle, share: Handle, attribs: seq<int>, created: Handle)
    | DeleteContext(context: Handle)
    | SwapInterval(interval: int)
    | PresentBuffers(dc: Handle)

  // ---------------------------------------------------------------------------
  // Reading a trace

  /** The non-null handles of `hs`, in order. */
  function NonNull(hs: seq<Handle>): (r: seq<Handle>)
    ensures NULL !in r
  {
    if hs == [] then []
    else (if hs[0] == NULL then [] else [hs[0]]) + NonNull(hs[1..])
  }

  /** The context a single call creates, null included. */
  function CreatedBy(c: WglCall): seq<Handle> {
    match c
    case CreateContext(_, h) => [h]
    case CreateContextAttribs(_, _, _, h) => [h]
    case _ => []
  }

  /** The context a single call deletes. */
  function DeletedBy(c: WglCall): seq<Handle> {
    if c.DeleteContext? then [c.context] else []
  }

  /** Every context handle returned by a creating call of the trace, null ones included, oldest first. */
  function Creations(calls: seq<WglCall>): seq<Handle> {
    if calls == [] then [] else CreatedBy(calls[0]) + Creations(calls[1..])
  }

  /** Every context handle the trace passes to `wglDeleteContext`, oldest first. */
  function Deletions(calls: seq<WglCall>): seq<Handle> {
    if calls == [] then [] else DeletedBy(calls[0]) + Deletions(calls[1..])
  }

  /** The context named by the last `wglMakeCurrent` of the trace, if there is one. */
  function Current(calls: seq<WglCall>): Option<Handle> {
    if calls == [] then None
    else if calls[|calls| - 1].MakeCurrent? then Some(calls[|calls| - 1].context)
    else Current(calls[..|calls| - 1])
  }

  /** The reading of a one-call trace. */
  lemma OneCall(c: WglCall)
    ensures Creations([c]) == CreatedBy(c) && Deletions([c]) == DeletedBy(c)
    ensures Current([c]) == if c.MakeCurrent? then Some(c.context) else None
  {
    assert [c][1..] == [] && [c][..0] == [];
  }

  lemma {:induction false} NonNullAppend(a: seq<Handle>, b: seq<Handle>)
    ensures NonNull(a + b) == NonNull(a) + NonNull(b)
  {
    if a != [] {
      assert (a + b)[1..] == a[1..] + b;
      NonNullAppend(a[1..], b);
    } else {
      assert a + b == b;
    }
  }

  lemma {:induction false} CreationsAppend(a: seq<WglCall>, b: seq<WglCall>)
    ensures Creations(a + b) == Creations(a) + Creations(b)
  {
    if a != [] {
      assert (a + b)[1..] == a[1..] + b;
      CreationsAppend(a[1..], b);
    } else {
      assert a + b == b;
    }
  }

  lemma {:induction false} DeletionsAppend(a: seq<WglCall>, b: seq<WglCall>)
    ensures Deletions(a + b) == Deletions(a) + Deletions(b)
  {
    if a != [] {
      assert (a + b)[1..] == a[1..] + b;
      DeletionsAppend(a[1..], b);
    } else {
      assert a + b == b;
    }
  }

  /** A later `wglMakeCurrent` overrides any earlier one. */
  lemma {:induction false} CurrentAppend(a: seq<WglCall>, b: seq<WglCall>)
    ensures Current(a + b) == if Current(b).Some? then Current(b) else Current(a)
  {
    if b == [] {
      assert a + b == a;
    } else {
      assert (a + b)[..|a + b| - 1] == a + b[..|b| - 1];
      CurrentAppend(a, b[..|b| - 1]);
    }
  }

  // ---------------------------------------------------------------------------
  // The specification of the operations

  /** The exception `InitGLContext` raises, checked in the order of the source, or none. */
  function InitOutcome(p: Platform): InitResult {
    if p.pixelFormat == 0 then Threw(InvalidPixelFormat)
    else if !p.setPixelFormatOk then Threw(SetPixelFormatFailed)
    else if p.glewStatus != GLEW_OK then Threw(GlewInitFailed)
    else Initialized
  }

  /** `m_Context` after `InitGLContext`, given its value before. */
  function OwnedContext(previous: Handle, p: Platform): Handle {
    match InitOutcome(p)
    case Threw(_) => previous
    case Initialized => if p.createContextSupported then p.attribContext else p.tempContext
  }

  /** Choosing a pixel format for the window's device context. */
  function SelectFormatCalls(window: Handle, p: Platform): seq<WglCall> {
    [GetDC(window, p.deviceContext), ChoosePixelFormat(p.deviceContext, p.pixelFormat)]
  }

  /** Creating the temporary (legacy) context, making it current and loading GLEW. */
  function BootstrapCalls(p: Platform): seq<WglCall> {
    [CreateContext(p.deviceContext, p.tempContext), MakeCurrent(p.deviceContext, p.tempContext),
     GlewInit(p.glewStatus)]
  }

  /** Creating the attributed context, dropping the temporary one and disabling vsync. */
  function UpgradeCalls(major: int, minor: int, debugBuild: bool, p: Platform): seq<WglCall> {
    [CreateContextAttribs(p.deviceContext, NULL, ContextAttribs(major, minor, debugBuild), p.attribContext),
     MakeCurrent(NULL, NULL), DeleteContext(p.tempContext),
     MakeCurrent(p.deviceContext, p.attribContext), SwapInterval(0)]
  }

  /** The recorded calls `InitGLContext` makes, up to and including the one that fails. */
  function InitTrace(window: Handle, major: int, minor: int, debugBuild: bool, p: Platform): seq<WglCall> {
    var selected := SelectFormatCalls(window, p);
    var bound := selected + [SetPixelFormat(p.deviceContext, p.pixelFormat, p.setPixelFormatOk)];
    if p.pixelFormat == 0 then selected
    else if !p.setPixelFormatOk then bound
    else if p.glewStatus != GLEW_OK || !p.createContextSupported then bound + BootstrapCalls(p)
    else bound + BootstrapCalls(p) + UpgradeCalls(major, minor, debugBuild, p)
  }

  /** The calls of the destructor: unbind and delete the owned context, if there is one. */
  function DestroyCalls(dc: Handle, context: Handle): (calls: seq<WglCall>)
    ensures calls == [] <==> context == NULL
    ensures context != NULL ==> |calls| == 2 && calls[0] == MakeCurrent(dc, NULL)
    ensures Creations(calls) == []
    ensures Deletions(calls) == if context == NULL then [] else [context]
    ensures context != NULL ==> Current(calls) == Some(NULL)
  {
    if context != NULL then
      var calls := [MakeCurrent(dc, NULL)] + [DeleteContext(context)];
      OneCall(MakeCurrent(dc, NULL));
      OneCall(DeleteContext(context));
      CreationsAppend([MakeCurrent(dc, NULL)], [DeleteContext(context)]);
      DeletionsAppend([MakeCurrent(dc, NULL)], [DeleteContext(context)]);
      CurrentAppend([MakeCurrent(dc, NULL)], [DeleteContext(context)]);
      calls
    else []
  }

  // ---------------------------------------------------------------------------
  // The host

  class GLCoreContext {
    /** `m_Context`: the rendering context the host owns, or null. */
    var context: Handle
    /** `m_WindowHandleToDeviceContext`. */
    var deviceContext: Handle
    /** `m_BackBufferWidth` and `m_BackBufferHeight`. */
    var backBufferWidth: int
    var backBufferHeight: int
    /** The platform calls made on behalf of this instance, oldest first. */
    ghost var Calls: seq<WglCall>

    /** A host before `InitGLContext`: no handles, no size, no calls. */
    constructor ()
      ensures context == NULL && deviceContext == NULL
      ensures backBufferWidth == 0 && backBufferHeight == 0
      ensures Calls == []
    {
      context, deviceContext := NULL, NULL;
      backBufferWidth, backBufferHeight := 0, 0;
      Calls := [];
    }

    /**
      Binds a context to `window`, step by step as the source does. A thrown
      exception is the result `Threw(e)`; the fields written before the throw
      keep their new values.
    */
    method InitGLContext(window: Handle, major: int, minor: int, debugBuild: bool, p: Platform)
      returns (result: InitResult)
      modifies this
      ensures result == InitOutcome(p)
      ensures backBufferWidth == p.clientRect.right - p.clientRect.left
      ensures backBufferHeight == p.clientRect.bottom - p.clientRect.top
      ensures deviceContext == p.deviceContext
      ensures context == OwnedContext(old(context), p)
      ensures Calls == old(Calls) + InitTrace(window, major, minor, debugBuild, p)
    {
      var rc := p.clientRect;
      backBufferWidth := rc.right - rc.left;
      backBufferHeight := rc.bottom - rc.top;

      deviceContext := p.deviceContext;
      var pixelFormat := p.pixelFormat;
      Calls := Calls + [GetDC(window, deviceContext), ChoosePixelFormat(deviceContext, pixelFormat)];
      if pixelFormat == 0 {
        return Threw(InvalidPixelFormat);
      }

      var bound := p.setPixelFormatOk;
      Calls := Calls + [SetPixelFormat(deviceContext, pixelFormat, bound)];
      if !bound {
        return Threw(SetPixelFormatFailed);
      }

      // the temporary context is created and made current before GLEW is loaded
      var tempContext := p.tempContext;
      var err := p.glewStatus;
      Calls := Calls + [CreateContext(deviceContext, tempContext), MakeCurrent(deviceContext, tempContext), GlewInit(err)];
      if GLEW_OK != err {
        return Threw(GlewInitFailed);
      }

      if p.createContextSupported {
        var attribs := BuildAttribs(major, minor, debugBuild);
        context := p.attribContext;
        // create the attributed context, drop the temporary one, bind the new one, disable vsync
        Calls := Calls + [CreateContextAttribs(deviceContext, NULL, attribs[..], context),
                          MakeCurrent(NULL, NULL), DeleteContext(tempContext),
                          MakeCurrent(deviceContext, context), SwapInterval(0)];
      } else {
        context := tempContext;
      }
      result := Initialized;
    }

    /** Records a new backbuffer size; nothing else changes and no call is made. */
    method ResizeSwapchain(newWidth: int, newHeight: int)
      modifies this`backBufferWidth, this`backBufferHeight
      ensures backBufferWidth == newWidth && backBufferHeight == newHeight
      ensures context == old(context) && deviceContext == old(deviceContext) && Calls == old(Calls)
    {
      backBufferWidth := newWidth;
      backBufferHeight := newHeight;
    }

    /** Presents the frame: one `::SwapBuffers` on the device context. */
    method SwapBuffers()
      modifies this`Calls
      ensures Calls == old(Calls) + [PresentBuffers(deviceContext)]
    {
      Calls := Calls + [PresentBuffers(deviceContext)];
    }

    /** The destructor: unbinds and deletes `m_Context` when it is not null. */
    method Destroy()
      modifies this`Calls
      ensures Calls == old(Calls) + DestroyCalls(deviceContext, context)
    {
      if context != NULL {
        Calls := Calls + [MakeCurrent(deviceContext, NULL)];
        Calls := Calls + [DeleteContext(context)];
      }
    }
  }
}
