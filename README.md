# OpenGL core-profile context host, modelled in Dafny

This project models `UnityGraphicsGLCore_Impl` from the Unity emulator of
DiligentEngine. On Windows, that class creates and owns the OpenGL rendering
context of a native window. The model covers four parts of it:

- **The debug-message sink** `openglCallbackFunction`, in module
  `GLDebugOutput`. It is a pure function `Format` from the callback's seven
  arguments to the four-line text record that the sink sends to the debugger.
  `ParseRecord` reads a record back. The proofs show
  that parsing inverts rendering in both directions, that the type and severity
  labels round-trip to their codes, and that `source`, `id`, `length` and
  `userParam` have no effect on the result.
- **The attribute list** passed to `wglCreateContextAttribsARB`, in
  module `WglContextAttribs`. `ContextAttribs` is the list as a value.
  `BuildAttribs` builds it the way the source does: it fills a ten-entry array,
  then ORs the debug bit into entry 5 in place. `AttribMap` reads a list the way
  the WGL_ARB_create_context extension specification does: name/value pairs up
  to a zero name.
- **The context host** itself, in module `GLContextHost`. The class
  `GLCoreContext` has the four fields of the source: `context` (`m_Context`),
  `deviceContext` (`m_WindowHandleToDeviceContext`), `backBufferWidth` and
  `backBufferHeight`. It also keeps a ghost trace `Calls` of the platform
  calls made for the instance: those that take or return a device context,
  pixel format or rendering context, plus `glewInit`, `wglSwapIntervalEXT`
  and `::SwapBuffers`.
  - Every platform call is an input: the `Platform` datatype holds the client
    rectangle, the device context, the pixel format number, whether
    `SetPixelFormat` succeeded, the temporary context, the `glewInit` status,
    whether `WGL_ARB_create_context` is supported, and the context that
    `wglCreateContextAttribsARB` returns.
  - `InitGLContext` runs the source's steps in order and returns
    `Threw(e)` where the source throws. Its result, new fields and appended
    calls are stated as the functions `InitOutcome`, `OwnedContext` and
    `InitTrace`.
  - `ResizeSwapchain`, `SwapBuffers` and `Destroy` (the destructor) are
    methods with frame-exact contracts.
- **Context ownership over the trace**, in module `GLContextLifecycle`.
  It reads which contexts a trace creates and deletes, and which one it leaves
  current. It proves:
  - in which order initialisation can fail;
  - that the swap interval is set only after the upgrade to an attributed
    context;
  - that, over the whole life of a host that initialised normally, every
    non-null context created is deleted exactly once and none is left current.

  Module `GLContextScenarios` walks two concrete lives of a host through the
  class contracts.

Handles are natural numbers, and 0 is the null handle. The `_DEBUG`
configuration of the source is the parameter `debugBuild`.

## Model

| member | source | states |
|---|---|---|
| GLDebugOutput.TypeLabel | unityplugin/UnityEmulator/src/UnityGraphicsGLCore_Impl.cpp:20-41 | the type label is non-empty exactly for the six KHR_debug type codes; otherwise it is empty (the switch has no default case); it never contains a newline |
| GLDebugOutput.SeverityLabel | unityplugin/UnityEmulator/src/UnityGraphicsGLCore_Impl.cpp:43-55 | the severity label is non-empty exactly for LOW, MEDIUM and HIGH, so NOTIFICATION and unknown codes give the empty label; it never contains a newline |
| GLDebugOutput.TypeLabelRoundTrip | unityplugin/UnityEmulator/src/UnityGraphicsGLCore_Impl.cpp:21-40 | the type label names its code: a labelled code decodes back to itself, an unlabelled one to nothing, and a label decodes only to a code that has that label |
| GLDebugOutput.SeverityLabelRoundTrip | unityplugin/UnityEmulator/src/UnityGraphicsGLCore_Impl.cpp:44-54 | the same two directions for the severity labels |
| GLDebugOutput.CString | unityplugin/UnityEmulator/src/UnityGraphicsGLCore_Impl.cpp:19 | streaming the `const GLchar*` message writes the longest NUL-free prefix of it: a prefix, with no NUL, that stops only at a NUL or at the end |
| GLDebugOutput.Format | unityplugin/UnityEmulator/src/UnityGraphicsGLCore_Impl.cpp:17-59 | the record is 42 characters of fixed text plus the message (up to its NUL) and the two labels |
| GLDebugOutput.FormatParses | unityplugin/UnityEmulator/src/UnityGraphicsGLCore_Impl.cpp:17-55 | the record reads back as exactly the message up to its NUL, the type label and the severity label, in the order: empty line, banner line, type line, severity line |
| GLDebugOutput.ParseRender | unityplugin/UnityEmulator/src/UnityGraphicsGLCore_Impl.cpp:19-55 | parsing inverts the record layout for every message and for single-line labels |
| GLDebugOutput.RenderParse | unityplugin/UnityEmulator/src/UnityGraphicsGLCore_Impl.cpp:19-55 | every string that parses is exactly the layout of what it parses to, so the parser accepts records and nothing else |
| GLDebugOutput.RenderSpelledOut | unityplugin/UnityEmulator/src/UnityGraphicsGLCore_Impl.cpp:19-55 | the record is "\n", "OPENGL DEBUG MESSAGE: ", the message, "\n", "Type: ", the type label, "\n", "Severity: ", the severity label and "\n", in this order |
| GLDebugOutput.FormatSpelledOut | unityplugin/UnityEmulator/src/UnityGraphicsGLCore_Impl.cpp:19-55 | the record of the sink is "\nOPENGL DEBUG MESSAGE: ", the message up to its NUL, "\nType: ", the type label, "\nSeverity: ", the severity label and "\n", in this order |
| GLDebugOutput.FormatIgnoresSourceIdLength | unityplugin/UnityEmulator/src/UnityGraphicsGLCore_Impl.cpp:9-59 | changing `source`, `id`, `length` or `userParam` does not change the record |
| GLDebugOutput.RenderApiError | unityplugin/UnityEmulator/src/UnityGraphicsGLCore_Impl.cpp:19-55 | the record of message "X" with labels ERROR and HIGH, as one literal |
| GLDebugOutput.FormatApiErrorExample | unityplugin/UnityEmulator/src/UnityGraphicsGLCore_Impl.cpp:19-55 | an API error of severity HIGH with message "X" gives exactly "\nOPENGL DEBUG MESSAGE: X\nType: ERROR\nSeverity: HIGH\n", whatever its id |
| GLDebugOutput.FormatUnlabelledExample | unityplugin/UnityEmulator/src/UnityGraphicsGLCore_Impl.cpp:20-55 | an unlisted type with severity NOTIFICATION still gets the "Type: " and "Severity: " lines, with empty labels |
| WglContextAttribs.ContextFlags | unityplugin/UnityEmulator/src/UnityGraphicsGLCore_Impl.cpp:119-126 | the flags value is a 32-bit word with the forward-compatible bit always set and the debug bit set exactly in a debug build |
| WglContextAttribs.ContextAttribsLayout | unityplugin/UnityEmulator/src/UnityGraphicsGLCore_Impl.cpp:115-122 | the list has ten entries and ends in a zero pair after four pairs with non-zero names |
| WglContextAttribs.ContextAttribsDecode | unityplugin/UnityEmulator/src/UnityGraphicsGLCore_Impl.cpp:115-126 | read as name/value pairs, the list requests exactly MAJOR = requested major, MINOR = requested minor, FLAGS = the build's flags, PROFILE_MASK = CORE |
| WglContextAttribs.TerminatorValueIgnored | unityplugin/UnityEmulator/src/UnityGraphicsGLCore_Impl.cpp:121 | whatever the value slot of the closing zero pair holds, the list requests the same four attributes |
| WglContextAttribs.BuildAttribs | unityplugin/UnityEmulator/src/UnityGraphicsGLCore_Impl.cpp:115-126 | filling the array and then OR-ing the debug bit into entry 5 in a debug build gives a fresh array holding exactly `ContextAttribs` |
| WglContextAttribs.DebugBuildChangesOnlyFlags | unityplugin/UnityEmulator/src/UnityGraphicsGLCore_Impl.cpp:124-126 | the debug and release lists agree everywhere except entry 5, which is 3 in a debug build and 2 otherwise |
| GLContextHost.DestroyCalls | unityplugin/UnityEmulator/src/UnityGraphicsGLCore_Impl.cpp:63-70 | the destructor makes a call exactly when it owns a context, and then makes two, the first unbinding on the host's device context; it creates nothing, deletes exactly the owned context, and leaves no context current |
| GLContextHost.GLCoreContext.InitGLContext | unityplugin/UnityEmulator/src/UnityGraphicsGLCore_Impl.cpp:72-145 | the result is the first failure out of pixel format, SetPixelFormat and GLEW, in that order; the backbuffer is right − left by bottom − top; the device context is `GetDC`'s; `m_Context` is untouched on a throw, and on a normal return is the attributed context when the extension is supported and the temporary one otherwise; the calls appended are exactly `InitTrace` |
| GLContextHost.GLCoreContext.ResizeSwapchain | unityplugin/UnityEmulator/src/UnityGraphicsGLCore_Impl.cpp:177-182 | the backbuffer becomes exactly (w, h); the context, the device context and the call trace are unchanged |
| GLContextHost.GLCoreContext.SwapBuffers | unityplugin/UnityEmulator/src/UnityGraphicsGLCore_Impl.cpp:184-187 | exactly one present call is made, on the host's device context, and nothing else changes |
| GLContextHost.GLCoreContext.Destroy | unityplugin/UnityEmulator/src/UnityGraphicsGLCore_Impl.cpp:63-70 | the destructor appends exactly `DestroyCalls` of the owned context and changes no field |
| GLContextLifecycle.InitContexts | unityplugin/UnityEmulator/src/UnityGraphicsGLCore_Impl.cpp:95-145 | with the extension, initialisation creates the temporary and the attributed context, deletes the temporary one even when the attributed one is null, and leaves the attributed one current; without the extension it deletes nothing and keeps the temporary one; after a GLEW failure the temporary context stays created and current; a pixel-format failure touches no context |
| GLContextLifecycle.InitStopsAtFirstFailure | unityplugin/UnityEmulator/src/UnityGraphicsGLCore_Impl.cpp:92-110 | no call before the last one in the trace reports a failure, and the outcome is the failure the last call reports, or a normal return when it reports none |
| GLContextLifecycle.SwapIntervalOnlyAfterUpgrade | unityplugin/UnityEmulator/src/UnityGraphicsGLCore_Impl.cpp:112-145 | the swap interval is set exactly when initialisation returned normally with the extension, and it is always set to 0 |
| GLContextLifecycle.LifetimeReleasesContexts | unityplugin/UnityEmulator/src/UnityGraphicsGLCore_Impl.cpp:63-145 | over the life of a fresh host, when initialisation threw the destructor makes no call; when it returned normally, the non-null contexts deleted are exactly the non-null contexts created, each once and in creation order, and no context is current at the end; after a GLEW failure the temporary context is never deleted |

## Left out

- The Win32, WGL and GLEW calls themselves (`GetClientRect`, `GetDC`, `ChoosePixelFormat`, `SetPixelFormat`, `wglCreateContext`, `wglMakeCurrent`, `glewInit`, `wglewIsSupported`, `wglCreateContextAttribsARB`, `wglDeleteContext`, `wglSwapIntervalEXT`, `::SwapBuffers`). These are foreign calls. The results the host uses are fields of `Platform`. The calls that take or return a device context, pixel format or rendering context, plus `glewInit`, `wglSwapIntervalEXT` and `::SwapBuffers`, are entries of the ghost trace `Calls`. `GetClientRect` and `wglewIsSupported` are represented only by their results. The BOOL results of `wglMakeCurrent`, `wglDeleteContext`, `wglSwapIntervalEXT` and `::SwapBuffers`, which the host ignores, are not modelled.
- The filling of the `PIXELFORMATDESCRIPTOR` (UnityGraphicsGLCore_Impl.cpp:82-90). It is structure setup for a foreign API, and the chosen format number is an input.
- `OutputDebugStringA` and the `LOG_*` macros. These are I/O, so `Format` stops at the string the stream holds. The text of the thrown exceptions is reduced to the three `InitError` values.
- The version read-back through `glGetString` and `glGetIntegerv` (UnityGraphicsGLCore_Impl.cpp:147-153). The values are only logged and never stored.
- The installation of the debug callback and the `glEnable` calls for seamless cube maps and sRGB framebuffers, with their logged errors (UnityGraphicsGLCore_Impl.cpp:155-174). These are GL state changes whose outcomes are only logged.
- Threading and which thread a context is current on. The class has no concurrency logic.
- UnityGraphicsGLCore_Impl.h is not part of this model. The constructor of `GLCoreContext` assumes the header starts a host with null handles and a zero size, and the fields are modelled as unbounded integers.
- GLContextHost.GLCoreContext.InitGLContext: the backbuffer size is `right − left` and `bottom − top` in unbounded integers. The C `int` overflow of extreme rectangles is not modelled.
- GLContextHost.GLCoreContext.InitGLContext: no error is raised when context creation fails. The source does not check the result of `wglCreateContext` or `wglCreateContextAttribsARB`, so a null attributed context becomes `m_Context` without an exception. The model follows the code.
- GLContextHost.GLCoreContext.InitGLContext: a throw does not restore the state before initialisation. The backbuffer size and the device context are already written, and after a GLEW failure the temporary context has been created and made current but is never deleted. The model follows the code, and `InitContexts` and `LifetimeReleasesContexts` state these facts.
- GLDebugOutput.Format: the `length` argument plays no part, because the source streams the message as a NUL-terminated string. A message with no NUL within `length` characters is read to the end of the model string.
