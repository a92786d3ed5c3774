/**
  What the call traces of `GLContextHost` promise about the contexts the host
  creates, makes current and deletes, over one `InitGLContext` and over the
  whole life of an instance (initialisation followed by the destructor).
*/
module GLContextLifecycle {
  import opened Wrappers
  import opened GLContextHost

  /** The exception a platform answer raises in `InitGLContext`, if it raises one. */
  function FailureOf(c: WglCall): Option<InitError> {
    match c
    case ChoosePixelFormat(_, format) => if format == 0 then Some(InvalidPixelFormat) else None
    case SetPixelFormat(_, _, ok) => if !ok then Some(SetPixelFormatFailed) else None
    case GlewInit(status) => if status != GLEW_OK then Some(GlewInitFailed) else None
    case _ => None
  }

  /** The reading of two calls in a row. */
  lemma TwoCalls(a: WglCall, b: WglCall)
    ensures Creations([a, b]) == CreatedBy(a) + CreatedBy(b)
    ensures Deletions([a, b]) == DeletedBy(a) + DeletedBy(b)
    ensures Current([a, b]) == if b.MakeCurrent? then Some(b.context) else Current([a])
  {
    assert [a, b] == [a] + [b];
    OneCall(a);
    OneCall(b);
    CreationsAppend([a], [b]);
    DeletionsAppend([a], [b]);
    CurrentAppend([a], [b]);
  }

  /** Choosing and binding a pixel format touch no context. */
  lemma FormatStages(window: Handle, p: Platform)
    ensures var s := SelectFormatCalls(window, p);
      Creations(s) == [] && Deletions(s) == [] && Current(s) == None
    ensures var s := SelectFormatCalls(window, p) + [SetPixelFormat(p.deviceContext, p.pixelFormat, p.setPixelFormatOk)];
      Creations(s) == [] && Deletions(s) == [] && Current(s) == None
  {
    var bind := SetPixelFormat(p.deviceContext, p.pixelFormat, p.setPixelFormatOk);
    TwoCalls(GetDC(window, p.deviceContext), ChoosePixelFormat(p.deviceContext, p.pixelFormat));
    OneCall(GetDC(window, p.deviceContext));
    OneCall(bind);
    CreationsAppend(SelectFormatCalls(window, p), [bind]);
    DeletionsAppend(SelectFormatCalls(window, p), [bind]);
    CurrentAppend(SelectFormatCalls(window, p), [bind]);
  }

  /** The bootstrap creates the temporary context and leaves it current. */
  lemma BootstrapStage(p: Platform)
    ensures Creations(BootstrapCalls(p)) == [p.tempContext]
    ensures Deletions(BootstrapCalls(p)) == []
    ensures Current(BootstrapCalls(p)) == Some(p.tempContext)
  {
    var a, b := CreateContext(p.deviceContext, p.tempContext), MakeCurrent(p.deviceContext, p.tempContext);
    var c := GlewInit(p.glewStatus);
    assert BootstrapCalls(p) == [a, b] + [c];
    TwoCalls(a, b);
    OneCall(c);
    CreationsAppend([a, b], [c]);
    DeletionsAppend([a, b], [c]);
    CurrentAppend([a, b], [c]);
  }

  /** The upgrade creates the attributed context, deletes the temporary one and leaves the new one current. */
  lemma UpgradeStage(major: int, minor: int, debugBuild: bool, p: Platform)
    ensures Creations(UpgradeCalls(major, minor, debugBuild, p)) == [p.attribContext]
    ensures Deletions(UpgradeCalls(major, minor, debugBuild, p)) == [p.tempContext]
    ensures Current(UpgradeCalls(major, minor, debugBuild, p)) == Some(p.attribContext)
  {
    var u := UpgradeCalls(major, minor, debugBuild, p);
    var first, last := [u[0], u[1]], [u[2], u[3]] + [u[4]];
    assert u == first + last;
    TwoCalls(u[0], u[1]);
    TwoCalls(u[2], u[3]);
    OneCall(u[4]);
    CreationsAppend([u[2], u[3]], [u[4]]);
    DeletionsAppend([u[2], u[3]], [u[4]]);
    CurrentAppend([u[2], u[3]], [u[4]]);
    CreationsAppend(first, last);
    DeletionsAppend(first, last);
    CurrentAppend(first, last);
  }

  /**
    The contexts one `InitGLContext` creates and deletes, and the one it leaves
    current. A normal return with the extension deletes the temporary context
    (whatever the attributed one is, null included) and leaves the attributed
    one current; without the extension nothing is deleted and the temporary
    context is kept. A GLEW failure leaves the temporary context created,
    current and never deleted; it is not in `m_Context`, so it leaks. A
    pixel-format failure touches no context.
  */
  lemma InitContexts(window: Handle, major: int, minor: int, debugBuild: bool, p: Platform)
    ensures var t := InitTrace(window, major, minor, debugBuild, p);
      && Creations(t) == (match InitOutcome(p)
          case Threw(GlewInitFailed) => [p.tempContext]
          case Threw(_) => []
          case Initialized => if p.createContextSupported then [p.tempContext, p.attribContext]
                              else [p.tempContext])
      && Deletions(t) == (if InitOutcome(p) == Initialized && p.createContextSupported
                          then [p.tempContext] else [])
      && Current(t) == (match InitOutcome(p)
          case Threw(GlewInitFailed) => Some(p.tempContext)
          case Threw(_) => None
          case Initialized => Some(OwnedContext(NULL, p)))
  {
    var bound := SelectFormatCalls(window, p) + [SetPixelFormat(p.deviceContext, p.pixelFormat, p.setPixelFormatOk)];
    var boot := BootstrapCalls(p);
    FormatStages(window, p);
    if p.pixelFormat != 0 && p.setPixelFormatOk {
      BootstrapStage(p);
      CreationsAppend(bound, boot);
      DeletionsAppend(bound, boot);
      CurrentAppend(bound, boot);
      if p.glewStatus == GLEW_OK && p.createContextSupported {
        UpgradeAfterBootstrap(major, minor, debugBuild, p, bound);
      }
    }
  }

  /** The reading of the trace of a normal return with the extension. */
  lemma UpgradeAfterBootstrap(major: int, minor: int, debugBuild: bool, p: Platform, bound: seq<WglCall>)
    requires Creations(bound) == [] && Deletions(bound) == [] && Current(bound) == None
    ensures var t := bound + BootstrapCalls(p) + UpgradeCalls(major, minor, debugBuild, p);
      && Creations(t) == [p.tempContext, p.attribContext]
      && Deletions(t) == [p.tempContext]
      && Current(t) == Some(p.attribContext)
  {
    var boot := BootstrapCalls(p);
    var up := UpgradeCalls(major, minor, debugBuild, p);
    BootstrapStage(p);
    UpgradeStage(major, minor, debugBuild, p);
    CreationsAppend(bound, boot);
    DeletionsAppend(bound, boot);
    CurrentAppend(bound, boot);
    CreationsAppend(bound + boot, up);
    DeletionsAppend(bound + boot, up);
    CurrentAppend(bound + boot, up);
  }

  /**
    `InitGLContext` throws at the first failing platform call and makes no call
    after it: the pixel-format number is checked first, then `SetPixelFormat`,
    then `glewInit`; when none fails it returns normally.
  */
  lemma InitStopsAtFirstFailure(window: Handle, major: int, minor: int, debugBuild: bool, p: Platform)
    ensures var t := InitTrace(window, major, minor, debugBuild, p);
      && t != []
      && (forall k :: 0 <= k < |t| - 1 ==> FailureOf(t[k]).None?)
      && InitOutcome(p) == match FailureOf(t[|t| - 1])
                           case Some(e) => Threw(e)
                           case None => Initialized
  {
    var t := InitTrace(window, major, minor, debugBuild, p);
    var bound := SelectFormatCalls(window, p) + [SetPixelFormat(p.deviceContext, p.pixelFormat, p.setPixelFormatOk)];
    assert bound[0].GetDC? && bound[1].ChoosePixelFormat? && bound[2].SetPixelFormat?;
    if p.pixelFormat != 0 && p.setPixelFormatOk {
      var boot := BootstrapCalls(p);
      if p.glewStatus == GLEW_OK && p.createContextSupported {
        var up := UpgradeCalls(major, minor, debugBuild, p);
        assert forall k :: 0 <= k < |t| ==> t[k] == if k < 3 then bound[k] else if k < 6 then boot[k - 3] else up[k - 6];
      } else {
        assert forall k :: 0 <= k < |t| ==> t[k] == if k < 3 then bound[k] else boot[k - 3];
      }
    }
  }

  /** The swap interval is set, to 0, exactly when the attributed context was created. */
  lemma SwapIntervalOnlyAfterUpgrade(window: Handle, major: int, minor: int, debugBuild: bool, p: Platform)
    ensures var t := InitTrace(window, major, minor, debugBuild, p);
      && (SwapInterval(0) in t <==> InitOutcome(p) == Initialized && p.createContextSupported)
      && forall c: WglCall :: c in t && c.SwapInterval? ==> c.interval == 0
  {
    var bound := SelectFormatCalls(window, p) + [SetPixelFormat(p.deviceContext, p.pixelFormat, p.setPixelFormatOk)];
    var boot := BootstrapCalls(p);
    var up := UpgradeCalls(major, minor, debugBuild, p);
    assert up[4] == SwapInterval(0);
    assert forall c: WglCall :: c in bound + boot ==> !c.SwapInterval?;
  }

  /** The calls of a whole instance life: a fresh host is initialised, then destroyed. */
  function LifetimeTrace(window: Handle, major: int, minor: int, debugBuild: bool, p: Platform): seq<WglCall> {
    InitTrace(window, major, minor, debugBuild, p) + DestroyCalls(p.deviceContext, OwnedContext(NULL, p))
  }

  /**
    Over the life of a fresh host that initialised normally, the non-null
    contexts deleted are exactly the non-null contexts created, each once and in
    the order of creation, and none is current at the end. When initialisation
    threw, the destructor makes no call; after a GLEW failure the temporary
    context stays undeleted.
  */
  lemma LifetimeReleasesContexts(window: Handle, major: int, minor: int, debugBuild: bool, p: Platform)
    ensures var life := LifetimeTrace(window, major, minor, debugBuild, p);
      && (InitOutcome(p).Threw? ==> life == InitTrace(window, major, minor, debugBuild, p))
      && (InitOutcome(p) == Initialized ==>
            NonNull(Deletions(life)) == NonNull(Creations(life)) && Current(life) == Some(NULL))
      && (InitOutcome(p) == Threw(GlewInitFailed) ==>
            Creations(life) == [p.tempContext] && Deletions(life) == [])
  {
    var t := InitTrace(window, major, minor, debugBuild, p);
    var d := DestroyCalls(p.deviceContext, OwnedContext(NULL, p));
    if InitOutcome(p).Threw? {
      assert d == [];
      assert t + d == t;
      InitContexts(window, major, minor, debugBuild, p);
    } else {
      LifetimeReleasesAll(window, major, minor, debugBuild, p);
      LifetimeUnbinds(window, major, minor, debugBuild, p);
    }
  }

  /** After a normal return, init and destructor together delete the non-null contexts they create. */
  lemma LifetimeReleasesAll(window: Handle, major: int, minor: int, debugBuild: bool, p: Platform)
    requires InitOutcome(p) == Initialized
    ensures var life := LifetimeTrace(window, major, minor, debugBuild, p);
      NonNull(Deletions(life)) == NonNull(Creations(life))
  {
    var t := InitTrace(window, major, minor, debugBuild, p);
    var d := DestroyCalls(p.deviceContext, OwnedContext(NULL, p));
    InitContexts(window, major, minor, debugBuild, p);
    CreationsAppend(t, d);
    DeletionsAppend(t, d);
    if p.createContextSupported {
      LifetimeUpgraded(Creations(t), Deletions(t), Deletions(d), p.tempContext, p.attribContext);
    } else {
      NonNullOne(p.tempContext);
      NonNullIdempotent([p.tempContext]);
    }
  }

  /** After a normal return, no context is current once the destructor has run. */
  lemma LifetimeUnbinds(window: Handle, major: int, minor: int, debugBuild: bool, p: Platform)
    requires InitOutcome(p) == Initialized
    ensures Current(LifetimeTrace(window, major, minor, debugBuild, p)) == Some(NULL)
  {
    var t := InitTrace(window, major, minor, debugBuild, p);
    var d := DestroyCalls(p.deviceContext, OwnedContext(NULL, p));
    InitContexts(window, major, minor, debugBuild, p);
    CurrentAppend(t, d);
  }

  /** The bookkeeping of the upgraded case, on the handle sequences alone. */
  lemma LifetimeUpgraded(created: seq<Handle>, deletedByInit: seq<Handle>, deletedByDestroy: seq<Handle>,
                         temp: Handle, owned: Handle)
    requires created == [temp, owned] && deletedByInit == [temp]
    requires deletedByDestroy == if owned == NULL then [] else [owned]
    ensures NonNull(deletedByInit + deletedByDestroy) == NonNull(created + [])
  {
    assert created + [] == created;
    NonNullOne(owned);
    ReleasedAfterUpgrade(temp, owned);
  }

  lemma NonNullOne(h: Handle)
    ensures NonNull([h]) == if h == NULL then [] else [h]
  {
    assert [h][1..] == [];
  }

  /** Deleting the temporary context and then the owned one releases both, null ones aside. */
  lemma ReleasedAfterUpgrade(temp: Handle, owned: Handle)
    ensures NonNull([temp] + NonNull([owned])) == NonNull([temp, owned])
  {
    NonNullOne(owned);
    NonNullOne(temp);
    NonNullAppend([temp], NonNull([owned]));
    NonNullAppend([temp], [owned]);
    assert [temp, owned] == [temp] + [owned];
    NonNullIdempotent([owned]);
  }

  lemma {:induction false} NonNullIdempotent(hs: seq<Handle>)
    ensures NonNull(NonNull(hs)) == NonNull(hs)
  {
    if hs != [] {
      var first := if hs[0] == NULL then [] else [hs[0]];
      NonNullAppend(first, NonNull(hs[1..]));
      NonNullIdempotent(hs[1..]);
      if hs[0] != NULL {
        NonNullOne(hs[0]);
      }
    }
  }
}

/** Client-side walks through the life of one host, using only the contracts of the class and the lemmas above. */
module GLContextScenarios {
  import opened Wrappers
  import opened GLContextHost
  import opened GLContextLifecycle

  /** A 4.3 core context on an 800 by 600 window, resized to 1920 by 1080, then destroyed. */
  method CoreProfileLifetime(window: Handle, dc: Handle, temp: Handle, core: Handle)
    requires dc != NULL && temp != NULL && core != NULL && temp != core
  {
    var p := Platform(Rect(0, 0, 800, 600), dc, 7, true, temp, GLEW_OK, true, core);
    var host := new GLCoreContext();
    var r := host.InitGLContext(window, 4, 3, false, p);
    assert r == Initialized && host.context == core;
    assert host.backBufferWidth == 800 && host.backBufferHeight == 600;
    host.ResizeSwapchain(1920, 1080);
    assert host.backBufferWidth == 1920 && host.backBufferHeight == 1080 && host.context == core;
    host.Destroy();
    assert host.Calls == LifetimeTrace(window, 4, 3, false, p);
    LifetimeReleasesContexts(window, 4, 3, false, p);
    assert NonNull(Deletions(host.Calls)) == NonNull(Creations(host.Calls));
    assert Current(host.Calls) == Some(NULL);
  }

  /** No pixel format matches: the host throws, owns nothing, and its destructor makes no call. */
  method NoPixelFormat(window: Handle, dc: Handle)
  {
    var p := Platform(Rect(0, 0, 640, 480), dc, 0, true, NULL, GLEW_OK, true, NULL);
    var host := new GLCoreContext();
    var r := host.InitGLContext(window, 4, 3, true, p);
    assert r == Threw(InvalidPixelFormat) && host.context == NULL;
    ghost var afterInit := host.Calls;
    host.Destroy();
    assert host.Calls == afterInit;
  }
}
