/**
  The attribute list that `InitGLContext` passes to `wglCreateContextAttribsARB`,
  laid out as the WGL_ARB_create_context extension specification demands: pairs
  of an attribute name and its value, closed by a zero name.

  `ContextAttribs` is the list as a value; `BuildAttribs` builds it the way the
  source does, filling a ten-entry array and then OR-ing the debug bit into
  entry 5 in place. `AttribMap` reads a list as the extension does, and
  `ContextAttribsDecode` states what the list requests when read that way.
*/
module WglContextAttribs {
  import opened Wrappers

  // Attribute names and bits (WGL_ARB_create_context, WGL_ARB_create_context_profile)
  const WGL_CONTEXT_MAJOR_VERSION_ARB: int := 0x2091
  const WGL_CONTEXT_MINOR_VERSION_ARB: int := 0x2092
  const WGL_CONTEXT_FLAGS_ARB: int := 0x2094
  /** GL_CONTEXT_PROFILE_MASK shares its value with WGL_CONTEXT_PROFILE_MASK_ARB. */
  const GL_CONTEXT_PROFILE_MASK: int := 0x9126
  const WGL_CONTEXT_DEBUG_BIT_ARB: int := 0x0001
  const WGL_CONTEXT_FORWARD_COMPATIBLE_BIT_ARB: int := 0x0002
  const GL_CONTEXT_CORE_PROFILE_BIT: int := 0x0001

  /** The number of entries of the source's `attribs` array: four pairs and a zero pair. */
  const AttribCount: nat := 10

  /** An unsigned 32-bit value, the width the bit operations are done in. */
  predicate IsWord(x: int) {
    0 <= x < 0x1_0000_0000
  }

  /** Bitwise OR of two 32-bit values (`|=` in the source). */
  function BitOr(a: int, b: int): (r: int)
    requires IsWord(a) && IsWord(b)
    ensures IsWord(r)
  {
    ((a as bv32) | (b as bv32)) as int
  }

  /** Whether the single-bit mask `bit` is set in `flags`. */
  predicate HasBit(flags: int, bit: int)
    requires IsWord(flags) && IsWord(bit)
  {
    (flags as bv32) & (bit as bv32) != 0
  }

  /** The value of WGL_CONTEXT_FLAGS_ARB: forward compatible, and debug only in a debug build. */
  function ContextFlags(debugBuild: bool): (flags: int)
    ensures IsWord(flags)
    ensures HasBit(flags, WGL_CONTEXT_FORWARD_COMPATIBLE_BIT_ARB)
    ensures HasBit(flags, WGL_CONTEXT_DEBUG_BIT_ARB) <==> debugBuild
    ensures BitOr(flags, WGL_CONTEXT_FORWARD_COMPATIBLE_BIT_ARB) == flags
  {
    if debugBuild
    then BitOr(WGL_CONTEXT_FORWARD_COMPATIBLE_BIT_ARB, WGL_CONTEXT_DEBUG_BIT_ARB)
    else WGL_CONTEXT_FORWARD_COMPATIBLE_BIT_ARB
  }

  /**
    The reading of an attribute list: name/value pairs up to the first zero name.
    A list that ends before its zero name, or in the middle of a pair, has none;
    for a name given twice the first value counts.
  */
  function AttribMap(list: seq<int>): Option<map<int, int>>
  {
    if |list| == 0 then None
    else if list[0] == 0 then Some(map[])
    else if |list| < 2 then None
    else match AttribMap(list[2..])
      case None => None
      case Some(m) => Some(m[list[0] := list[1]])
  }

  /** The attributes `InitGLContext` requests. */
  function RequestedAttribs(major: int, minor: int, debugBuild: bool): map<int, int> {
    map[WGL_CONTEXT_MAJOR_VERSION_ARB := major,
        WGL_CONTEXT_MINOR_VERSION_ARB := minor,
        WGL_CONTEXT_FLAGS_ARB := ContextFlags(debugBuild),
        GL_CONTEXT_PROFILE_MASK := GL_CONTEXT_CORE_PROFILE_BIT]
  }

  /** A list read to the zero name is unchanged by anything appended after it. */
  lemma {:induction false} AttribMapIgnoresTail(list: seq<int>, tail: seq<int>)
    requires AttribMap(list).Some?
    ensures AttribMap(list + tail) == AttribMap(list)
  {
    if list[0] != 0 {
      assert (list + tail)[2..] == list[2..] + tail;
      AttribMapIgnoresTail(list[2..], tail);
    }
  }

  /** A leading pair with a non-zero name adds that name to the reading of the rest. */
  lemma AttribMapPair(name: int, value: int, rest: seq<int>)
    requires name != 0 && AttribMap(rest).Some?
    ensures AttribMap([name, value] + rest) == Some(AttribMap(rest).value[name := value])
  {
    assert ([name, value] + rest)[2..] == rest;
  }

  /**
    The attribute list of the source, as a value: the requested version, the
    context flags, the core profile, and a zero pair that ends it.
  */
  function ContextAttribs(major: int, minor: int, debugBuild: bool): seq<int> {
    [WGL_CONTEXT_MAJOR_VERSION_ARB, major,
     WGL_CONTEXT_MINOR_VERSION_ARB, minor,
     WGL_CONTEXT_FLAGS_ARB, ContextFlags(debugBuild),
     GL_CONTEXT_PROFILE_MASK, GL_CONTEXT_CORE_PROFILE_BIT,
     0, 0]
  }

  /**
    The list is ten entries long and ends in a zero pair after four pairs
    with non-zero names.
  */
  lemma ContextAttribsLayout(major: int, minor: int, debugBuild: bool)
    ensures var list := ContextAttribs(major, minor, debugBuild);
      && |list| == AttribCount && list[AttribCount - 2] == 0 && list[AttribCount - 1] == 0
      && (forall k :: 0 <= k < AttribCount - 2 && k % 2 == 0 ==> list[k] != 0)
  {
  }

  /** The four pairs of the list, before any ending that reads as no attributes, request exactly the four attributes. */
  lemma RequestBefore(major: int, minor: int, debugBuild: bool, terminator: seq<int>)
    requires AttribMap(terminator) == Some(map[])
    ensures AttribMap([WGL_CONTEXT_MAJOR_VERSION_ARB, major] + ([WGL_CONTEXT_MINOR_VERSION_ARB, minor] +
                      ([WGL_CONTEXT_FLAGS_ARB, ContextFlags(debugBuild)] +
                       ([GL_CONTEXT_PROFILE_MASK, GL_CONTEXT_CORE_PROFILE_BIT] + terminator))))
         == Some(RequestedAttribs(major, minor, debugBuild))
  {
    var flags := ContextFlags(debugBuild);
    var profile := [GL_CONTEXT_PROFILE_MASK, GL_CONTEXT_CORE_PROFILE_BIT] + terminator;
    var flagged := [WGL_CONTEXT_FLAGS_ARB, flags] + profile;
    var versioned := [WGL_CONTEXT_MINOR_VERSION_ARB, minor] + flagged;
    var list := [WGL_CONTEXT_MAJOR_VERSION_ARB, major] + versioned;
    AttribMapPair(GL_CONTEXT_PROFILE_MASK, GL_CONTEXT_CORE_PROFILE_BIT, terminator);
    AttribMapPair(WGL_CONTEXT_FLAGS_ARB, flags, profile);
    AttribMapPair(WGL_CONTEXT_MINOR_VERSION_ARB, minor, flagged);
    AttribMapPair(WGL_CONTEXT_MAJOR_VERSION_ARB, major, versioned);
    assert AttribMap(list).value == RequestedAttribs(major, minor, debugBuild);
  }

  /** Read back as name/value pairs, the list requests exactly the four attributes. */
  lemma ContextAttribsDecode(major: int, minor: int, debugBuild: bool)
    ensures AttribMap(ContextAttribs(major, minor, debugBuild)) == Some(RequestedAttribs(major, minor, debugBuild))
  {
    var terminator: seq<int> := [0, 0];
    assert AttribMap(terminator) == Some(map[]);
    RequestBefore(major, minor, debugBuild, terminator);
    assert ContextAttribs(major, minor, debugBuild)
        == [WGL_CONTEXT_MAJOR_VERSION_ARB, major] + ([WGL_CONTEXT_MINOR_VERSION_ARB, minor] +
           ([WGL_CONTEXT_FLAGS_ARB, ContextFlags(debugBuild)] +
            ([GL_CONTEXT_PROFILE_MASK, GL_CONTEXT_CORE_PROFILE_BIT] + terminator)));
  }

  /**
    The last entry, the value slot of the zero pair, plays no part in the
    request: whatever it holds, the list reads the same.
  */
  lemma TerminatorValueIgnored(major: int, minor: int, debugBuild: bool, v: int)
    ensures AttribMap(ContextAttribs(major, minor, debugBuild)[AttribCount - 1 := v])
         == Some(RequestedAttribs(major, minor, debugBuild))
  {
    var zero: seq<int> := [0];
    var head := [WGL_CONTEXT_MAJOR_VERSION_ARB, major] + ([WGL_CONTEXT_MINOR_VERSION_ARB, minor] +
                ([WGL_CONTEXT_FLAGS_ARB, ContextFlags(debugBuild)] +
                 ([GL_CONTEXT_PROFILE_MASK, GL_CONTEXT_CORE_PROFILE_BIT] + zero)));
    assert AttribMap(zero) == Some(map[]);
    RequestBefore(major, minor, debugBuild, zero);
    AttribMapIgnoresTail(head, [v]);
    assert ContextAttribs(major, minor, debugBuild)[AttribCount - 1 := v] == head + [v];
  }

  /**
    `attribs` as the source builds it: the array initialiser, then, in a debug
    build, `attribs[5] |= WGL_CONTEXT_DEBUG_BIT_ARB`.
  */
  method BuildAttribs(major: int, minor: int, debugBuild: bool) returns (attribs: array<int>)
    ensures fresh(attribs)
    ensures attribs[..] == ContextAttribs(major, minor, debugBuild)
  {
    attribs := new int[AttribCount];
    attribs[0], attribs[1] := WGL_CONTEXT_MAJOR_VERSION_ARB, major;
    attribs[2], attribs[3] := WGL_CONTEXT_MINOR_VERSION_ARB, minor;
    attribs[4], attribs[5] := WGL_CONTEXT_FLAGS_ARB, WGL_CONTEXT_FORWARD_COMPATIBLE_BIT_ARB;
    attribs[6], attribs[7] := GL_CONTEXT_PROFILE_MASK, GL_CONTEXT_CORE_PROFILE_BIT;
    attribs[8], attribs[9] := 0, 0;
    if debugBuild {
      attribs[5] := BitOr(attribs[5], WGL_CONTEXT_DEBUG_BIT_ARB);
    }
  }

  /** Only the flags entry depends on the build: the two builds agree everywhere else. */
  lemma DebugBuildChangesOnlyFlags(major: int, minor: int)
    ensures forall k :: 0 <= k < AttribCount && k != 5 ==>
      ContextAttribs(major, minor, true)[k] == ContextAttribs(major, minor, false)[k]
    ensures ContextAttribs(major, minor, true)[5] == 3 && ContextAttribs(major, minor, false)[5] == 2
  {
  }
}
