/**
  The debug-message sink of the GL context host (`openglCallbackFunction`).

  OpenGL hands the sink a message of the KHR_debug "Debug Output" facility
  (chapter 20 of the OpenGL 4.3 core profile specification) together with its
  source, messageType, id, severity and length codes. The sink builds a four-line text
  record from the message and the labels of the type and severity codes and sends
  it to the platform debug channel. The model stops at the record: `Format`
  returns the string that the stream holds when it is emitted.

  `ParseRecord` reads a record back; `Format` is proved to produce a
  record that parses to exactly its message and labels, and every string that
  parses is the rendering of what it parses to.
*/
module GLDebugOutput {
  import opened Wrappers

  // GLenum values of the message types (OpenGL 4.3 core profile, chapter 20)
  const DEBUG_TYPE_ERROR: int := 0x824C
  const DEBUG_TYPE_DEPRECATED_BEHAVIOR: int := 0x824D
  const DEBUG_TYPE_UNDEFINED_BEHAVIOR: int := 0x824E
  const DEBUG_TYPE_PORTABILITY: int := 0x824F
  const DEBUG_TYPE_PERFORMANCE: int := 0x8250
  const DEBUG_TYPE_OTHER: int := 0x8251

  // GLenum values of the message severities (OpenGL 4.3 core profile, chapter 20)
  const DEBUG_SEVERITY_HIGH: int := 0x9146
  const DEBUG_SEVERITY_MEDIUM: int := 0x9147
  const DEBUG_SEVERITY_LOW: int := 0x9148
  const DEBUG_SEVERITY_NOTIFICATION: int := 0x826B

  // GLenum value of the message source "API" (OpenGL 4.3 core profile, chapter 20)
  const DEBUG_SOURCE_API: int := 0x8246

  /** The first line of every record, after the leading newline. */
  const Banner: string := "OPENGL DEBUG MESSAGE: "
  const TypeTag: string := "Type: "
  const SeverityTag: string := "Severity: "

  /** The type codes the sink has a label for. */
  predicate IsLabelledType(t: int) {
    t == DEBUG_TYPE_ERROR || t == DEBUG_TYPE_DEPRECATED_BEHAVIOR ||
    t == DEBUG_TYPE_UNDEFINED_BEHAVIOR || t == DEBUG_TYPE_PORTABILITY ||
    t == DEBUG_TYPE_PERFORMANCE || t == DEBUG_TYPE_OTHER
  }

  /** The severity codes the sink has a label for (NOTIFICATION is not one). */
  predicate IsLabelledSeverity(s: int) {
    s == DEBUG_SEVERITY_LOW || s == DEBUG_SEVERITY_MEDIUM || s == DEBUG_SEVERITY_HIGH
  }

  /** The text written after "Type: "; the switch has no default, so an unlisted code writes nothing. */
  function TypeLabel(t: int): (text: string)
    ensures text != [] <==> IsLabelledType(t)
    ensures '\n' !in text
  {
    if t == DEBUG_TYPE_ERROR then "ERROR"
    else if t == DEBUG_TYPE_DEPRECATED_BEHAVIOR then "DEPRECATED_BEHAVIOR"
    else if t == DEBUG_TYPE_UNDEFINED_BEHAVIOR then "UNDEFINED_BEHAVIOR"
    else if t == DEBUG_TYPE_PORTABILITY then "PORTABILITY"
    else if t == DEBUG_TYPE_PERFORMANCE then "PERFORMANCE"
    else if t == DEBUG_TYPE_OTHER then "OTHER"
    else ""
  }

  /** The text written after "Severity: "; an unlisted code writes nothing. */
  function SeverityLabel(s: int): (text: string)
    ensures text != [] <==> IsLabelledSeverity(s)
    ensures '\n' !in text
  {
    if s == DEBUG_SEVERITY_LOW then "LOW"
    else if s == DEBUG_SEVERITY_MEDIUM then "MEDIUM"
    else if s == DEBUG_SEVERITY_HIGH then "HIGH"
    else ""
  }

  /** Reference decoding of a type label back to its code. */
  function TypeOfLabel(text: string): Option<int> {
    if text == "ERROR" then Some(DEBUG_TYPE_ERROR)
    else if text == "DEPRECATED_BEHAVIOR" then Some(DEBUG_TYPE_DEPRECATED_BEHAVIOR)
    else if text == "UNDEFINED_BEHAVIOR" then Some(DEBUG_TYPE_UNDEFINED_BEHAVIOR)
    else if text == "PORTABILITY" then Some(DEBUG_TYPE_PORTABILITY)
    else if text == "PERFORMANCE" then Some(DEBUG_TYPE_PERFORMANCE)
    else if text == "OTHER" then Some(DEBUG_TYPE_OTHER)
    else None
  }

  /** Reference decoding of a severity label back to its code. */
  function SeverityOfLabel(text: string): Option<int> {
    if text == "LOW" then Some(DEBUG_SEVERITY_LOW)
    else if text == "MEDIUM" then Some(DEBUG_SEVERITY_MEDIUM)
    else if text == "HIGH" then Some(DEBUG_SEVERITY_HIGH)
    else None
  }

  /** The type label names its code: labelled codes round-trip, and a label decodes only to a code with that label. */
  lemma TypeLabelRoundTrip(t: int, text: string)
    ensures TypeOfLabel(TypeLabel(t)) == if IsLabelledType(t) then Some(t) else None
    ensures TypeOfLabel(text) == Some(t) ==> TypeLabel(t) == text
  {
  }

  /** The severity label names its code, in both directions. */
  lemma SeverityLabelRoundTrip(s: int, text: string)
    ensures SeverityOfLabel(SeverityLabel(s)) == if IsLabelledSeverity(s) then Some(s) else None
    ensures SeverityOfLabel(text) == Some(s) ==> SeverityLabel(s) == text
  {
  }

  /**
    What `stream << message` writes for a `const GLchar*`: the characters up to,
    not including, the first NUL. The `length` argument of the callback is not used.
  */
  function CString(m: string): (r: string)
    ensures '\0' !in r
    ensures r <= m
    ensures |r| < |m| ==> m[|r|] == '\0'
  {
    if |m| == 0 || m[0] == '\0' then [] else [m[0]] + CString(m[1..])
  }

  lemma {:induction false} CStringOfPlainText(m: string)
    requires '\0' !in m
    ensures CString(m) == m
  {
    if |m| > 0 {
      assert '\0' !in m[1..];
      CStringOfPlainText(m[1..]);
    }
  }

  /** The three variable parts of a record. */
  datatype DebugRecord = DebugRecord(message: string, typeLabel: string, severityLabel: string)

  /** The layout of a record: an empty line, then one line each for the message, the type and the severity. */
  function Render(rec: DebugRecord): string {
    "\n" + Banner + rec.message + "\n" +
    TypeTag + rec.typeLabel + "\n" +
    SeverityTag + rec.severityLabel + "\n"
  }

  /**
    The record of the debug-message sink. `source`, `id`, `length` and
    `userParam` are accepted as the callback's signature demands; the record
    is built from `type`, `severity` and `message` alone.
  */
  function Format(source: int, messageType: int, id: int, severity: int, length: int,
                  message: string, userParam: nat): (record: string)
    ensures |record| == 42 + |CString(message)| + |TypeLabel(messageType)| + |SeverityLabel(severity)|
  {
    Render(DebugRecord(CString(message), TypeLabel(messageType), SeverityLabel(severity)))
  }

  /** The index of the last occurrence of `c` in `s`. */
  function LastIndex(s: string, c: char): (r: Option<nat>)
    ensures r.None? <==> c !in s
    ensures r.Some? ==> r.value < |s| && s[r.value] == c && c !in s[r.value + 1..]
  {
    if |s| == 0 then None
    else if s[|s| - 1] == c then Some(|s| - 1)
    else
      var r := LastIndex(s[..|s| - 1], c);
      assert s == s[..|s| - 1] + [s[|s| - 1]];
      r
  }

  /** Splits off the text after the last newline. */
  function SplitLastLine(s: string): Option<(string, string)> {
    match LastIndex(s, '\n')
    case None => None
    case Some(i) => Some((s[..i], s[i + 1..]))
  }

  /** A newline followed by single-line text is where the split happens. */
  lemma SplitLastLineOf(a: string, b: string)
    requires '\n' !in b
    ensures SplitLastLine(a + "\n" + b) == Some((a, b))
  {
    var s := a + "\n" + b;
    assert s[|a|] == '\n';
    assert forall k :: |a| < k < |s| ==> s[k] == b[k - |a| - 1];
    var i := LastIndex(s, '\n').value;
    assert s[i + 1..] == s[i + 1..];
    assert s[..|a|] == a && s[|a| + 1..] == b;
  }

  /**
    Reads a record back, working from its end: the severity line and the type line
    are the last two lines (their labels hold no newline), and what comes before them
    is the banner line, whose message may itself hold newlines.
  */
  function ParseRecord(s: string): Option<DebugRecord> {
    if |s| == 0 || s[|s| - 1] != '\n' then None
    else
      match SplitLastLine(s[..|s| - 1])
      case None => None
      case Some((rest, severityLine)) =>
        match SplitLastLine(rest)
        case None => None
        case Some((head, typeLine)) =>
          if SeverityTag <= severityLine && TypeTag <= typeLine && "\n" + Banner <= head
          then Some(DebugRecord(head[|Banner| + 1..], typeLine[|TypeTag|..], severityLine[|SeverityTag|..]))
          else None
  }

  /** The shape of a parseable string, for arbitrary head and single-line tails. */
  lemma ParseLines(head: string, typeLine: string, severityLine: string)
    requires '\n' !in typeLine && '\n' !in severityLine
    ensures ParseRecord(head + "\n" + typeLine + "\n" + severityLine + "\n")
         == if SeverityTag <= severityLine && TypeTag <= typeLine && "\n" + Banner <= head
            then Some(DebugRecord(head[|Banner| + 1..], typeLine[|TypeTag|..], severityLine[|SeverityTag|..]))
            else None
  {
    var rest := head + "\n" + typeLine;
    var s := rest + "\n" + severityLine + "\n";
    assert s[..|s| - 1] == rest + "\n" + severityLine;
    SplitLastLineOf(rest, severityLine);
    SplitLastLineOf(head, typeLine);
  }

  /** Single-line text after a tag stays single-line. */
  lemma NoNewlineAfterTag(tag: string, text: string)
    requires '\n' !in tag && '\n' !in text
    ensures '\n' !in tag + text && (tag + text)[|tag|..] == text && tag <= tag + text
  {
    assert forall k :: 0 <= k < |tag + text| ==> (tag + text)[k] == if k < |tag| then tag[k] else text[k - |tag|];
  }

  /** Parsing inverts rendering whenever the labels are single-line. */
  lemma ParseRender(rec: DebugRecord)
    requires '\n' !in rec.typeLabel && '\n' !in rec.severityLabel
    ensures ParseRecord(Render(rec)) == Some(rec)
  {
    var head := "\n" + Banner + rec.message;
    var typeLine := TypeTag + rec.typeLabel;
    var severityLine := SeverityTag + rec.severityLabel;
    NoNewlineAfterTag(TypeTag, rec.typeLabel);
    NoNewlineAfterTag(SeverityTag, rec.severityLabel);
    assert head[|Banner| + 1..] == rec.message;
    assert "\n" + Banner <= head;
    assert Render(rec) == head + "\n" + typeLine + "\n" + severityLine + "\n";
    ParseLines(head, typeLine, severityLine);
  }

  /** The split is a real split: the pieces rejoin to the input, the tail single-line. */
  lemma SplitLastLineJoins(s: string)
    requires SplitLastLine(s).Some?
    ensures s == SplitLastLine(s).value.0 + "\n" + SplitLastLine(s).value.1
    ensures '\n' !in SplitLastLine(s).value.1
  {
    var i := LastIndex(s, '\n').value;
    assert s == s[..i] + "\n" + s[i + 1..];
  }

  lemma NotInSuffix(s: string, n: nat, c: char)
    requires n <= |s| && c !in s
    ensures c !in s[n..]
  {
  }

  lemma PrefixJoin(p: string, s: string)
    requires p <= s
    ensures s == p + s[|p|..]
  {
  }

  /** Three tagged lines rejoin to the rendering of what follows their tags. */
  lemma JoinTaggedLines(head: string, typeLine: string, severityLine: string)
    requires SeverityTag <= severityLine && TypeTag <= typeLine && "\n" + Banner <= head
    ensures Render(DebugRecord(head[|Banner| + 1..], typeLine[|TypeTag|..], severityLine[|SeverityTag|..]))
         == head + "\n" + typeLine + "\n" + severityLine + "\n"
  {
    PrefixJoin("\n" + Banner, head);
    PrefixJoin(TypeTag, typeLine);
    PrefixJoin(SeverityTag, severityLine);
  }

  /** Every string that parses is exactly the rendering of what it parses to, with single-line labels. */
  lemma RenderParse(s: string)
    requires ParseRecord(s).Some?
    ensures Render(ParseRecord(s).value) == s
    ensures '\n' !in ParseRecord(s).value.typeLabel && '\n' !in ParseRecord(s).value.severityLabel
  {
    var body := s[..|s| - 1];
    assert s == body + "\n";
    SplitLastLineJoins(body);
    var rest, severityLine := SplitLastLine(body).value.0, SplitLastLine(body).value.1;
    SplitLastLineJoins(rest);
    var head, typeLine := SplitLastLine(rest).value.0, SplitLastLine(rest).value.1;
    assert SeverityTag <= severityLine && TypeTag <= typeLine && "\n" + Banner <= head;
    var rec := DebugRecord(head[|Banner| + 1..], typeLine[|TypeTag|..], severityLine[|SeverityTag|..]);
    assert ParseRecord(s) == Some(rec);
    JoinTaggedLines(head, typeLine, severityLine);
    NotInSuffix(typeLine, |TypeTag|, '\n');
    NotInSuffix(severityLine, |SeverityTag|, '\n');
  }

  /** The record reads back as exactly its message, up to the first NUL, and the labels of its codes. */
  lemma FormatParses(source: int, messageType: int, id: int, severity: int, length: int,
                     message: string, userParam: nat)
    ensures ParseRecord(Format(source, messageType, id, severity, length, message, userParam))
         == Some(DebugRecord(CString(message), TypeLabel(messageType), SeverityLabel(severity)))
  {
    ParseRender(DebugRecord(CString(message), TypeLabel(messageType), SeverityLabel(severity)));
  }

  /** The record depends on the type, severity and message only. */
  lemma FormatIgnoresSourceIdLength(source: int, source': int, messageType: int, id: int, id': int, severity: int,
                                     length: int, length': int, message: string, user: nat, user': nat)
    ensures Format(source, messageType, id, severity, length, message, user)
         == Format(source', messageType, id', severity, length', message, user')
  {
  }

  /** The layout of a record spelled out: the line texts, with the three variable parts in place. */
  lemma RenderSpelledOut(rec: DebugRecord)
    ensures Render(rec) == "\nOPENGL DEBUG MESSAGE: " + rec.message + "\nType: " + rec.typeLabel
                         + "\nSeverity: " + rec.severityLabel + "\n"
  {
    assert "\n" + Banner == "\nOPENGL DEBUG MESSAGE: ";
    assert "\n" + TypeTag == "\nType: ";
    assert "\n" + SeverityTag == "\nSeverity: ";
  }

  /** The record of the sink spelled out, in terms of its message and its two codes. */
  lemma FormatSpelledOut(source: int, messageType: int, id: int, severity: int, length: int,
                         message: string, userParam: nat)
    ensures Format(source, messageType, id, severity, length, message, userParam)
         == "\nOPENGL DEBUG MESSAGE: " + CString(message) + "\nType: " + TypeLabel(messageType)
            + "\nSeverity: " + SeverityLabel(severity) + "\n"
  {
    RenderSpelledOut(DebugRecord(CString(message), TypeLabel(messageType), SeverityLabel(severity)));
  }

  /** The text of the record of message "X" with labels ERROR and HIGH. */
  lemma RenderApiError()
    ensures Render(DebugRecord("X", "ERROR", "HIGH")) == "\nOPENGL DEBUG MESSAGE: X\nType: ERROR\nSeverity: HIGH\n"
  {
    RenderSpelledOut(DebugRecord("X", "ERROR", "HIGH"));
    assert "\nOPENGL DEBUG MESSAGE: " + "X" + "\nType: " == "\nOPENGL DEBUG MESSAGE: X\nType: ";
    assert "\nOPENGL DEBUG MESSAGE: X\nType: " + "ERROR" + "\nSeverity: " == "\nOPENGL DEBUG MESSAGE: X\nType: ERROR\nSeverity: ";
  }

  /** The record of an API error with message "X" and severity HIGH. */
  lemma FormatApiErrorExample(id: int)
    ensures Format(DEBUG_SOURCE_API, DEBUG_TYPE_ERROR, id, DEBUG_SEVERITY_HIGH, 1, "X", 0)
         == "\nOPENGL DEBUG MESSAGE: X\nType: ERROR\nSeverity: HIGH\n"
  {
    CStringOfPlainText("X");
    RenderApiError();
  }

  /** A NOTIFICATION with an unlisted type still gets both tag lines, with empty labels. */
  lemma FormatUnlabelledExample(message: string)
    requires '\0' !in message
    ensures Format(DEBUG_SOURCE_API, 0, 0, DEBUG_SEVERITY_NOTIFICATION, |message|, message, 0)
         == Render(DebugRecord(message, "", ""))
  {
    CStringOfPlainText(message);
  }
}
