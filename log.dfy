/**
 * The logging stub shared by the tracer's assemblies: the default log-line
 * format (error message composition, component and message parts, the
 * `{[name]=value, ...}` data section, the process-id field) and the
 * configurable dispatch of error, info and debug events to handlers.
 */
module Log {
  import opened Wrappers
  import Decimal

  const LogLevelMonikerError: string := "ERROR"
  const LogLevelMonikerInfo: string := "INFO "
  const LogLevelMonikerDebug: string := "DEBUG"
  const NullWord: string := "null"
  const DataValueNotSpecifiedWord: string := "unspecified"
  const PIdPrefix: string := " | PId:"
  const MinPidWidth: nat := 6

  /** A value in a log event's names-and-values array: null, a string, or any other
    * object, represented by its `ToString()` text. */
  datatype DataValue = Null | Str(s: string) | Other(text: string)

  /** `char.IsWhiteSpace`: the Unicode space separators, line and paragraph separators,
    * and the control characters U+0009 to U+000D and U+0085. */
  predicate IsWhiteSpace(c: char) {
    || ('\t' <= c <= '\r')
    || c == ' '
    || c == 0x85 as char
    || c == 0xA0 as char
    || c == 0x1680 as char
    || (0x2000 as char <= c <= 0x200A as char)
    || c == 0x2028 as char
    || c == 0x2029 as char
    || c == 0x202F as char
    || c == 0x205F as char
    || c == 0x3000 as char
  }

  predicate AllWhiteSpace(s: string) {
    s == [] || (IsWhiteSpace(s[0]) && AllWhiteSpace(s[1..]))
  }

  /** `string.IsNullOrWhiteSpace`. */
  predicate IsNullOrWhiteSpace(s: Option<string>) {
    s.None? || AllWhiteSpace(s.value)
  }

  function Last(s: string): char
    requires s != []
  {
    s[|s| - 1]
  }

  /** A message closed as a sentence: followed by a space when it already ends in '.',
    * by ". " otherwise. */
  function AsSentence(message: string): (r: string)
  {
    if |message| > 0 && Last(message) == '.' then message + " " else message + ". "
  }

  /** `ConstructErrorMessage`: the message and the exception text, joined as sentences. */
  function ConstructErrorMessage(message: Option<string>, exception: Option<string>): (r: Option<string>)
    ensures r.None? <==> message.None? && exception.None?
    ensures message.Some? && exception.None? ==> r == message
    ensures message.None? && exception.Some? ==> r == exception
    ensures message.Some? && exception.Some? ==> r == Some(AsSentence(message.value) + exception.value)
  {
    if message.Some? && exception.Some? then
      if |message.value| > 0 && Last(message.value) == '.' then Some(message.value + " " + exception.value)
      else Some(message.value + ". " + exception.value)
    else if message.Some? && exception.None? then message
    else if message.None? && exception.Some? then exception
    else None
  }

  /** When both are present, the message is kept whole, the exception text follows it, and
    * the two characters just before the exception text are ". ". */
  lemma ErrorMessageKeepsBoth(message: string, exception: string)
    ensures var r := ConstructErrorMessage(Some(message), Some(exception)).value;
            var n := |AsSentence(message)|;
            r[..|message|] == message && r[n..] == exception && r[n - 2..n] == ". "
  {
    var r := ConstructErrorMessage(Some(message), Some(exception)).value;
    var s := AsSentence(message);
    assert r == s + exception;
    assert r[..|s|] == s;
    assert r[..|message|] == s[..|message|];
  }

  function AppendIfNotBlank(acc: string, part: Option<string>): string {
    if IsNullOrWhiteSpace(part) then acc else acc + part.value
  }

  /** The component part of a line: the non-blank name parts, then ": " if there was one. */
  function ComponentPart(part1: Option<string>, part2: Option<string>, part3: Option<string>): (r: string)
    ensures r == "" <==> IsNullOrWhiteSpace(part1) && IsNullOrWhiteSpace(part2) && IsNullOrWhiteSpace(part3)
  {
    var names := AppendIfNotBlank(AppendIfNotBlank(AppendIfNotBlank("", part1), part2), part3);
    if IsNullOrWhiteSpace(part1) && IsNullOrWhiteSpace(part2) && IsNullOrWhiteSpace(part3) then names
    else names + ": "
  }

  /** A non-empty component part starts with the first non-blank name part and ends in ": ". */
  lemma ComponentPartShape(part1: Option<string>, part2: Option<string>, part3: Option<string>)
    ensures var r := ComponentPart(part1, part2, part3);
            && (r != "" ==> |r| >= 2 && r[|r| - 2..] == ": ")
            && (!IsNullOrWhiteSpace(part1) ==> |r| >= |part1.value| && r[..|part1.value|] == part1.value)
  {
    var names1 := AppendIfNotBlank("", part1);
    var names := AppendIfNotBlank(AppendIfNotBlank(names1, part2), part3);
    assert names1 <= names;
  }

  /** The message part of a line: a non-blank message as a sentence, else nothing. */
  function MessagePart(message: Option<string>): (r: string)
    ensures r == "" <==> IsNullOrWhiteSpace(message)
    ensures r != "" ==> r == AsSentence(message.value)
  {
    if IsNullOrWhiteSpace(message) then "" else AsSentence(message.value)
  }

  /** `QuoteIfString`: null as `null`, a string in double quotes, anything else as its text. */
  function Quote(v: DataValue): (r: string)
    ensures v.Null? ==> r == NullWord
    ensures v.Other? ==> r == v.text
  {
    match v
    case Null => NullWord
    case Str(s) => "\"" + s + "\""
    case Other(text) => text
  }

  /** A string value is shown between double quotes, its text unchanged. */
  lemma QuoteString(s: string)
    ensures var r := Quote(Str(s));
            && |r| == |s| + 2
            && r[0] == '"' && r[|r| - 1] == '"'
            && r[1..|r| - 1] == s
  {
    var r := Quote(Str(s));
    assert r == "\"" + s + "\"";
  }

  /** The pair that starts at the even index i: `[name]=value`, the value `unspecified`
    * when the name is the last element. */
  function PairText(d: seq<DataValue>, i: nat): string
    requires i < |d|
  {
    "[" + Quote(d[i]) + "]=" + (if i + 1 < |d| then Quote(d[i + 1]) else DataValueNotSpecifiedWord)
  }

  /** The first n pairs (the pair k starting at index 2k), separated by ", ". */
  function Pairs(d: seq<DataValue>, n: nat): string
    requires 2 * n <= |d| + 1
  {
    if n == 0 then "" else Pairs(d, n - 1) + (if n > 1 then ", " else "") + PairText(d, 2 * (n - 1))
  }

  /** How many pairs the loop over the names and values renders: one per even index. */
  function PairCount(d: seq<DataValue>): (n: nat)
    ensures |d| <= 2 * n <= |d| + 1
  {
    (|d| + 1) / 2
  }

  /** The data section: `{` + the pairs + `}` for a non-empty array, else nothing. */
  function DataSection(data: Option<seq<DataValue>>): string {
    if data.None? || |data.value| == 0 then "" else "{" + Pairs(data.value, PairCount(data.value)) + "}"
  }

  /** Everything `AppendEventInfo` appends. */
  function EventInfo(part1: Option<string>, part2: Option<string>, part3: Option<string>,
                     message: Option<string>, data: Option<seq<DataValue>>): string {
    ComponentPart(part1, part2, part3) + MessagePart(message) + DataSection(data)
  }

  /** Pairs that lie inside d are rendered the same when more values follow. */
  lemma {:induction false} PairsExtend(d: seq<DataValue>, more: seq<DataValue>, n: nat)
    requires 2 * n <= |d|
    ensures Pairs(d + more, n) == Pairs(d, n)
  {
    if n > 0 {
      var i := 2 * (n - 1);
      PairsExtend(d, more, n - 1);
      assert PairText(d + more, i) == PairText(d, i) by {
        assert (d + more)[i] == d[i];
        assert (d + more)[i + 1] == d[i + 1];
      }
    }
  }

  /** Adding a name and its value to an even-length array adds one pair at the end of the
    * data section, after ", ". */
  lemma DataSectionAppendPair(d: seq<DataValue>, name: DataValue, value: DataValue)
    requires |d| > 0 && |d| % 2 == 0
    ensures var before := DataSection(Some(d));
            DataSection(Some(d + [name, value]))
            == before[..|before| - 1] + ", " + ("[" + Quote(name) + "]=" + Quote(value)) + "}"
  {
    var e := d + [name, value];
    var n := |d| / 2;
    assert 2 * n == |d|;
    var p := Pairs(d, n);
    PairsExtend(d, [name, value], n);
    assert PairText(e, 2 * n) == "[" + Quote(name) + "]=" + Quote(value);
    assert PairCount(d) == n && PairCount(e) == n + 1;
    assert Pairs(e, n + 1) == p + ", " + PairText(e, 2 * n);
    var before := DataSection(Some(d));
    assert before == "{" + p + "}";
    assert before[..|before| - 1] == "{" + p;
    Concat("{", p, ", ");
    Concat("{", p + ", ", PairText(e, 2 * n));
  }

  /** The pair of a trailing name has the value `unspecified`. */
  lemma LastNameUnspecified(d: seq<DataValue>, name: DataValue)
    ensures PairText(d + [name], |d|) == "[" + Quote(name) + "]=" + DataValueNotSpecifiedWord
  {
    assert (d + [name])[|d|] == name;
  }

  /** A name with no value after it is shown with the value `unspecified`. */
  lemma DataSectionOddName(d: seq<DataValue>, n: nat, name: DataValue)
    requires |d| == 2 * n
    ensures DataSection(Some(d + [name])) ==
      "{" + Pairs(d, n) + (if n > 0 then ", " else "")
        + ("[" + Quote(name) + "]=" + DataValueNotSpecifiedWord) + "}"
  {
    var e := d + [name];
    var p := Pairs(d, n);
    var sep := if n > 0 then ", " else "";
    var t := PairText(e, 2 * n);
    PairsExtend(d, [name], n);
    LastNameUnspecified(d, name);
    assert PairCount(e) == n + 1;
    Concat("{", p, sep);
    Concat("{", p + sep, t);
    calc {
      DataSection(Some(e));
      "{" + Pairs(e, n + 1) + "}";
      "{" + (p + sep + t) + "}";
      "{" + p + sep + t + "}";
    }
  }

  lemma Concat(a: string, b: string, c: string)
    ensures a + b + c == a + (b + c)
  {
  }

  /** The in-place text buffer the formatter appends to (`StringBuilder`). */
  class StringBuilder {
    var content: string

    constructor ()
      ensures content == ""
    {
      content := "";
    }

    method Append(s: string)
      modifies this
      ensures content == old(content) + s
    {
      content := content + s;
    }

    method Insert(index: nat, s: string)
      requires index <= |content|
      modifies this
      ensures content == old(content)[..index] + s + old(content)[index..]
    {
      content := content[..index] + s + content[index..];
    }
  }

  /** `QuoteIfString`. */
  method QuoteIfString(targetBuffer: StringBuilder, val: DataValue)
    modifies targetBuffer
    ensures targetBuffer.content == old(targetBuffer.content) + Quote(val)
  {
    match val {
      case Null => targetBuffer.Append(NullWord);
      case Str(strValue) =>
        targetBuffer.Append("\"");
        targetBuffer.Append(strValue);
        targetBuffer.Append("\"");
      case Other(text) => targetBuffer.Append(text);
    }
  }

  /** The first steps of `AppendEventInfo`: the non-blank component name parts, then ": "
    * when there was one. */
  method AppendComponentName(targetBuffer: StringBuilder, componentNamePart1: Option<string>,
                             componentNamePart2: Option<string>, componentNamePart3: Option<string>)
    modifies targetBuffer
    ensures targetBuffer.content == old(targetBuffer.content)
      + ComponentPart(componentNamePart1, componentNamePart2, componentNamePart3)
  {
    ghost var start := targetBuffer.content;
    var hasComponentName := false;
    if !IsNullOrWhiteSpace(componentNamePart1) {
      targetBuffer.Append(componentNamePart1.value);
      hasComponentName := true;
    }
    ghost var names1 := AppendIfNotBlank("", componentNamePart1);
    assert targetBuffer.content == start + names1;
    if !IsNullOrWhiteSpace(componentNamePart2) {
      targetBuffer.Append(componentNamePart2.value);
      Concat(start, names1, componentNamePart2.value);
      hasComponentName := true;
    }
    ghost var names2 := AppendIfNotBlank(names1, componentNamePart2);
    assert targetBuffer.content == start + names2;
    if !IsNullOrWhiteSpace(componentNamePart3) {
      targetBuffer.Append(componentNamePart3.value);
      Concat(start, names2, componentNamePart3.value);
      hasComponentName := true;
    }
    ghost var names3 := AppendIfNotBlank(names2, componentNamePart3);
    assert targetBuffer.content == start + names3;
    if hasComponentName {
      targetBuffer.Append(": ");
      Concat(start, names3, ": ");
    }
  }

  /** The message step of `AppendEventInfo`: a non-blank message closed as a sentence. */
  method AppendMessage(targetBuffer: StringBuilder, message: Option<string>)
    modifies targetBuffer
    ensures targetBuffer.content == old(targetBuffer.content) + MessagePart(message)
  {
    ghost var start := targetBuffer.content;
    if !IsNullOrWhiteSpace(message) {
      var m := message.value;
      targetBuffer.Append(m);
      if |m| > 0 && m[|m| - 1] == '.' {
        targetBuffer.Append(" ");
        Concat(start, m, " ");
      } else {
        targetBuffer.Append(". ");
        Concat(start, m, ". ");
      }
    }
  }

  /** One turn of the data loop of `AppendEventInfo`: the separator, then the pair at i. */
  method AppendPair(targetBuffer: StringBuilder, d: seq<DataValue>, i: nat)
    requires i < |d|
    modifies targetBuffer
    ensures targetBuffer.content == old(targetBuffer.content) + ((if i > 0 then ", " else "") + PairText(d, i))
  {
    ghost var start := targetBuffer.content;
    if i > 0 {
      targetBuffer.Append(", ");
    }
    ghost var sep := if i > 0 then ", " else "";
    ghost var afterSep := targetBuffer.content;
    targetBuffer.Append("[");
    QuoteIfString(targetBuffer, d[i]);
    targetBuffer.Append("]");
    targetBuffer.Append("=");
    ghost var name := "[" + Quote(d[i]) + "]=";
    assert targetBuffer.content == afterSep + name;
    ghost var value := if i + 1 < |d| then Quote(d[i + 1]) else DataValueNotSpecifiedWord;
    if i + 1 < |d| {
      QuoteIfString(targetBuffer, d[i + 1]);
    } else {
      targetBuffer.Append(DataValueNotSpecifiedWord);
    }
    assert PairText(d, i) == name + value;
    Concat(afterSep, name, value);
    Concat(start, sep, PairText(d, i));
  }

  /** The data step of `AppendEventInfo`: `{`, the pairs, `}` for a non-empty array. */
  method AppendData(targetBuffer: StringBuilder, dataNamesAndValues: Option<seq<DataValue>>)
    modifies targetBuffer
    ensures targetBuffer.content == old(targetBuffer.content) + DataSection(dataNamesAndValues)
  {
    if dataNamesAndValues.Some? && |dataNamesAndValues.value| > 0 {
      var d := dataNamesAndValues.value;
      ghost var start := targetBuffer.content;
      targetBuffer.Append("{");
      var i := 0;
      ghost var n := 0;
      while i < |d|
        invariant i == 2 * n && 2 * n <= |d| + 1
        invariant targetBuffer.content == start + "{" + Pairs(d, n)
        decreases |d| + 1 - i
      {
        AppendPair(targetBuffer, d, i);
        ghost var sep := if i > 0 then ", " else "";
        Concat(start + "{", Pairs(d, n), sep + PairText(d, i));
        Concat(Pairs(d, n), sep, PairText(d, i));
        assert Pairs(d, n + 1) == Pairs(d, n) + sep + PairText(d, i);
        i := i + 2;
        n := n + 1;
      }
      assert n == PairCount(d);
      targetBuffer.Append("}");
      Concat(start, "{", Pairs(d, n));
      Concat(start, "{" + Pairs(d, n), "}");
    }
  }

  /** `AppendEventInfo`: appends the component part, the message part and the data section. */
  method AppendEventInfo(targetBuffer: StringBuilder, componentNamePart1: Option<string>,
                         componentNamePart2: Option<string>, componentNamePart3: Option<string>,
                         message: Option<string>, dataNamesAndValues: Option<seq<DataValue>>)
    modifies targetBuffer
    ensures targetBuffer.content == old(targetBuffer.content)
      + EventInfo(componentNamePart1, componentNamePart2, componentNamePart3, message, dataNamesAndValues)
  {
    ghost var start := targetBuffer.content;
    AppendComponentName(targetBuffer, componentNamePart1, componentNamePart2, componentNamePart3);
    ghost var c := ComponentPart(componentNamePart1, componentNamePart2, componentNamePart3);
    AppendMessage(targetBuffer, message);
    Concat(start, c, MessagePart(message));
    AppendData(targetBuffer, dataNamesAndValues);
    Concat(start, c + MessagePart(message), DataSection(dataNamesAndValues));
  }

  /** `GetProcIdInfoString`: " | PId:" and the process id, padded on the left with spaces to
    * at least six characters; null when the process id cannot be obtained. */
  method GetProcIdInfoString(pid: Option<int>) returns (r: Option<string>)
    ensures r.None? <==> pid.None?
    ensures r.Some? ==>
      var text := Decimal.IntToString(pid.value);
      var s := r.value;
      && |s| == |PIdPrefix| + (if |text| < MinPidWidth then MinPidWidth else |text|)
      && s[..|PIdPrefix|] == PIdPrefix
      && s[|s| - |text|..] == text
      && (forall i :: |PIdPrefix| <= i < |s| - |text| ==> s[i] == ' ')
  {
    if pid.None? {
      return None;
    }
    var text := Decimal.IntToString(pid.value);
    var pidStr := new StringBuilder();
    pidStr.Append(text);
    while |pidStr.content| < MinPidWidth
      invariant |text| <= |pidStr.content| <= (if |text| < MinPidWidth then MinPidWidth else |text|)
      invariant pidStr.content[|pidStr.content| - |text|..] == text
      invariant forall i :: 0 <= i < |pidStr.content| - |text| ==> pidStr.content[i] == ' '
      decreases MinPidWidth - |pidStr.content|
    {
      pidStr.Insert(0, " ");
    }
    pidStr.Insert(0, PIdPrefix);
    r := Some(pidStr.content);
  }

  /** The text `AppendLogLinePrefix` writes: `[`, the timestamp (with " UTC" in UTC form),
    * the level, the process-id field, then `] `. The timestamp text is an input. */
  function LogLinePrefix(logLevelMoniker: Option<string>, useUtcTimestamp: bool, timestamp: string,
                         procIdInfo: Option<string>): string {
    "[" + timestamp + (if useUtcTimestamp then " UTC" else "")
      + (if logLevelMoniker.Some? then " | " + logLevelMoniker.value else "")
      + procIdInfo.GetOr("") + "] "
  }

  /** `AppendLogLinePrefix` with `AppendLogLinePrefixCore`. */
  method AppendLogLinePrefix(targetBuffer: StringBuilder, logLevelMoniker: Option<string>, useUtcTimestamp: bool,
                             timestamp: string, procIdInfo: Option<string>)
    modifies targetBuffer
    ensures targetBuffer.content == old(targetBuffer.content)
      + LogLinePrefix(logLevelMoniker, useUtcTimestamp, timestamp, procIdInfo)
  {
    ghost var start := targetBuffer.content;
    targetBuffer.Append("[");
    targetBuffer.Append(timestamp);
    Concat(start, "[", timestamp);
    ghost var written := "[" + timestamp;
    if useUtcTimestamp {
      targetBuffer.Append(" UTC");
      Concat(start, written, " UTC");
      written := written + " UTC";
    }
    if logLevelMoniker.Some? {
      targetBuffer.Append(" | " + logLevelMoniker.value);
      Concat(start, written, " | " + logLevelMoniker.value);
      written := written + (" | " + logLevelMoniker.value);
    }
    if procIdInfo.Some? {
      targetBuffer.Append(procIdInfo.value);
      Concat(start, written, procIdInfo.value);
      written := written + procIdInfo.value;
    }
    targetBuffer.Append("] ");
    Concat(start, written, "] ");
  }

  /** `ConstructLogLine`: a new buffer holding the prefix and the event info. */
  method ConstructLogLine(logLevelMoniker: Option<string>, componentNamePart1: Option<string>,
                          componentNamePart2: Option<string>, componentNamePart3: Option<string>,
                          useUtcTimestamp: bool, timestamp: string, procIdInfo: Option<string>,
                          message: Option<string>, dataNamesAndValues: Option<seq<DataValue>>)
    returns (logLine: StringBuilder)
    ensures fresh(logLine)
    ensures logLine.content == LogLinePrefix(logLevelMoniker, useUtcTimestamp, timestamp, procIdInfo)
      + EventInfo(componentNamePart1, componentNamePart2, componentNamePart3, message, dataNamesAndValues)
  {
    logLine := new StringBuilder();
    AppendLogLinePrefix(logLine, logLevelMoniker, useUtcTimestamp, timestamp, procIdInfo);
    assert logLine.content == LogLinePrefix(logLevelMoniker, useUtcTimestamp, timestamp, procIdInfo);
    AppendEventInfo(logLine, componentNamePart1, componentNamePart2, componentNamePart3, message, dataNamesAndValues);
  }

  /** A log event handler: the built-in default, or one installed through `Configure`. */
  datatype Handler = DefaultHandler | CustomHandler(id: nat)

  /** One call of a handler, with the arguments it was given. */
  datatype LogEvent =
    | ErrorEvent(handler: Handler, componentName: Option<string>, message: Option<string>,
                 exception: Option<string>, data: Option<seq<DataValue>>)
    | InfoEvent(handler: Handler, componentName: Option<string>, message: Option<string>, data: Option<seq<DataValue>>)
    | DebugEvent(handler: Handler, componentName: Option<string>, message: Option<string>, data: Option<seq<DataValue>>)

  /** The message the default error handler formats: message and exception combined. */
  function DefaultErrorMessage(ev: LogEvent): Option<string>
    requires ev.ErrorEvent?
  {
    ConstructErrorMessage(ev.message, ev.exception)
  }

  /** The level moniker the default handler writes for an event. */
  function MonikerOf(ev: LogEvent): string {
    match ev
    case ErrorEvent(_, _, _, _, _) => LogLevelMonikerError
    case InfoEvent(_, _, _, _) => LogLevelMonikerInfo
    case DebugEvent(_, _, _, _) => LogLevelMonikerDebug
  }

  /** The message the default handler formats: for an error, the message and the exception
    * combined; otherwise the message. */
  function DefaultMessage(ev: LogEvent): Option<string> {
    if ev.ErrorEvent? then DefaultErrorMessage(ev) else ev.message
  }

  /** The default handlers: the line they write for an event, built by `ConstructLogLine`
    * with local time, the level moniker and the component name as the only name part. The
    * timestamp text and the process-id field are inputs. */
  method DefaultHandlerLine(ev: LogEvent, timestamp: string, procIdInfo: Option<string>) returns (line: string)
    ensures line == LogLinePrefix(Some(MonikerOf(ev)), false, timestamp, procIdInfo)
      + EventInfo(ev.componentName, None, None, DefaultMessage(ev), ev.data)
  {
    var message := ev.message;
    var moniker := LogLevelMonikerInfo;
    if ev.ErrorEvent? {
      message := ConstructErrorMessage(ev.message, ev.exception);
      moniker := LogLevelMonikerError;
    } else if ev.DebugEvent? {
      moniker := LogLevelMonikerDebug;
    }
    var logLine := ConstructLogLine(Some(moniker), ev.componentName, None, None, false, timestamp, procIdInfo,
                                    message, ev.data);
    line := logLine.content;
  }

  /** `Log` with its `Configure` setters: the three handler slots, the debug switch, and the
    * handler calls made so far. */
  class Logger {
    var errorLogEventHandler: Option<Handler>
    var infoLogEventHandler: Option<Handler>
    var debugLogEventHandler: Option<Handler>
    var isDebugLoggingEnabled: bool
    var dispatched: seq<LogEvent>

    /** The defaults: every slot holds the default handler and debug logging is on. */
    constructor ()
      ensures errorLogEventHandler == Some(DefaultHandler) && infoLogEventHandler == Some(DefaultHandler)
      ensures debugLogEventHandler == Some(DefaultHandler) && isDebugLoggingEnabled && dispatched == []
    {
      errorLogEventHandler := Some(DefaultHandler);
      infoLogEventHandler := Some(DefaultHandler);
      debugLogEventHandler := Some(DefaultHandler);
      isDebugLoggingEnabled := true;
      dispatched := [];
    }

    /** `Configure.Error`; null makes error events ignored. */
    method ConfigureError(logEventHandler: Option<Handler>)
      modifies this`errorLogEventHandler
      ensures errorLogEventHandler == logEventHandler
    {
      errorLogEventHandler := logEventHandler;
    }

    /** `Configure.Info`. */
    method ConfigureInfo(logEventHandler: Option<Handler>)
      modifies this`infoLogEventHandler
      ensures infoLogEventHandler == logEventHandler
    {
      infoLogEventHandler := logEventHandler;
    }

    /** `Configure.Debug`. */
    method ConfigureDebug(logEventHandler: Option<Handler>)
      modifies this`debugLogEventHandler
      ensures debugLogEventHandler == logEventHandler
    {
      debugLogEventHandler := logEventHandler;
    }

    /** `Configure.DebugLoggingEnabled`. */
    method ConfigureDebugLoggingEnabled(enabled: bool)
      modifies this`isDebugLoggingEnabled
      ensures isDebugLoggingEnabled == enabled
    {
      isDebugLoggingEnabled := enabled;
    }

    /** `Log.Error`: calls the error handler, if one is set. */
    method Error(componentName: Option<string>, message: Option<string>, exception: Option<string>,
                 dataNamesAndValues: Option<seq<DataValue>>)
      modifies this`dispatched
      ensures dispatched == old(dispatched)
        + if errorLogEventHandler.Some?
          then [ErrorEvent(errorLogEventHandler.value, componentName, message, exception, dataNamesAndValues)]
          else []
    {
      var logEventHandler := errorLogEventHandler;
      if logEventHandler.Some? {
        dispatched := dispatched + [ErrorEvent(logEventHandler.value, componentName, message, exception, dataNamesAndValues)];
      }
    }

    /** `Log.Info`: calls the info handler, if one is set. */
    method Info(componentName: Option<string>, message: Option<string>, dataNamesAndValues: Option<seq<DataValue>>)
      modifies this`dispatched
      ensures dispatched == old(dispatched)
        + if infoLogEventHandler.Some?
          then [InfoEvent(infoLogEventHandler.value, componentName, message, dataNamesAndValues)]
          else []
    {
      var logEventHandler := infoLogEventHandler;
      if logEventHandler.Some? {
        dispatched := dispatched + [InfoEvent(logEventHandler.value, componentName, message, dataNamesAndValues)];
      }
    }

    /** `Log.Debug`: calls the debug handler only when debug logging is enabled and a
      * handler is set. */
    method Debug(componentName: Option<string>, message: Option<string>, dataNamesAndValues: Option<seq<DataValue>>)
      modifies this`dispatched
      ensures dispatched == old(dispatched)
        + if isDebugLoggingEnabled && debugLogEventHandler.Some?
          then [DebugEvent(debugLogEventHandler.value, componentName, message, dataNamesAndValues)]
          else []
    {
      if isDebugLoggingEnabled {
        var logEventHandler := debugLogEventHandler;
        if logEventHandler.Some? {
          dispatched := dispatched + [DebugEvent(logEventHandler.value, componentName, message, dataNamesAndValues)];
        }
      }
    }
  }
}
