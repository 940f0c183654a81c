/** The log line format of the application logger (winston's `printf` step)
    and `logMessageFormatter`. The earlier format steps (timestamp, colorize)
    and `JSON.stringify` are given to the model as opaque functions. */
module Logging {
  import opened Js
  import opened ErrorClasses
  import opened Strings

  /** Hard-coded in the logger: the production filtering always applies. */
  const IsProduction := true

  /** A property value of a log call's metadata object. `Missing` is
      `undefined`; `Ref` is a reference to an error object on the heap. */
  datatype MetaValue = Text(s: string) | Missing | NullValue | Ref(obj: ErrorObject)

  /** The same value as `JSON.stringify` sees it at the moment it runs. */
  datatype Json = JText(s: string) | JUndefined | JNull | JError(error: Failure, stack: Option<string>)

  /** One call `logger.<level>(message, meta)`. */
  datatype LogCall = LogCall(level: string, message: string, meta: map<string, MetaValue>)

  /** The property names the rest-destructuring of `info` takes out. */
  const Reserved: set<string> := {"timestamp", "level", "message"}

  /** The error objects a metadata object refers to. */
  function Objects(m: map<string, MetaValue>): set<ErrorObject>
  {
    set k | k in m && m[k].Ref? :: m[k].obj
  }

  /** The object under the key `error`, the only one the formatter changes. */
  function NestedError(m: map<string, MetaValue>): set<ErrorObject>
  {
    if "error" in m && m["error"].Ref? then {m["error"].obj} else {}
  }

  function Freeze(v: MetaValue): Json
    reads if v.Ref? then {v.obj} else {}
  {
    match v
    case Text(s) => JText(s)
    case Missing => JUndefined
    case NullValue => JNull
    case Ref(obj) => JError(obj.value, obj.stack)
  }

  /** The metadata as it stands in the current heap. */
  function Snapshot(m: map<string, MetaValue>): map<string, Json>
    reads Objects(m)
  {
    map k | k in m :: Freeze(m[k])
  }

  /** The metadata as it will stand once the objects in `gone` have lost
      their `stack`, read from the current heap. Keys that share one object
      all see the deletion. */
  function SnapshotWithout(m: map<string, MetaValue>, gone: set<ErrorObject>): map<string, Json>
    reads Objects(m)
  {
    map k | k in m :: if m[k].Ref? && m[k].obj in gone then JError(m[k].obj.value, None) else Freeze(m[k])
  }

  /** `const { timestamp, level, message, ...metadata } = info`. */
  function Metadata(info: map<string, MetaValue>): (metadata: map<string, MetaValue>)
    ensures metadata.Keys == info.Keys - {"timestamp", "level", "message"}
    ensures forall k :: k in metadata ==> metadata[k] == info[k]
  {
    info - Reserved
  }

  /** `delete filteredMetadata.stack` on the shallow copy. */
  function StripStack(m: map<string, MetaValue>): (r: map<string, MetaValue>)
    ensures r.Keys == m.Keys - {"stack"}
    ensures forall k :: k in r ==> r[k] == m[k]
  {
    m - {"stack"}
  }

  /** `"*".repeat(60)`. */
  function Separator(): (r: string)
    ensures |r| == 60 && forall i :: 0 <= i < 60 ==> r[i] == '*'
  {
    Repeat('*', 60)
  }

  /** The line after the separator. */
  function HeaderLine(timestamp: string, level: string, message: string): (r: string)
    ensures var t, l := |timestamp|, |level|;
            |r| == t + l + 3 + |message| && r[..t] == timestamp && r[t] == ' '
            && r[t + 1..t + 1 + l] == level && r[t + 1 + l..t + 3 + l] == ": " && r[t + 3 + l..] == message
  {
    timestamp + " " + level + ": " + message
  }

  /** The first two lines of every entry. */
  function Header(timestamp: string, level: string, message: string): (r: string)
    ensures var line := HeaderLine(timestamp, level, message);
            |r| == 61 + |line| && r[..60] == Separator() && r[60] == '\n' && r[61..] == line
  {
    Separator() + "\n" + HeaderLine(timestamp, level, message)
  }

  /** A whole entry: the header and, when the metadata had any key, the
      serialized metadata with every line prefixed by the timestamp. */
  function Entry(timestamp: string, level: string, message: string, hasMetadata: bool, serialized: string)
    : (r: string)
    ensures var header := Header(timestamp, level, message);
            |r| >= |header| && r[..|header|] == header
            && (!hasMetadata ==> |r| == |header|)
            && (hasMetadata ==> r[|header|..] == "\n" + PrefixLines(timestamp + " ", serialized))
  {
    Header(timestamp, level, message)
      + if hasMetadata then "\n" + PrefixLines(timestamp + " ", serialized) else ""
  }

  /** The `printf` callback. It copies the metadata shallowly, so deleting the
      nested error's `stack` changes the caller's error object itself. */
  method FormatEntry(timestamp: string, level: string, message: string,
                     info: map<string, MetaValue>, stringify: map<string, Json> -> string)
    returns (output: string)
    modifies NestedError(info)
    ensures output == Entry(timestamp, level, message, Metadata(info) != map[],
                            stringify(old(SnapshotWithout(StripStack(Metadata(info)), NestedError(info)))))
    ensures "error" in info && info["error"].Ref? ==> info["error"].obj.stack == None
  {
    var metadata := Metadata(info);
    var separator := Repeat('*', 60);
    output := separator + "\n" + timestamp + " " + level + ": " + message;
    assert output == Header(timestamp, level, message);
    assert NestedError(metadata) == NestedError(info);

    if |metadata| > 0 {
      var metadataStr := FilterAndSerialize(metadata, stringify);
      var body := PrefixLines(timestamp + " ", metadataStr);
      assert output + "\n" + body == output + ("\n" + body);
      output := output + "\n" + body;
    } else {
      assert metadata == map[];
      assert "error" !in metadata;
    }
  }

  /** The production branch of the callback: a shallow copy of the metadata
      without `stack`, the nested error's `stack` deleted, then `JSON.stringify`. */
  method FilterAndSerialize(metadata: map<string, MetaValue>, stringify: map<string, Json> -> string)
    returns (serialized: string)
    modifies NestedError(metadata)
    ensures serialized == stringify(old(SnapshotWithout(StripStack(metadata), NestedError(metadata))))
    ensures "error" in metadata && metadata["error"].Ref? ==> metadata["error"].obj.stack == None
  {
    var filteredMetadata := metadata;
    if IsProduction {
      filteredMetadata := filteredMetadata - {"stack"};
      assert NestedError(filteredMetadata) == NestedError(metadata);
      DeleteNestedStack(filteredMetadata);
    }
    serialized := stringify(Snapshot(filteredMetadata));
  }

  /** `delete filteredMetadata.error.stack` when `error` is an object. */
  method DeleteNestedStack(m: map<string, MetaValue>)
    modifies NestedError(m)
    ensures forall o :: o in NestedError(m) ==> o.stack == None
    ensures Snapshot(m) == old(SnapshotWithout(m, NestedError(m)))
  {
    if "error" in m && m["error"].Ref? {
      var error := m["error"].obj;
      error.stack := None;
    }
  }

  /** `timestamp`, `level`, `message` and the top-level `stack` never reach
      the serializer; every other key does. */
  lemma SerializedKeys(info: map<string, MetaValue>)
    ensures StripStack(Metadata(info)).Keys == info.Keys - {"timestamp", "level", "message", "stack"}
  {
  }

  /** Every entry starts with 60 `*`, a newline, then
      `timestamp + " " + level + ": " + message`. */
  lemma EntryStart(timestamp: string, level: string, message: string, hasMetadata: bool, serialized: string)
    ensures var e := Entry(timestamp, level, message, hasMetadata, serialized);
            var line := timestamp + " " + level + ": " + message;
            |e| >= 61 + |line|
            && (forall i :: 0 <= i < 60 ==> e[i] == '*')
            && e[60] == '\n'
            && e[61..61 + |line|] == line
  {
    var e := Entry(timestamp, level, message, hasMetadata, serialized);
    var header := Header(timestamp, level, message);
    var line := HeaderLine(timestamp, level, message);
    assert e[..|header|] == header;
    assert header[61..] == line;
  }

  /** Without metadata, an entry is its header and nothing more. */
  lemma EntryWithoutMetadata(timestamp: string, level: string, message: string, serialized: string)
    ensures Entry(timestamp, level, message, false, serialized) == Header(timestamp, level, message)
  {
    assert Header(timestamp, level, message) + "" == Header(timestamp, level, message);
  }

  /** Text before the first newline is the first line. */
  lemma FirstLine(a: string, b: string)
    requires '\n' !in a
    ensures Split(a + "\n" + b, '\n') == [a] + Split(b, '\n')
  {
    SplitAround(a, b, '\n');
    SplitNoSeparator(a, '\n');
  }

  lemma HeaderLineHasNoNewline(timestamp: string, level: string, message: string)
    requires '\n' !in timestamp && '\n' !in level && '\n' !in message
    ensures '\n' !in HeaderLine(timestamp, level, message)
  {
  }

  /** The serialized lines, each after the timestamp, contain no newline. */
  lemma PrefixedLinesHaveNoNewline(timestamp: string, serialized: string)
    requires '\n' !in timestamp
    ensures var lines := PrefixEach(timestamp + " ", Split(serialized, '\n'));
            forall i :: 0 <= i < |lines| ==> '\n' !in lines[i]
  {
    var lines := PrefixEach(timestamp + " ", Split(serialized, '\n'));
    forall i | 0 <= i < |lines| ensures '\n' !in lines[i] {
      assert lines[i] == timestamp + " " + Split(serialized, '\n')[i];
    }
  }

  /** The header splits into the separator and the header line. */
  lemma HeaderLines(timestamp: string, level: string, message: string, rest: string)
    requires '\n' !in timestamp && '\n' !in level && '\n' !in message
    ensures Split(Header(timestamp, level, message) + rest, '\n')
            == [Separator()] + Split(HeaderLine(timestamp, level, message) + rest, '\n')
  {
    var line := HeaderLine(timestamp, level, message);
    assert Header(timestamp, level, message) + rest == Separator() + "\n" + (line + rest);
    assert '\n' !in Separator();
    FirstLine(Separator(), line + rest);
  }

  /** Read line by line, an entry with metadata is the separator, the header
      line, and each serialized line after the timestamp. */
  lemma EntryLines(timestamp: string, level: string, message: string, serialized: string)
    requires '\n' !in timestamp && '\n' !in level && '\n' !in message
    ensures Split(Entry(timestamp, level, message, true, serialized), '\n')
            == [Separator(), timestamp + " " + level + ": " + message]
               + PrefixEach(timestamp + " ", Split(serialized, '\n'))
  {
    var line := HeaderLine(timestamp, level, message);
    var lines := PrefixEach(timestamp + " ", Split(serialized, '\n'));
    HeaderLineHasNoNewline(timestamp, level, message);
    PrefixedLinesHaveNoNewline(timestamp, serialized);
    assert Entry(timestamp, level, message, true, serialized)
           == Separator() + "\n" + line + "\n" + Join(lines, '\n');
    ThreeParts(Separator(), line, lines);
  }

  /** Two newline-free lines, then joined newline-free lines, split back into
      those lines. */
  lemma ThreeParts(first: string, second: string, lines: seq<string>)
    requires '\n' !in first && '\n' !in second && |lines| > 0
    requires forall i :: 0 <= i < |lines| ==> '\n' !in lines[i]
    ensures Split(first + "\n" + second + "\n" + Join(lines, '\n'), '\n') == [first, second] + lines
  {
    var body := Join(lines, '\n');
    SplitJoin(lines, '\n');
    FirstLine(second, body);
    assert first + "\n" + second + "\n" + body == first + "\n" + (second + "\n" + body);
    FirstLine(first, second + "\n" + body);
  }

  /** Without metadata an entry is exactly two lines. */
  lemma EntryLinesWithoutMetadata(timestamp: string, level: string, message: string, serialized: string)
    requires '\n' !in timestamp && '\n' !in level && '\n' !in message
    ensures Split(Entry(timestamp, level, message, false, serialized), '\n')
            == [Separator(), timestamp + " " + level + ": " + message]
  {
    var line := HeaderLine(timestamp, level, message);
    EntryWithoutMetadata(timestamp, level, message, serialized);
    HeaderLineHasNoNewline(timestamp, level, message);
    HeaderLines(timestamp, level, message, "");
    assert Header(timestamp, level, message) + "" == Header(timestamp, level, message);
    assert line + "" == line;
    SplitNoSeparator(line, '\n');
  }

  /** `logMessageFormatter(functionName, message)`. */
  function LogMessageFormatter(functionName: string, message: string): (r: string)
    ensures var n := |functionName|;
            |r| == n + 3 + |message| && r[0] == '[' && r[1..n + 1] == functionName
            && r[n + 1..n + 3] == "] " && r[n + 3..] == message
  {
    "[" + functionName + "] " + message
  }

  /** The first position of `c` in `s`. */
  function IndexOf(s: string, c: char): (r: Option<nat>)
    ensures r.None? ==> c !in s
    ensures r.Some? ==> r.value < |s| && s[r.value] == c && c !in s[..r.value]
  {
    if |s| == 0 then None
    else if s[0] == c then Some(0)
    else match IndexOf(s[1..], c)
      case None => None
      case Some(i) => Some(i + 1)
  }

  /** Reads a tagged message back into its function name and message: the
      inverse of `LogMessageFormatter` on names without `]`. */
  function ParseTagged(s: string): Option<(string, string)>
  {
    if |s| == 0 || s[0] != '[' then None
    else
      var rest := s[1..];
      match IndexOf(rest, ']')
      case None => None
      case Some(i) =>
        if i + 1 < |rest| && rest[i + 1] == ' ' then Some((rest[..i], rest[i + 2..])) else None
  }

  /** The first `c` is the one right after a stretch without `c`. */
  lemma {:induction false} IndexOfAfter(a: string, c: char, b: string)
    requires c !in a
    ensures IndexOf(a + [c] + b, c) == Some(|a|)
    decreases |a|
  {
    var s := a + [c] + b;
    if |a| > 0 {
      assert s[0] == a[0] && s[1..] == a[1..] + [c] + b;
      assert c !in a[1..] by {
        forall i | 0 <= i < |a[1..]| ensures a[1..][i] != c {
          assert a[1..][i] == a[i + 1];
        }
      }
      IndexOfAfter(a[1..], c, b);
    }
  }

  lemma TaggedRoundTrip(functionName: string, message: string)
    requires ']' !in functionName
    ensures ParseTagged(LogMessageFormatter(functionName, message)) == Some((functionName, message))
  {
    var s := LogMessageFormatter(functionName, message);
    var rest := s[1..];
    assert rest == functionName + [']'] + (" " + message);
    IndexOfAfter(functionName, ']', " " + message);
    assert rest[..|functionName|] == functionName;
    assert rest[|functionName| + 2..] == message;
  }

  lemma ParsedIsFormatted(s: string, functionName: string, message: string)
    requires ParseTagged(s) == Some((functionName, message))
    ensures ']' !in functionName
    ensures LogMessageFormatter(functionName, message) == s
  {
    var rest := s[1..];
    var i := IndexOf(rest, ']').value;
    assert s[0] == '[' && i + 1 < |rest| && rest[i] == ']' && rest[i + 1] == ' ';
    assert functionName == rest[..i] && message == rest[i + 2..];
    Reassemble(s, i);
  }

  /** A text cut after its first character and around two characters at `i`. */
  lemma Reassemble(s: string, i: nat)
    requires i + 3 <= |s|
    ensures s == [s[0]] + s[1..][..i] + [s[i + 1], s[i + 2]] + s[1..][i + 2..]
  {
    var rest := s[1..];
    assert rest == rest[..i] + [rest[i], rest[i + 1]] + rest[i + 2..];
    assert s == [s[0]] + rest;
  }

  /** The `info` object winston hands to the formats for `logger.<level>(message, meta)`:
      the metadata's properties with `level`, `message` and `timestamp` set. Those
      are exactly the keys the formatter takes out again. */
  function Info(meta: map<string, MetaValue>, level: string, message: string, timestamp: string)
    : (info: map<string, MetaValue>)
    ensures Metadata(info) == Metadata(meta) && NestedError(info) == NestedError(meta)
  {
    meta["level" := Text(level)]["message" := Text(message)]["timestamp" := Text(timestamp)]
  }

  /** The application logger. `written` holds the formatted entries handed to
      the transports. */
  class Logger {
    const stringify: map<string, Json> -> string
    const colorize: (string, string) -> string
    var calls: seq<LogCall>
    var written: seq<string>

    constructor (stringify: map<string, Json> -> string, colorize: (string, string) -> string)
      ensures this.stringify == stringify && this.colorize == colorize
      ensures calls == [] && written == []
    {
      this.stringify := stringify;
      this.colorize := colorize;
      calls := [];
      written := [];
    }

    /** `logger.error(message, meta)`, formatted at `timestamp`. */
    method Error(message: string, meta: map<string, MetaValue>, timestamp: string)
      modifies this, NestedError(meta)
      ensures calls == old(calls) + [LogCall("error", message, meta)]
      ensures written == old(written) + [old(EntryOf(message, meta, timestamp, stringify, colorize))]
      ensures "error" in meta && meta["error"].Ref? ==> meta["error"].obj.stack == None
    {
      var line := ApplyFormat(message, meta, timestamp, stringify, colorize);
      calls := calls + [LogCall("error", message, meta)];
      written := written + [line];
    }
  }

  /** The entry the logger's format produces for an `error` call, read from the
      heap as it stands before the call. */
  function EntryOf(message: string, meta: map<string, MetaValue>, timestamp: string,
                   stringify: map<string, Json> -> string, colorize: (string, string) -> string): string
    reads Objects(meta)
  {
    Entry(timestamp, colorize("error", "error"), colorize("error", message), Metadata(meta) != map[],
          stringify(SnapshotWithout(StripStack(Metadata(meta)), NestedError(meta))))
  }

  /** The logger's `format`: winston builds `info` from the call, the
      timestamp and colorize steps fill in `timestamp` and colour `level` and
      `message`, then `printf` runs. */
  method ApplyFormat(message: string, meta: map<string, MetaValue>, timestamp: string,
                stringify: map<string, Json> -> string, colorize: (string, string) -> string)
    returns (line: string)
    modifies NestedError(meta)
    ensures line == old(EntryOf(message, meta, timestamp, stringify, colorize))
    ensures "error" in meta && meta["error"].Ref? ==> meta["error"].obj.stack == None
  {
    var level := colorize("error", "error");
    var text := colorize("error", message);
    var info := Info(meta, level, text, timestamp);
    line := FormatEntry(timestamp, level, text, info, stringify);
  }
}
