/**
  The logger of clog.go: a `Clog` object holding its threshold, its output
  writer, a flag that hides the call site and a context formatter, with the
  setters that change them and the leveled calls that filter on the threshold
  and write one line to the output.
 */
module Logger {
  import opened Wrappers
  import opened Levels
  import opened Format

  /** An `io.Writer` that accepts every write; `written` is what it received,
      one element per write. */
  class Writer {
    var written: seq<string>

    constructor ()
      ensures written == []
    {
      written := [];
    }

    method Write(p: string)
      modifies this
      ensures written == old(written) + [p]
    {
      written := written + [p];
    }
  }

  /** `fmt.Fprintln(w, line)`: one write of the line and a newline. */
  method Fprintln(w: Writer, line: string)
    modifies w
    ensures w.written == old(w.written) + [line + "\n"]
  {
    w.Write(line + "\n");
  }

  /** The short-file loop of `formatOutput`: walks back from the last character
      and keeps what follows the first '/' it meets, stopping before index 0. */
  method ShortFileName(file: string) returns (short: string)
    ensures short == ShortFile(file)
  {
    short := file;
    var i := |file| - 1;
    while i > 0
      invariant -1 <= i < |file|
      invariant short == file
      invariant forall j :: i < j < |file| ==> file[j] != '/'
    {
      if file[i] == '/' {
        ShortFileAfterLastSlash(file, i);
        short := file[i + 1..];
        return;
      }
      i := i - 1;
    }
    ShortFileKeepsPath(file);
  }

  /** `Clog`. `Ctx` stands for `context.Context`, which the logger only hands
      to its formatter. */
  class Clog<Ctx> {
    var threshold: Level        // the exported field `Level`
    var output: Writer
    var hideCallstack: bool
    var ctxFmt: Ctx -> string
    /** How many times a leveled call has asked `ctxFmt` for a tag. */
    ghost var formatterCalls: nat

    /** `NewClog`: the package's global level, the given standard output, the
        call site shown, and a formatter answering "-" to every context. */
    constructor (globalLogLevel: Level, stdout: Writer)
      ensures threshold == globalLogLevel && output == stdout && !hideCallstack
      ensures forall c :: ctxFmt(c) == "-"
      ensures formatterCalls == 0
    {
      threshold := globalLogLevel;
      output := stdout;
      hideCallstack := false;
      ctxFmt := (c: Ctx) => "-";
      formatterCalls := 0;
    }

    /** `level()`: the current threshold. */
    method CurrentLevel() returns (l: Level)
      ensures l == threshold
    {
      l := threshold;
    }

    method SetLevel(l: Level)
      modifies this`threshold
      ensures threshold == l
    {
      threshold := l;
    }

    /** Unrecognised text sets Info. */
    method SetLevelByString(s: string)
      modifies this`threshold
      ensures threshold == StringToLevel(s)
    {
      SetLevel(StringToLevel(s));
    }

    /** `SetContextFommatter`. */
    method SetContextFormatter(f: Ctx -> string)
      modifies this`ctxFmt
      ensures ctxFmt == f
    {
      ctxFmt := f;
    }

    method SetOutput(w: Writer) returns (self: Clog<Ctx>)
      modifies this`output
      ensures output == w && self == this
    {
      output := w;
      self := this;
    }

    method HideCallstack() returns (self: Clog<Ctx>)
      modifies this`hideCallstack
      ensures hideCallstack && self == this
    {
      hideCallstack := true;
      self := this;
    }

    /** The `formatOutput` method, reading the logger's own `hideCallstack`. */
    method FormatOutputLine(level: Level, ctxInfo: string, msg: string, now: string,
                            caller: Option<Location>) returns (line: string)
      ensures line == FormatOutput(level, hideCallstack, ctxInfo, msg, now, caller)
    {
      var escaped := Escape(msg);
      var head := FieldLine(Pad(now, TimestampWidth), Pad(LevelField(level), LevelWidth), ctxInfo, escaped);
      if hideCallstack {
        FormatAsLayout(level, true, ctxInfo, msg, now, caller);
        return head;
      }
      var loc := ResolveCaller(caller);
      var file := ShortFileName(loc.file);
      var suffix := " (" + file + ":" + Decimal(loc.line) + ")";
      line := head + suffix;
      FormatAsLayout(level, false, ctxInfo, msg, now, caller);
    }

    /** `Log`: writes the record whatever the threshold, with the tag as given. */
    method Log(level: Level, ctxInfo: string, msg: string, now: string, caller: Option<Location>)
      modifies output
      ensures output.written
           == old(output.written) + [FormatOutput(level, hideCallstack, ctxInfo, msg, now, caller) + "\n"]
    {
      var line := FormatOutputLine(level, ctxInfo, msg, now, caller);
      Fprintln(output, line);
    }

    /** `Logf`, for a message the format verbs have already been applied to. */
    method Logf(level: Level, ctxInfo: string, msg: string, now: string, caller: Option<Location>)
      modifies output
      ensures output.written
           == old(output.written) + [FormatOutput(level, hideCallstack, ctxInfo, msg, now, caller) + "\n"]
    {
      Log(level, ctxInfo, msg, now, caller);
    }

    /** `levelContextLog`: when the threshold admits `level`, asks the formatter
        for the tag and writes one record; otherwise does nothing at all. */
    method LevelContextLog(ctx: Ctx, level: Level, msg: string, now: string, caller: Option<Location>)
      modifies output, this`formatterCalls
      ensures Enabled(threshold, level) ==>
        output.written
          == old(output.written) + [FormatOutput(level, hideCallstack, ctxFmt(ctx), msg, now, caller) + "\n"]
        && formatterCalls == old(formatterCalls) + 1
      ensures !Enabled(threshold, level) ==>
        output.written == old(output.written) && formatterCalls == old(formatterCalls)
    {
      var current := CurrentLevel();
      if current < level {
        return;
      }
      var ctxInfo := ctxFmt(ctx);
      formatterCalls := formatterCalls + 1;
      var line := FormatOutputLine(level, ctxInfo, msg, now, caller);
      ghost var before := output.written;
      Fprintln(output, line);
      assert output.written == before + [line + "\n"];
      assert line == FormatOutput(level, hideCallstack, ctxFmt(ctx), msg, now, caller);
    }

    method Debug(ctx: Ctx, msg: string, now: string, caller: Option<Location>)
      modifies output, this`formatterCalls
      ensures Enabled(threshold, DebugLevel) ==>
        output.written
          == old(output.written) + [FormatOutput(DebugLevel, hideCallstack, ctxFmt(ctx), msg, now, caller) + "\n"]
        && formatterCalls == old(formatterCalls) + 1
      ensures !Enabled(threshold, DebugLevel) ==>
        output.written == old(output.written) && formatterCalls == old(formatterCalls)
    {
      LevelContextLog(ctx, DebugLevel, msg, now, caller);
    }

    method Info(ctx: Ctx, msg: string, now: string, caller: Option<Location>)
      modifies output, this`formatterCalls
      ensures Enabled(threshold, InfoLevel) ==>
        output.written
          == old(output.written) + [FormatOutput(InfoLevel, hideCallstack, ctxFmt(ctx), msg, now, caller) + "\n"]
        && formatterCalls == old(formatterCalls) + 1
      ensures !Enabled(threshold, InfoLevel) ==>
        output.written == old(output.written) && formatterCalls == old(formatterCalls)
    {
      LevelContextLog(ctx, InfoLevel, msg, now, caller);
    }

    method Warn(ctx: Ctx, msg: string, now: string, caller: Option<Location>)
      modifies output, this`formatterCalls
      ensures Enabled(threshold, WarnLevel) ==>
        output.written
          == old(output.written) + [FormatOutput(WarnLevel, hideCallstack, ctxFmt(ctx), msg, now, caller) + "\n"]
        && formatterCalls == old(formatterCalls) + 1
      ensures !Enabled(threshold, WarnLevel) ==>
        output.written == old(output.written) && formatterCalls == old(formatterCalls)
    {
      LevelContextLog(ctx, WarnLevel, msg, now, caller);
    }

    method Error(ctx: Ctx, msg: string, now: string, caller: Option<Location>)
      modifies output, this`formatterCalls
      ensures Enabled(threshold, ErrorLevel) ==>
        output.written
          == old(output.written) + [FormatOutput(ErrorLevel, hideCallstack, ctxFmt(ctx), msg, now, caller) + "\n"]
        && formatterCalls == old(formatterCalls) + 1
      ensures !Enabled(threshold, ErrorLevel) ==>
        output.written == old(output.written) && formatterCalls == old(formatterCalls)
    {
      LevelContextLog(ctx, ErrorLevel, msg, now, caller);
    }

    /** `Fatal` logs at severity 0, which every threshold admits; it does not
        stop the program. */
    method Fatal(ctx: Ctx, msg: string, now: string, caller: Option<Location>)
      modifies output, this`formatterCalls
      ensures output.written
           == old(output.written) + [FormatOutput(FatalLevel, hideCallstack, ctxFmt(ctx), msg, now, caller) + "\n"]
      ensures formatterCalls == old(formatterCalls) + 1
    {
      LevelContextLog(ctx, FatalLevel, msg, now, caller);
    }
  }

  /** At the default level a Debug record is dropped and an Info record is
      written, tagged "-" by the default formatter. */
  method DefaultLevelScenario(ignored: string, visible: string, now: string, caller: Option<Location>)
    returns (afterDebug: seq<string>, afterInfo: seq<string>)
    ensures afterDebug == []
    ensures afterInfo == [FormatOutput(InfoLevel, false, "-", visible, now, caller) + "\n"]
  {
    var stdout := new Writer();
    var buf := new Writer();
    var log := new Clog<int>(InitialGlobalLevel, stdout);
    var same := log.SetOutput(buf);
    assert log.ctxFmt(0) == "-" && !log.hideCallstack && buf.written == [];

    log.Debug(0, ignored, now, caller);
    afterDebug := buf.written;
    assert log.ctxFmt(0) == "-" && !log.hideCallstack && afterDebug == [];

    log.Info(0, visible, now, caller);
    assert log.ctxFmt(0) == "-" && !log.hideCallstack;
    afterInfo := buf.written;
  }

  /** After `SetLevelByString("debug")` Debug records are written. */
  method DebugLevelScenario(visible: string, now: string, caller: Option<Location>)
    returns (written: seq<string>)
    ensures written == [FormatOutput(DebugLevel, false, "-", visible, now, caller) + "\n"]
  {
    var stdout := new Writer();
    var buf := new Writer();
    var log := new Clog<int>(InitialGlobalLevel, stdout);
    var same := log.SetOutput(buf);

    log.SetLevelByString("debug");
    assert log.threshold == DebugLevel;
    assert log.ctxFmt(0) == "-" && !log.hideCallstack && buf.written == [];
    log.Debug(0, visible, now, caller);
    assert log.ctxFmt(0) == "-" && !log.hideCallstack;
    written := buf.written;
  }

  /** `Logf` writes whatever the threshold, with the tag it was given. */
  method LogfScenario(tag: string, msg: string, now: string, caller: Option<Location>)
    returns (written: seq<string>)
    ensures written == [FormatOutput(InfoLevel, false, tag, msg, now, caller) + "\n"]
  {
    var stdout := new Writer();
    var buf := new Writer();
    var log := new Clog<int>(InitialGlobalLevel, stdout);
    var same := log.SetOutput(buf);

    log.SetLevel(FatalLevel);
    assert !log.hideCallstack && buf.written == [];
    log.Logf(InfoLevel, tag, msg, now, caller);
    assert !log.hideCallstack;
    written := buf.written;
  }

  /** A logger with the call stack hidden writes a WARN line that ends with
      the message and has no location. The test builds this logger after the
      global level was set to Debug; Warn passes both Info and Debug, so the
      record is the same at either. */
  method HiddenCallstackScenario(content: string, now: string, caller: Option<Location>)
    returns (written: seq<string>)
    ensures written == [FormatOutput(WarnLevel, true, "-", content, now, caller) + "\n"]
  {
    var stdout := new Writer();
    var buf := new Writer();
    var log := new Clog<int>(InitialGlobalLevel, stdout);
    var same := log.SetOutput(buf);
    same := log.HideCallstack();
    assert log.ctxFmt(0) == "-" && log.hideCallstack && buf.written == [];

    log.Warn(0, content, now, caller);
    assert log.ctxFmt(0) == "-" && log.hideCallstack;
    written := buf.written;
  }
}
