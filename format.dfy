/**
  The record formatter (format.go's `formatOutput` and its `replacer`): the
  line `<timestamp:25> <LEVEL:5> [<tag>] <message>` followed, unless the call
  stack is hidden, by ` (<file>:<line>)`. The clock reading and the caller
  lookup are inputs; Go's `Sprintf` verbs, `ToUpper` and the rune-counting
  field widths are written out below.
 */
module Format {
  import opened Wrappers
  import opened Levels

  // ---------------------------------------------------------------------
  // Escaping: strings.NewReplacer("\r", "\\r", "\n", "\\n")
  // ---------------------------------------------------------------------

  predicate IsLineBreak(c: char)
  {
    c == '\r' || c == '\n'
  }

  predicate NoLineBreak(s: string)
  {
    '\r' !in s && '\n' !in s
  }

  function CountLineBreaks(s: string): (n: nat)
    ensures n <= |s|
    ensures n == 0 <==> NoLineBreak(s)
  {
    if s == [] then 0
    else (if IsLineBreak(s[0]) then 1 else 0) + CountLineBreaks(s[1..])
  }

  /** What the replacer writes for one character. */
  function EscapeChar(c: char): (r: string)
  {
    if c == '\r' then "\\r"
    else if c == '\n' then "\\n"
    else [c]
  }

  /** `replacer.Replace`: each CR becomes backslash-r, each LF backslash-n. */
  function Escape(s: string): (r: string)
    ensures NoLineBreak(r)
  {
    if s == [] then []
    else EscapeChar(s[0]) + Escape(s[1..])
  }

  /** Each CR and LF grows the text by one character; nothing else changes length. */
  lemma {:induction false} EscapeLength(s: string)
    ensures |Escape(s)| == |s| + CountLineBreaks(s)
    ensures |Escape(s)| >= |s|
  {
    if s != [] {
      EscapeLength(s[1..]);
    }
  }

  /** Escaping works character by character. */
  lemma {:induction false} EscapeAppend(a: string, b: string)
    ensures Escape(a + b) == Escape(a) + Escape(b)
  {
    if a == [] {
      assert a + b == b;
    } else {
      assert (a + b)[1..] == a[1..] + b;
      EscapeAppend(a[1..], b);
    }
  }

  /** Strings without CR or LF are left as they are. */
  lemma {:induction false} EscapeIdentity(s: string)
    requires NoLineBreak(s)
    ensures Escape(s) == s
  {
    if s != [] {
      EscapeIdentity(s[1..]);
    }
  }

  /** The replacement of a one-character string, the unit of `EscapeAppend`. */
  lemma EscapeSingle(c: char)
    ensures Escape([c]) == EscapeChar(c)
    ensures c == '\r' ==> Escape([c]) == ['\\', 'r']
    ensures c == '\n' ==> Escape([c]) == ['\\', 'n']
    ensures !IsLineBreak(c) ==> Escape([c]) == [c]
  {
    assert [c][1..] == [];
  }

  /** Escaping an already escaped string changes nothing. */
  lemma EscapeIdempotent(s: string)
    ensures Escape(Escape(s)) == Escape(s)
  {
    EscapeIdentity(Escape(s));
  }

  /** A raw LF and the two characters backslash-n escape alike. */
  lemma EscapeNotInjective()
    ensures Escape("\n") == Escape("\\n") == "\\n"
  {
    EscapeSingle('\n');
    assert "\\n" == ['\\'] + ['n'];
    EscapeAppend(['\\'], ['n']);
    EscapeSingle('\\');
    EscapeSingle('n');
  }

  /** A line break between two pieces becomes its two-character spelling. */
  lemma EscapeAround(a: string, c: char, b: string)
    requires NoLineBreak(a) && IsLineBreak(c)
    ensures Escape(a + [c] + b) == a + EscapeChar(c) + Escape(b)
  {
    EscapeAppend(a + [c], b);
    EscapeAppend(a, [c]);
    EscapeSingle(c);
    EscapeIdentity(a);
  }

  /** A message with embedded breaks stays on one line, the breaks spelled out:
      `line1\nline2\rline3` becomes `line1`, backslash-n, `line2`, backslash-r, `line3`. */
  lemma EscapeMessageWithBreaks(l1: string, l2: string, l3: string)
    requires NoLineBreak(l1) && NoLineBreak(l2) && NoLineBreak(l3)
    ensures Escape(l1 + "\n" + l2 + "\r" + l3) == l1 + "\\n" + l2 + "\\r" + l3
  {
    var lf, cr := "\n", "\r";
    EscapeSingle('\n');
    EscapeSingle('\r');
    EscapeIdentity(l1);
    EscapeIdentity(l2);
    EscapeIdentity(l3);
    EscapeAppend(l1 + lf + l2 + cr, l3);
    EscapeAppend(l1 + lf + l2, cr);
    EscapeAppend(l1 + lf, l2);
    EscapeAppend(l1, lf);
  }

  /** The replacer test: a text of lines becomes one line, `\nx\ny\nz\n` giving
      backslash-n, x, backslash-n, y, backslash-n, z, backslash-n. */
  lemma EscapeLines(x: string, y: string, z: string)
    requires NoLineBreak(x) && NoLineBreak(y) && NoLineBreak(z)
    ensures Escape("\n" + x + "\n" + y + "\n" + z + "\n")
         == "\\n" + x + "\\n" + y + "\\n" + z + "\\n"
  {
    var lf := "\n";
    EscapeSingle('\n');
    EscapeIdentity(x);
    EscapeIdentity(y);
    EscapeIdentity(z);
    EscapeAppend(lf + x + lf + y + lf + z, lf);
    EscapeAppend(lf + x + lf + y + lf, z);
    EscapeAppend(lf + x + lf + y, lf);
    EscapeAppend(lf + x + lf, y);
    EscapeAppend(lf + x, lf);
    EscapeAppend(lf, x);
  }

  // ---------------------------------------------------------------------
  // strings.ToUpper on the level names, and left-justified padding (`%-Ns`)
  // ---------------------------------------------------------------------

  function UpperChar(c: char): char
  {
    if 'a' <= c <= 'z' then (c as int - 'a' as int + 'A' as int) as char else c
  }

  /** Upper-casing of ASCII letters; other characters are kept. */
  function Upper(s: string): (r: string)
    ensures |r| == |s|
    ensures forall i :: 0 <= i < |s| ==> r[i] == UpperChar(s[i])
  {
    if s == [] then [] else [UpperChar(s[0])] + Upper(s[1..])
  }

  /** `Upper` is determined character by character. */
  lemma UpperWord(s: string, t: string)
    requires |s| == |t|
    requires forall i :: 0 <= i < |s| ==> UpperChar(s[i]) == t[i]
    ensures Upper(s) == t
  {
  }

  /** The level column's text, one of FATAL, ERROR, WARN, INFO, DEBUG and
      UNKNOWN: the five named levels fit the column's width. */
  function LevelField(l: Level): (f: string)
    ensures IsNamed(l) ==> 4 <= |f| <= LevelWidth
    ensures !IsNamed(l) ==> f == "UNKNOWN"
    ensures NoLineBreak(f)
  {
    if l == DebugLevel then "DEBUG"
    else if l == InfoLevel then "INFO"
    else if l == WarnLevel then "WARN"
    else if l == ErrorLevel then "ERROR"
    else if l == FatalLevel then "FATAL"
    else "UNKNOWN"
  }

  /** The level column is `strings.ToUpper(level.String())`. */
  lemma LevelFieldIsUpper(l: Level)
    ensures LevelField(l) == Upper(LevelString(l))
  {
    var name := LevelString(l);
    UpperWord(name, LevelField(l));
  }

  function Spaces(n: nat): (r: string)
    ensures |r| == n
    ensures forall i :: 0 <= i < n ==> r[i] == ' '
    ensures NoLineBreak(r)
  {
    if n == 0 then [] else [' '] + Spaces(n - 1)
  }

  /** `%-<width>s`: right-filled with spaces up to `width` characters, never cut. */
  function Pad(s: string, width: nat): (r: string)
    ensures |r| == if |s| < width then width else |s|
    ensures r[..|s|] == s
    ensures forall i :: |s| <= i < |r| ==> r[i] == ' '
    ensures NoLineBreak(s) ==> NoLineBreak(r)
  {
    if |s| < width then s + Spaces(width - |s|) else s
  }

  // ---------------------------------------------------------------------
  // `%d`
  // ---------------------------------------------------------------------

  predicate IsDigit(c: char)
  {
    '0' <= c <= '9'
  }

  predicate AllDigits(s: string)
  {
    forall i :: 0 <= i < |s| ==> IsDigit(s[i])
  }

  function DigitChar(d: nat): (c: char)
    requires d < 10
    ensures IsDigit(c) && c as int - '0' as int == d
  {
    ('0' as int + d) as char
  }

  /** The decimal digits of `n`, most significant first, no leading zero. */
  function Digits(n: nat): (r: string)
    ensures 1 <= |r|
  {
    if n < 10 then [DigitChar(n)] else Digits(n / 10) + [DigitChar(n % 10)]
  }

  /** The digits are decimal digits, without a leading zero. */
  lemma {:induction false} DigitsWellFormed(n: nat)
    ensures AllDigits(Digits(n))
    ensures |Digits(n)| > 1 ==> Digits(n)[0] != '0'
  {
    if n >= 10 {
      DigitsWellFormed(n / 10);
      var r := Digits(n);
      assert r[..|r| - 1] == Digits(n / 10);
      assert r[0] == Digits(n / 10)[0];
    }
  }

  /** The number a string of digits denotes. */
  function DigitsValue(s: string): nat
    requires AllDigits(s)
  {
    if s == [] then 0
    else 10 * DigitsValue(s[..|s| - 1]) + (s[|s| - 1] as int - '0' as int)
  }

  /** Reading the digits back gives the number. */
  lemma {:induction false} DigitsRoundTrip(n: nat)
    ensures AllDigits(Digits(n)) && DigitsValue(Digits(n)) == n
  {
    DigitsWellFormed(n);
    if n >= 10 {
      DigitsWellFormed(n / 10);
      var r := Digits(n);
      assert r[..|r| - 1] == Digits(n / 10);
      DigitsRoundTrip(n / 10);
    }
  }

  /** `%d` of a Go `int`: a minus sign for a negative number, then the digits. */
  function Decimal(n: int): (r: string)
    ensures 1 <= |r|
  {
    if n < 0 then "-" + Digits(-n) else Digits(n)
  }

  /** A string of digits has no line break. */
  lemma DigitsNoLineBreak(s: string)
    requires AllDigits(s)
    ensures NoLineBreak(s)
  {
  }

  /** Reading `%d` back gives the number, for both signs. */
  lemma DecimalRoundTrip(n: int)
    ensures var r := Decimal(n);
      && (n >= 0 ==> AllDigits(r) && DigitsValue(r) == n)
      && (n < 0 ==> r[0] == '-' && AllDigits(r[1..]) && DigitsValue(r[1..]) == -n)
      && NoLineBreak(r)
  {
    var r := Decimal(n);
    if n < 0 {
      var d := Digits(-n);
      DigitsRoundTrip(-n);
      DigitsNoLineBreak(d);
      assert r == "-" + d;
      assert r[1..] == d;
      JoinNoLineBreak("-", d);
    } else {
      DigitsRoundTrip(n);
      DigitsNoLineBreak(r);
    }
  }

  // ---------------------------------------------------------------------
  // The call site
  // ---------------------------------------------------------------------

  /** What `runtime.Caller` reports when it succeeds. */
  datatype Location = Location(file: string, line: int)

  /** The location a failed lookup is replaced with. */
  const UnknownLocation: Location := Location("???", 0)

  /** The location used in the line: the caller's, or `???:0` when the lookup failed. */
  function ResolveCaller(caller: Option<Location>): (loc: Location)
    ensures caller.Some? ==> loc == caller.value
    ensures caller.None? ==> loc.file == "???" && loc.line == 0
  {
    caller.GetOr(UnknownLocation)
  }

  /** The index of the last '/' at a position of at least 1, or 0 when there is
      none: the position clog.go's short-file loop stops at. */
  function LastSlash(file: string): (k: nat)
    ensures k == 0 || (k < |file| && file[k] == '/')
  {
    if |file| <= 1 then 0
    else if file[|file| - 1] == '/' then |file| - 1
    else LastSlash(file[..|file| - 1])
  }

  /** No '/' follows the one `LastSlash` finds. */
  lemma {:induction false} LastSlashIsLast(file: string)
    ensures forall j :: LastSlash(file) < j < |file| ==> file[j] != '/'
  {
    if |file| > 1 && file[|file| - 1] != '/' {
      var prefix := file[..|file| - 1];
      LastSlashIsLast(prefix);
      assert forall j :: 0 <= j < |prefix| ==> prefix[j] == file[j];
    }
  }

  /** The file name shown in the line: what follows the last '/' beyond the
      first character, or the whole path when there is no such '/'. */
  function ShortFile(file: string): (r: string)
    ensures |r| <= |file| && r == file[|file| - |r|..]
  {
    var k := LastSlash(file);
    if k == 0 then file else file[k + 1..]
  }

  /** The short name holds no '/' past its first character, and none at all
      when the path was shortened. */
  lemma ShortFileNoSlash(file: string)
    ensures var r := ShortFile(file);
      && (forall i :: 1 <= i < |r| ==> r[i] != '/')
      && (r != file ==> forall i :: 0 <= i < |r| ==> r[i] != '/')
  {
    LastSlashIsLast(file);
  }

  /** With a '/' at some index of at least 1, the name is what follows the last
      one, and holds no '/'. */
  lemma ShortFileAfterLastSlash(file: string, k: nat)
    requires 1 <= k < |file| && file[k] == '/'
    requires forall j :: k < j < |file| ==> file[j] != '/'
    ensures ShortFile(file) == file[k + 1..]
    ensures forall i :: 0 <= i < |ShortFile(file)| ==> ShortFile(file)[i] != '/'
  {
    LastSlashIsLast(file);
  }

  /** Without a '/' past the first character the path is kept, a lone leading
      '/' included. */
  lemma ShortFileKeepsPath(file: string)
    requires forall j :: 1 <= j < |file| ==> file[j] != '/'
    ensures ShortFile(file) == file
  {
    LastSlashIsLast(file);
  }

  lemma ShortFileExamples()
    ensures ShortFile("/home/u/app/main.go") == "main.go"
    ensures ShortFile("/main.go") == "/main.go"
    ensures ShortFile("???") == "???"
    ensures ShortFile("") == ""
  {
    ShortFileAfterLastSlash("/home/u/app/main.go", 11);
    ShortFileKeepsPath("/main.go");
    ShortFileKeepsPath("???");
  }

  // ---------------------------------------------------------------------
  // The line
  // ---------------------------------------------------------------------

  const TimestampWidth: nat := 25
  const LevelWidth: nat := 5

  /** `"%s %s [%s] %s"`: the four columns joined by the layout's separators. */
  function FieldLine(ts: string, lf: string, tag: string, text: string): string
  {
    ts + " " + lf + " [" + tag + "] " + text
  }

  /** `"%-25s %-5s [%s] %s"` applied to four strings. */
  function Layout(now: string, field: string, tag: string, text: string): string
  {
    FieldLine(Pad(now, TimestampWidth), Pad(field, LevelWidth), tag, text)
  }

  /** The offset at which the level column starts. */
  function LevelColumn(now: string): nat
  {
    |Pad(now, TimestampWidth)| + 1
  }

  /** The offset at which the message starts. */
  function MessageColumn(now: string, field: string, tag: string): nat
  {
    LevelColumn(now) + |Pad(field, LevelWidth)| + 4 + |tag|
  }

  /** The text between two known pieces of a concatenation. */
  lemma MiddleOf(p: string, x: string, q: string)
    ensures (p + x + q)[|p|..|p| + |x|] == x
  {
    assert (p + x + q)[..|p + x|] == p + x;
  }

  lemma PrefixOf(p: string, q: string, n: nat)
    requires n <= |p|
    ensures (p + q)[..n] == p[..n]
  {
  }

  /** Where each column of a joined line sits, whatever follows it. */
  lemma FieldColumns(ts: string, lf: string, tag: string, text: string, rest: string)
    ensures var line := FieldLine(ts, lf, tag, text) + rest;
      var lc := |ts| + 1;
      var mc := lc + |lf| + 4 + |tag|;
      && |line| == mc + |text| + |rest|
      && line[..|ts|] == ts
      && line[|ts|] == ' '
      && line[lc..lc + |lf|] == lf
      && line[mc - |tag| - 4..mc] == " [" + tag + "] "
      && line[mc..mc + |text|] == text
  {
    var line := FieldLine(ts, lf, tag, text) + rest;
    var p1 := ts + " ";
    var p2 := p1 + lf;
    var p3 := p2 + " [" + tag + "] ";
    var p4 := p3 + text;
    assert line == p4 + rest;
    PrefixOf(p4, rest, |p2|);
    PrefixOf(p3, text, |p2|);
    PrefixOf(p2, " [" + tag + "] ", |p2|);
    assert line[..|p2|] == p2;
    MiddleOf(p1, lf, line[|p2|..]);
    assert line == p1 + lf + line[|p2|..];
  }

  /** The first two fields of a laid-out line: the timestamp and the level
      name in full at the start of their columns, whatever follows them. */
  lemma LayoutLevelColumns(now: string, field: string, tag: string, text: string, rest: string)
    ensures var line := Layout(now, field, tag, text) + rest;
      var lc := LevelColumn(now);
      && lc + |field| <= |line|
      && line[..|now|] == now
      && line[lc - 1] == ' '
      && line[lc..lc + |field|] == field
  {
    var ts := Pad(now, TimestampWidth);
    var lf := Pad(field, LevelWidth);
    var line := Layout(now, field, tag, text) + rest;
    FieldColumns(ts, lf, tag, text, rest);
    var lc := LevelColumn(now);
    assert line[..|now|] == line[..|ts|][..|now|];
    assert line[lc..lc + |field|] == line[lc..lc + |lf|][..|field|];
  }

  /** The last two fields of a laid-out line: the bracketed tag and the text,
      which starts at least 35 characters plus the tag's length in. */
  lemma LayoutMessageColumns(now: string, field: string, tag: string, text: string, rest: string)
    ensures var line := Layout(now, field, tag, text) + rest;
      var mc := MessageColumn(now, field, tag);
      && |line| == mc + |text| + |rest|
      && mc >= TimestampWidth + LevelWidth + 5 + |tag|
      && line[mc - |tag| - 4..mc] == " [" + tag + "] "
      && line[mc..mc + |text|] == text
  {
    FieldColumns(Pad(now, TimestampWidth), Pad(field, LevelWidth), tag, text, rest);
  }

  /** `" (%s:%d)"` for the shortened file and the line number. */
  function LocationSuffix(loc: Location): string
  {
    " (" + ShortFile(loc.file) + ":" + Decimal(loc.line) + ")"
  }

  /** `formatOutput`: the record for one call. `now` is the formatted clock
      reading and `caller` the result of the stack lookup, which is used only
      when the call stack is shown. */
  function FormatOutput(level: Level, hideCallstack: bool, ctxInfo: string, msg: string,
                        now: string, caller: Option<Location>): string
  {
    var head := Layout(now, LevelField(level), ctxInfo, Escape(msg));
    if hideCallstack then head else head + LocationSuffix(ResolveCaller(caller))
  }

  /** The record is at least as wide as its minimum columns and the message,
      starts with the timestamp, and ends with the escaped message when the
      call stack is hidden or with the closing parenthesis of ` (file:line)`
      when it is shown. */
  lemma FormatOutputShape(level: Level, hideCallstack: bool, ctxInfo: string, msg: string,
                          now: string, caller: Option<Location>)
    ensures var line := FormatOutput(level, hideCallstack, ctxInfo, msg, now, caller);
      && |line| >= TimestampWidth + LevelWidth + 5 + |ctxInfo| + |msg|
      && |now| <= |line| && line[..|now|] == now
      && (hideCallstack ==> |Escape(msg)| <= |line| && line[|line| - |Escape(msg)|..] == Escape(msg))
      && (!hideCallstack ==> line[|line| - 1] == ')')
  {
    var esc := Escape(msg);
    var rest := if hideCallstack then "" else LocationSuffix(ResolveCaller(caller));
    EscapeLength(msg);
    FormatAsLayout(level, hideCallstack, ctxInfo, msg, now, caller);
    LayoutLevelColumns(now, LevelField(level), ctxInfo, esc, rest);
    LayoutMessageColumns(now, LevelField(level), ctxInfo, esc, rest);
  }

  /** The record of one call, as a layout of its fields followed by `rest`. */
  lemma FormatAsLayout(level: Level, hideCallstack: bool, ctxInfo: string, msg: string,
                       now: string, caller: Option<Location>)
    ensures FormatOutput(level, hideCallstack, ctxInfo, msg, now, caller)
         == Layout(now, LevelField(level), ctxInfo, Escape(msg))
            + (if hideCallstack then "" else LocationSuffix(ResolveCaller(caller)))
  {
    var head := Layout(now, LevelField(level), ctxInfo, Escape(msg));
    assert head + "" == head;
  }

  /** The hidden-stack form in terms of the source's pieces. */
  lemma HiddenForm(level: Level, ctxInfo: string, msg: string, now: string, caller: Option<Location>)
    ensures FormatOutput(level, true, ctxInfo, msg, now, caller)
         == Pad(now, TimestampWidth) + " " + Pad(Upper(LevelString(level)), LevelWidth)
            + " [" + ctxInfo + "] " + Escape(msg)
  {
    LevelFieldIsUpper(level);
  }

  /** Showing the call stack only appends ` (file:line)` to the hidden form. */
  lemma ShownExtendsHidden(level: Level, ctxInfo: string, msg: string, now: string,
                           caller: Option<Location>)
    ensures FormatOutput(level, false, ctxInfo, msg, now, caller)
         == FormatOutput(level, true, ctxInfo, msg, now, caller) + LocationSuffix(ResolveCaller(caller))
  {
  }

  /** With the call stack hidden, the caller lookup has no influence. */
  lemma HiddenIgnoresCaller(level: Level, ctxInfo: string, msg: string, now: string,
                            c1: Option<Location>, c2: Option<Location>)
    ensures FormatOutput(level, true, ctxInfo, msg, now, c1) == FormatOutput(level, true, ctxInfo, msg, now, c2)
  {
  }

  /** The suffix for a failed lookup. */
  lemma UnknownLocationSuffix()
    ensures LocationSuffix(UnknownLocation) == " (???:0)"
  {
    ShortFileKeepsPath("???");
    assert Decimal(0) == "0";
  }

  /** A failed lookup shows as `(???:0)`. */
  lemma FailedLookupSuffix(level: Level, ctxInfo: string, msg: string, now: string)
    ensures FormatOutput(level, false, ctxInfo, msg, now, None)
         == FormatOutput(level, true, ctxInfo, msg, now, None) + " (???:0)"
  {
    ShownExtendsHidden(level, ctxInfo, msg, now, None);
    UnknownLocationSuffix();
  }

  /** The columns of the record with the call stack hidden. */
  lemma HiddenColumns(level: Level, ctxInfo: string, msg: string, now: string, caller: Option<Location>)
    ensures var line := FormatOutput(level, true, ctxInfo, msg, now, caller);
      var field, esc := LevelField(level), Escape(msg);
      var lc, mc := LevelColumn(now), MessageColumn(now, field, ctxInfo);
      && lc + |field| <= |line| && line[lc - 1] == ' ' && line[lc..lc + |field|] == field
      && mc + |esc| <= |line|
      && line[mc - |ctxInfo| - 4..mc] == " [" + ctxInfo + "] "
      && line[mc..mc + |esc|] == esc
  {
    LayoutLevelColumns(now, LevelField(level), ctxInfo, Escape(msg), "");
    LayoutMessageColumns(now, LevelField(level), ctxInfo, Escape(msg), "");
  }

  /** The columns of the record with the call stack shown. */
  lemma ShownColumns(level: Level, ctxInfo: string, msg: string, now: string, caller: Option<Location>)
    ensures var line := FormatOutput(level, false, ctxInfo, msg, now, caller);
      var field, esc := LevelField(level), Escape(msg);
      var lc, mc := LevelColumn(now), MessageColumn(now, field, ctxInfo);
      && lc + |field| <= |line| && line[lc - 1] == ' ' && line[lc..lc + |field|] == field
      && mc + |esc| <= |line|
      && line[mc - |ctxInfo| - 4..mc] == " [" + ctxInfo + "] "
      && line[mc..mc + |esc|] == esc
  {
    LayoutLevelColumns(now, LevelField(level), ctxInfo, Escape(msg), LocationSuffix(ResolveCaller(caller)));
    LayoutMessageColumns(now, LevelField(level), ctxInfo, Escape(msg), LocationSuffix(ResolveCaller(caller)));
  }

  /** The level name appears in full after the timestamp column, however long
      it is: width 5 is a minimum, so UNKNOWN keeps its seven letters. */
  lemma LevelColumnHoldsName(level: Level, hideCallstack: bool, ctxInfo: string, msg: string,
                             now: string, caller: Option<Location>)
    ensures var line := FormatOutput(level, hideCallstack, ctxInfo, msg, now, caller);
      var lc := LevelColumn(now);
      lc + |LevelField(level)| <= |line| && line[lc - 1] == ' '
      && line[lc..lc + |LevelField(level)|] == LevelField(level)
  {
    if hideCallstack {
      HiddenColumns(level, ctxInfo, msg, now, caller);
    } else {
      ShownColumns(level, ctxInfo, msg, now, caller);
    }
  }

  /** The tag sits in brackets and is followed by the escaped message (which,
      by the contract of `Escape`, holds no line break). */
  lemma MessageColumnHoldsMessage(level: Level, hideCallstack: bool, ctxInfo: string, msg: string,
                                  now: string, caller: Option<Location>)
    ensures var line := FormatOutput(level, hideCallstack, ctxInfo, msg, now, caller);
      var mc := MessageColumn(now, LevelField(level), ctxInfo);
      var esc := Escape(msg);
      mc + |esc| <= |line|
      && line[mc - |ctxInfo| - 4..mc] == " [" + ctxInfo + "] "
      && line[mc..mc + |esc|] == esc
  {
    if hideCallstack {
      HiddenColumns(level, ctxInfo, msg, now, caller);
    } else {
      ShownColumns(level, ctxInfo, msg, now, caller);
    }
  }

  /** A suffix of a string without line breaks has none either. */
  lemma SuffixNoLineBreak(s: string, k: nat)
    requires k <= |s| && NoLineBreak(s)
    ensures NoLineBreak(s[k..])
  {
  }

  /** A concatenation has a line break exactly when one of its parts has. */
  lemma JoinNoLineBreak(a: string, b: string)
    ensures NoLineBreak(a + b) <==> NoLineBreak(a) && NoLineBreak(b)
  {
  }

  /** Padding neither adds nor removes a line break. */
  lemma PadNoLineBreak(s: string, width: nat)
    ensures NoLineBreak(Pad(s, width)) <==> NoLineBreak(s)
  {
    var r := Pad(s, width);
    if !NoLineBreak(s) {
      var i :| 0 <= i < |s| && IsLineBreak(s[i]);
      assert r[..|s|][i] == s[i];
      assert r[i] in r;
    }
  }

  /** A laid-out line has a line break exactly when one of its fields has. */
  lemma LayoutNoLineBreak(now: string, field: string, tag: string, text: string)
    ensures NoLineBreak(Layout(now, field, tag, text))
        <==> NoLineBreak(now) && NoLineBreak(field) && NoLineBreak(tag) && NoLineBreak(text)
  {
    var ts, lf := Pad(now, TimestampWidth), Pad(field, LevelWidth);
    PadNoLineBreak(now, TimestampWidth);
    PadNoLineBreak(field, LevelWidth);
    JoinNoLineBreak(ts + " " + lf + " [" + tag + "] ", text);
    JoinNoLineBreak(ts + " " + lf + " [" + tag, "] ");
    JoinNoLineBreak(ts + " " + lf + " [", tag);
    JoinNoLineBreak(ts + " " + lf, " [");
    JoinNoLineBreak(ts + " ", lf);
    JoinNoLineBreak(ts, " ");
  }

  /** ` (file:line)` has a line break exactly when the file name or the number has. */
  lemma SuffixPartsNoLineBreak(short: string, number: string)
    ensures NoLineBreak(" (" + short + ":" + number + ")") <==> NoLineBreak(short) && NoLineBreak(number)
  {
    JoinNoLineBreak(" (", short);
    JoinNoLineBreak(" (" + short, ":");
    JoinNoLineBreak(" (" + short + ":", number);
    JoinNoLineBreak(" (" + short + ":" + number, ")");
  }

  /** The location suffix has a line break exactly when the short file name
      has, and so never when the whole path has none. */
  lemma LocationSuffixNoLineBreak(loc: Location)
    ensures NoLineBreak(LocationSuffix(loc)) <==> NoLineBreak(ShortFile(loc.file))
    ensures NoLineBreak(loc.file) ==> NoLineBreak(LocationSuffix(loc))
  {
    var short := ShortFile(loc.file);
    if NoLineBreak(loc.file) {
      SuffixNoLineBreak(loc.file, |loc.file| - |short|);
    }
    DecimalRoundTrip(loc.line);
    SuffixPartsNoLineBreak(short, Decimal(loc.line));
  }

  /** Only the message is escaped: the record is free of line breaks exactly
      when the timestamp, the tag and, if the location is shown, the short
      file name are. A break in the directory part of the path never reaches
      the record. */
  lemma LineHasNoLineBreak(level: Level, hideCallstack: bool, ctxInfo: string, msg: string,
                           now: string, caller: Option<Location>)
    ensures NoLineBreak(FormatOutput(level, hideCallstack, ctxInfo, msg, now, caller))
        <==> NoLineBreak(now) && NoLineBreak(ctxInfo)
             && (!hideCallstack ==> NoLineBreak(ShortFile(ResolveCaller(caller).file)))
  {
    FormatAsLayout(level, hideCallstack, ctxInfo, msg, now, caller);
    var head := Layout(now, LevelField(level), ctxInfo, Escape(msg));
    LayoutNoLineBreak(now, LevelField(level), ctxInfo, Escape(msg));
    if !hideCallstack {
      var loc := ResolveCaller(caller);
      LocationSuffixNoLineBreak(loc);
      JoinNoLineBreak(head, LocationSuffix(loc));
    }
  }

  /** A line break in the directory part of the path, as in "a\nb/c.go",
      does not reach a record that shows the location. */
  lemma DirectoryBreakDropped(level: Level, ctxInfo: string, msg: string, now: string,
                              dir: string, name: string, line: int)
    requires NoLineBreak(now) && NoLineBreak(ctxInfo) && NoLineBreak(name)
    requires 1 <= |dir| && '/' !in name
    ensures NoLineBreak(FormatOutput(level, false, ctxInfo, msg, now, Some(Location(dir + "/" + name, line))))
  {
    var file := dir + "/" + name;
    assert ShortFile(file) == name by {
      assert file[|dir|] == '/';
      assert forall j :: |dir| < j < |file| ==> file[j] == name[j - |dir| - 1];
      ShortFileAfterLastSlash(file, |dir|);
      assert file[|dir| + 1..] == name;
    }
    LineHasNoLineBreak(level, false, ctxInfo, msg, now, Some(Location(file, line)));
  }

  /** The record of `logger.Warn(nil, msg)` with the call stack hidden, for a
      message such as `log_content`: the line matches `WARN[ ]+\[.*\] log_content`. */
  lemma WarnRecordLayout(now: string, ctxInfo: string, msg: string, caller: Option<Location>)
    requires NoLineBreak(msg)
    ensures FormatOutput(WarnLevel, true, ctxInfo, msg, now, caller)
         == Pad(now, TimestampWidth) + " " + "WARN " + " [" + ctxInfo + "] " + msg
  {
    assert Pad("WARN", LevelWidth) == "WARN ";
    EscapeIdentity(msg);
  }

  /** An unnamed level prints as UNKNOWN, two characters past the width. */
  lemma UnknownLevelRecord(level: Level, ctxInfo: string, msg: string, now: string)
    requires !IsNamed(level)
    ensures FormatOutput(level, true, ctxInfo, msg, now, None)
         == Pad(now, TimestampWidth) + " " + "UNKNOWN" + " [" + ctxInfo + "] " + Escape(msg)
  {
  }
}
