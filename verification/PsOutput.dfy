/** `build_ps_output`: the table as text in an 8192-byte message. */
module PsOutput {
  import opened CTypes
  import opened Containers
  import LC = Lifecycle
  import EX = Exclusivity
  import F = Flags
  import SI = SlotInvariant

  const MESSAGE_LEN: nat := 8192
  const TIME_LEN: nat := 32
  const NUL: char := '\0'

  /** Fields separated by tabs, ended by a newline. */
  function Line(fields: seq<string>): string {
    if fields == [] then "\n"
    else if |fields| == 1 then fields[0] + "\n"
    else fields[0] + "\t" + Line(fields[1..])
  }

  const TITLES: string := "ID\tPID\tSTATE" + "\tEXIT\tSOFT" + "\tHARD\tNICE" + "\tSTARTED" + "\t\t\tLOG FILE"

  function Header(): string {
    TITLES + "\n"
  }

  /** `%d`. */
  function IntText(n: int): string {
    if n < 0 then "-" + F.Numeral(-n) else F.Numeral(n)
  }

  function StateText(state: Phase): string {
    match state
    case Blank => ""
    case Starting => "STARTING"
    case Running => "RUNNING"
    case Stopped => "STOPPED"
    case Exited => "EXITED"
    case Killed => "KILLED"
  }

  /** One line; `time` is the formatted start time, or "-". */
  function Row(slot: Slot, time: string): string {
    Line(Columns(slot, time))
  }

  function Columns(slot: Slot, time: string): seq<string> {
    [slot.id, IntText(slot.pid), StateText(slot.state), IntText(slot.exitCode), IntText(slot.softMib),
     IntText(slot.hardMib), IntText(slot.niceValue), time, slot.logFile]
  }

  /** The header and the lines of the used slots among the first `i`, in index order. */
  function Text(slots: seq<Slot>, times: seq<string>, i: nat): string
    requires i <= |slots| == |times|
  {
    if i == 0 then Header()
    else if slots[i - 1].used then Text(slots, times, i - 1) + Row(slots[i - 1], times[i - 1])
    else Text(slots, times, i - 1)
  }

  // ---------------------------------------------------------------------------------------
  // Bounds

  /** What the C types of the fields guarantee. */
  predicate RowFits(slot: Slot, time: string) {
    |slot.id| < MAX_ID_LEN && |slot.logFile| < MAX_PATH_LEN && |time| < TIME_LEN && NumbersFit(slot)
  }

  predicate NumbersFit(slot: Slot) {
    && IsInt32(slot.pid) && IsInt32(slot.exitCode)
    && IsInt32(slot.softMib) && IsInt32(slot.hardMib) && IsInt32(slot.niceValue)
  }

  predicate TableFits(slots: seq<Slot>, times: seq<string>) {
    |slots| == |times| && forall i :: 0 <= i < |slots| && slots[i].used ==> RowFits(slots[i], times[i])
  }

  function Pow10(d: nat): nat {
    if d == 0 then 1 else 10 * Pow10(d - 1)
  }

  lemma {:induction false} DigitCount(n: nat, d: nat)
    requires d > 0 && n < Pow10(d)
    ensures |F.Numeral(n)| <= d
    decreases d
  {
    if n >= 10 {
      DigitCount(n / 10, d - 1);
    }
  }

  lemma IntTextIsShort(n: int)
    requires IsInt32(n)
    ensures |IntText(n)| <= 11
  {
    assert Pow10(10) == 10_000_000_000 by {
      assert Pow10(5) == 100_000;
    }
    DigitCount(if n < 0 then -n else n, 10);
  }

  function Total(fields: seq<string>): nat {
    if fields == [] then 0 else |fields[0]| + Total(fields[1..])
  }

  lemma {:induction false} LineLength(fields: seq<string>)
    requires fields != []
    ensures |Line(fields)| == Total(fields) + |fields|
  {
    if |fields| > 1 {
      LineLength(fields[1..]);
    }
  }

  lemma {:induction false} TotalConcat(a: seq<string>, b: seq<string>)
    ensures Total(a + b) == Total(a) + Total(b)
  {
    if a == [] {
      assert a + b == b;
    } else {
      assert (a + b)[1..] == a[1..] + b;
      TotalConcat(a[1..], b);
    }
  }

  lemma ThreeFields(a: string, b: string, c: string)
    ensures Total([a, b, c]) == |a| + |b| + |c|
  {
    assert [a, b, c][1..] == [b, c];
    assert [b, c][1..] == [c];
    assert [c][1..] == [] && Total([c]) == |c|;
  }

  lemma HeaderIsShort()
    ensures |Header()| <= 99
  {
  }

  lemma RowIsShort(slot: Slot, time: string)
    requires RowFits(slot, time)
    ensures |Row(slot, time)| <= 404
  {
    IntTextIsShort(slot.pid);
    IntTextIsShort(slot.exitCode);
    IntTextIsShort(slot.softMib);
    IntTextIsShort(slot.hardMib);
    IntTextIsShort(slot.niceValue);
    RowLength(slot.id, IntText(slot.pid), StateText(slot.state), IntText(slot.exitCode), IntText(slot.softMib),
              IntText(slot.hardMib), IntText(slot.niceValue), time, slot.logFile);
  }

  lemma RowLength(a: string, b: string, c: string, d: string, e: string, f: string, g: string, h: string, i: string)
    ensures |Line([a, b, c, d, e, f, g, h, i])| == |a| + |b| + |c| + |d| + |e| + |f| + |g| + |h| + |i| + 9
  {
    LineLength([a, b, c, d, e, f, g, h, i]);
    assert [a, b, c, d, e, f, g, h, i] == [a, b, c] + [d, e, f] + [g, h, i];
    TotalConcat([a, b, c] + [d, e, f], [g, h, i]);
    TotalConcat([a, b, c], [d, e, f]);
    ThreeFields(a, b, c);
    ThreeFields(d, e, f);
    ThreeFields(g, h, i);
  }

  lemma {:induction false} TextIsShort(slots: seq<Slot>, times: seq<string>, i: nat)
    requires TableFits(slots, times) && i <= |slots|
    ensures |Text(slots, times, i)| <= 99 + 404 * i
  {
    if i == 0 {
      HeaderIsShort();
    } else {
      TextIsShort(slots, times, i - 1);
      if slots[i - 1].used {
        RowIsShort(slots[i - 1], times[i - 1]);
      }
    }
  }

  // ---------------------------------------------------------------------------------------
  // Reading the text back

  /** The pieces of `s` between separators. */
  function Split(s: string, sep: char): (pieces: seq<string>)
    ensures pieces != []
  {
    if s == "" then [""]
    else
      var rest := Split(s[1..], sep);
      if s[0] == sep then [""] + rest else [[s[0]] + rest[0]] + rest[1..]
  }

  lemma {:induction false} SplitAtSeparator(x: string, sep: char, y: string)
    ensures Split(x + [sep] + y, sep) == Split(x, sep) + Split(y, sep)
  {
    var s := x + [sep] + y;
    if x == "" {
      assert s[1..] == y;
    } else {
      assert s[1..] == x[1..] + [sep] + y;
      SplitAtSeparator(x[1..], sep, y);
    }
  }

  lemma {:induction false} SplitWhole(x: string, sep: char)
    requires sep !in x
    ensures Split(x, sep) == [x]
  {
    if x != "" {
      SplitWhole(x[1..], sep);
      assert [x[0]] + x[1..] == x;
    }
  }

  /** The fields of a line are its pieces between tabs. */
  lemma {:induction false} FieldsReadBack(fields: seq<string>)
    requires fields != [] && forall f :: f in fields ==> '\t' !in f
    ensures Line(fields) != "" && Line(fields)[|Line(fields)| - 1] == '\n'
    ensures Split(Line(fields)[..|Line(fields)| - 1], '\t') == fields
  {
    var body := Line(fields)[..|Line(fields)| - 1];
    if |fields| == 1 {
      assert body == fields[0];
      SplitWhole(fields[0], '\t');
    } else {
      FieldsReadBack(fields[1..]);
      var rest := Line(fields[1..]);
      assert body == fields[0] + ['\t'] + rest[..|rest| - 1];
      SplitAtSeparator(fields[0], '\t', rest[..|rest| - 1]);
      SplitWhole(fields[0], '\t');
    }
  }

  lemma DigitsHaveNoTabs(v: string)
    requires F.AllDigits(v)
    ensures '\t' !in v && '\n' !in v
  {
    forall c | c in v
      ensures F.IsDigit(c)
    {
      var i :| 0 <= i < |v| && v[i] == c;
      assert F.IsDigit(v[i]);
    }
  }

  /** A printed number reads back as that number, and has neither tabs nor newlines. */
  lemma NumberReadsBack(n: int)
    ensures F.Scan(IntText(n)).found && F.Scan(IntText(n)).whole && F.Signed(F.Scan(IntText(n))) == n
    ensures '\t' !in IntText(n) && '\n' !in IntText(n)
  {
    var m := if n < 0 then -n else n;
    F.NumeralScans(m);
    F.NumeralReadsBack(m);
    DigitsHaveNoTabs(F.Numeral(m));
  }

  /** The state column. */
  lemma StateNames()
    ensures StateText(Starting) == "STARTING" && StateText(Running) == "RUNNING"
    ensures StateText(Stopped) == "STOPPED" && StateText(Exited) == "EXITED" && StateText(Killed) == "KILLED"
    ensures forall state :: '\t' !in StateText(state) && '\n' !in StateText(state)
  {
  }

  ghost predicate PlainStrings(slot: Slot, time: string) {
    && '\t' !in slot.id && '\t' !in time && '\t' !in slot.logFile
    && '\n' !in slot.id && '\n' !in time && '\n' !in slot.logFile
  }

  lemma ColumnsArePlain(slot: Slot, time: string)
    requires PlainStrings(slot, time)
    ensures forall f :: f in Columns(slot, time) ==> '\t' !in f && '\n' !in f
  {
    NumberReadsBack(slot.pid);
    NumberReadsBack(slot.exitCode);
    NumberReadsBack(slot.softMib);
    NumberReadsBack(slot.hardMib);
    NumberReadsBack(slot.niceValue);
    StateNames();
  }

  /** A printed row, split at its tabs, is nine columns: id, pid, state, exit code, soft and hard
      limit, niceness, start time and log file (see `NumberReadsBack` for the numbers). */
  lemma RowReadsBack(slot: Slot, time: string) returns (f: seq<string>)
    requires PlainStrings(slot, time)
    ensures |Row(slot, time)| > 0 && Row(slot, time)[|Row(slot, time)| - 1] == '\n'
    ensures f == Split(Row(slot, time)[..|Row(slot, time)| - 1], '\t')
    ensures |f| == 9 && f[0] == slot.id && f[2] == StateText(slot.state) && f[7] == time && f[8] == slot.logFile
    ensures f[1] == IntText(slot.pid) && f[3] == IntText(slot.exitCode)
    ensures f[4] == IntText(slot.softMib) && f[5] == IntText(slot.hardMib) && f[6] == IntText(slot.niceValue)
  {
    f := Columns(slot, time);
    ColumnsArePlain(slot, time);
    FieldsReadBack(f);
  }

  /** Number of used slots before slot `i`. */
  ghost function UsedBefore(slots: seq<Slot>, i: nat): nat
    requires i <= |slots|
  {
    if i == 0 then 0 else UsedBefore(slots, i - 1) + (if slots[i - 1].used then 1 else 0)
  }

  lemma {:induction false} LineHasOneNewline(fields: seq<string>)
    requires fields != [] && forall f :: f in fields ==> '\n' !in f
    ensures Line(fields) != "" && Line(fields)[|Line(fields)| - 1] == '\n' && '\n' !in Line(fields)[..|Line(fields)| - 1]
  {
    if |fields| > 1 {
      LineHasOneNewline(fields[1..]);
      var rest := Line(fields[1..]);
      assert Line(fields)[..|Line(fields)| - 1] == fields[0] + "\t" + rest[..|rest| - 1];
    }
  }

  /** `pieces` are the lines of a text that ends its last line. */
  ghost predicate Lines(text: string, pieces: seq<string>) {
    Split(text, '\n') == pieces + [""]
  }

  lemma OneMoreLine(text: string, pieces: seq<string>, line: string)
    requires Lines(text, pieces) && text != "" && text[|text| - 1] == '\n'
    requires line != "" && line[|line| - 1] == '\n' && '\n' !in line[..|line| - 1]
    ensures Lines(text + line, pieces + [line[..|line| - 1]])
  {
    var x, y := text[..|text| - 1], line[..|line| - 1];
    assert text == x + ['\n'] + "";
    SplitAtSeparator(x, '\n', "");
    assert Split(x, '\n') == pieces by {
      assert (Split(x, '\n') + [""])[..|pieces|] == (pieces + [""])[..|pieces|];
    }
    assert text + line == x + ['\n'] + (y + ['\n'] + "");
    SplitAtSeparator(x, '\n', y + ['\n'] + "");
    SplitAtSeparator(y, '\n', "");
    SplitWhole(y, '\n');
  }

  lemma OneMoreRow(text: string, lines: seq<string>, slot: Slot, time: string)
    requires Lines(text, lines) && text != "" && text[|text| - 1] == '\n' && PlainStrings(slot, time)
    ensures Lines(text + Row(slot, time), lines + [RowLine(slot, time)])
    ensures Row(slot, time) != "" && Row(slot, time)[|Row(slot, time)| - 1] == '\n'
  {
    ColumnsArePlain(slot, time);
    LineHasOneNewline(Columns(slot, time));
    OneMoreLine(text, lines, Row(slot, time));
  }

  ghost predicate AllPlain(slots: seq<Slot>, times: seq<string>) {
    |slots| == |times| && forall i :: 0 <= i < |slots| && slots[i].used ==> PlainStrings(slots[i], times[i])
  }

  /** The row of a slot without its newline. */
  ghost function RowLine(slot: Slot, time: string): string {
    if Row(slot, time) == "" then "" else Row(slot, time)[..|Row(slot, time)| - 1]
  }

  /** The line of a used slot comes right after those of the used slots before it. */
  ghost predicate ShowsRows(slots: seq<Slot>, times: seq<string>, n: nat, lines: seq<string>)
    requires n <= |slots| == |times|
  {
    && |lines| == 1 + UsedBefore(slots, n) && lines[0] == TITLES
    && forall i :: 0 <= i < n && slots[i].used ==>
         UsedBefore(slots, i) < UsedBefore(slots, n) && lines[1 + UsedBefore(slots, i)] == RowLine(slots[i], times[i])
  }

  lemma ShowsOneMore(slots: seq<Slot>, times: seq<string>, n: nat, lines: seq<string>)
    requires n < |slots| == |times| && ShowsRows(slots, times, n, lines)
    ensures ShowsRows(slots, times, n + 1, if slots[n].used then lines + [RowLine(slots[n], times[n])] else lines)
  {
  }

  /** The printed text is the title line and one line per used slot, in index order. */
  lemma {:induction false} TextReadsBack(slots: seq<Slot>, times: seq<string>, n: nat) returns (lines: seq<string>)
    requires AllPlain(slots, times) && n <= |slots|
    ensures Text(slots, times, n) != "" && Text(slots, times, n)[|Text(slots, times, n)| - 1] == '\n'
    ensures Lines(Text(slots, times, n), lines) && ShowsRows(slots, times, n, lines)
  {
    if n == 0 {
      lines := HeaderLines();
    } else {
      lines := TextReadsBack(slots, times, n - 1);
      ShowsOneMore(slots, times, n - 1, lines);
      if slots[n - 1].used {
        OneMoreRow(Text(slots, times, n - 1), lines, slots[n - 1], times[n - 1]);
        lines := lines + [RowLine(slots[n - 1], times[n - 1])];
      }
    }
  }

  lemma HeaderLines() returns (lines: seq<string>)
    ensures Header() != "" && Header()[|Header()| - 1] == '\n' && Lines(Header(), lines) && lines == [TITLES]
  {
    TitlesAreOneLine();
    lines := OneLine(TITLES);
  }

  lemma OneLine(x: string) returns (lines: seq<string>)
    requires '\n' !in x
    ensures Lines(x + "\n", lines) && lines == [x]
  {
    assert x + "\n" == x + ['\n'] + "";
    SplitAtSeparator(x, '\n', "");
    SplitWhole(x, '\n');
    lines := [x];
  }

  lemma TitlesAreOneLine()
    ensures '\n' !in TITLES
  {
    assert '\n' !in "ID\tPID\tSTATE";
    assert '\n' !in "\tEXIT\tSOFT";
    assert '\n' !in "\tHARD\tNICE";
    assert '\n' !in "\tSTARTED";
    assert '\n' !in "\t\t\tLOG FILE";
  }

  // ---------------------------------------------------------------------------------------
  // The loop

  /** `snprintf(out + at, avail, ...)` of `text`: the whole text and a terminator if they fit,
      else as much as fits and a terminator; the result is the full length either way. */
  method Snprintf(out: array<char>, at: nat, avail: nat, text: string) returns (n: nat)
    requires 0 < avail && at + avail <= out.Length
    modifies out
    ensures n == |text|
    ensures var k := if |text| < avail then |text| else avail - 1;
            out[..at + k] == old(out[..at]) + text[..k] && out[at + k] == NUL
  {
    var k := if |text| < avail then |text| else avail - 1;
    for i := 0 to k
      invariant out[..at + i] == old(out[..at]) + text[..i]
    {
      out[at + i] := text[i];
    }
    out[at + k] := NUL;
    assert out[..at + k] == old(out[..at]) + text[..k];
    return |text|;
  }

  /** The buffer holds exactly `text`, terminated. */
  ghost predicate Shows(out: array<char>, text: string)
    reads out
  {
    |text| < out.Length && out[..|text|] == text && out[|text|] == NUL
  }

  /** One `used += snprintf(...)`. */
  method AppendText(out: array<char>, used: nat, more: string, ghost text: string) returns (used': nat)
    requires Shows(out, text) && used == |text| && |text| + |more| < out.Length
    modifies out
    ensures Shows(out, text + more) && used' == |text + more|
  {
    var n := Snprintf(out, used, out.Length - used, more);
    used' := used + n;
    assert more[..|more|] == more;
  }

  /** One `used += snprintf(...)` for a used slot. */
  method AppendRow(slots: seq<Slot>, times: seq<string>, out: array<char>, used: nat, i: nat) returns (used': nat)
    requires i < |slots| <= MAX_CONTAINERS && TableFits(slots, times) && out.Length == MESSAGE_LEN
    requires slots[i].used && Shows(out, Text(slots, times, i)) && used == |Text(slots, times, i)|
    modifies out
    ensures Shows(out, Text(slots, times, i + 1)) && used' == |Text(slots, times, i + 1)|
  {
    TextIsShort(slots, times, i + 1);
    used' := AppendText(out, used, Row(slots[i], times[i]), Text(slots, times, i));
  }

  /** The message is the header and one complete line per used slot, in index order; it is
      never cut, the remaining size never drops to zero (let alone wraps), and the early exit
      of the loop is never taken. */
  method BuildPs(slots: seq<Slot>, times: seq<string>, out: array<char>) returns (used: nat, cut: bool)
    requires |slots| == MAX_CONTAINERS && TableFits(slots, times) && out.Length == MESSAGE_LEN
    modifies out
    ensures !cut && used == |Text(slots, times, |slots|)|
    ensures Shows(out, Text(slots, times, |slots|))
  {
    used := PrintHeader(out);
    used, cut := PrintRows(slots, times, out, used);
  }

  /** The loop over the slots. */
  method PrintRows(slots: seq<Slot>, times: seq<string>, out: array<char>, from: nat) returns (used: nat, cut: bool)
    requires |slots| <= MAX_CONTAINERS && TableFits(slots, times) && out.Length == MESSAGE_LEN
    requires Shows(out, Header()) && from == |Header()|
    modifies out
    ensures !cut && used == |Text(slots, times, |slots|)|
    ensures Shows(out, Text(slots, times, |slots|))
  {
    used, cut := from, false;
    var i := 0;
    while i < |slots|
      invariant i <= |slots| && !cut
      invariant Shows(out, Text(slots, times, i)) && used == |Text(slots, times, i)|
    {
      if slots[i].used {
        used := AppendRow(slots, times, out, used, i);
        if used >= out.Length {
          cut := true;
          break;
        }
      }
      i := i + 1;
    }
  }

  method PrintFirst(out: array<char>, text: string) returns (used: nat)
    requires |text| < out.Length
    modifies out
    ensures Shows(out, text) && used == |text|
  {
    used := Snprintf(out, 0, out.Length, text);
    assert text[..|text|] == text;
  }

  method PrintHeader(out: array<char>) returns (used: nat)
    requires out.Length == MESSAGE_LEN
    modifies out
    ensures Shows(out, Header()) && used == |Header()|
  {
    HeaderIsShort();
    used := PrintFirst(out, Header());
  }

  /** Every reachable table whose numbers fit in an `int` is printed in full. */
  lemma ReachableTableFits(states: seq<LC.Sys>, labels: seq<LC.Label>, k: nat, times: seq<string>)
    requires LC.IsRun(states, labels) && k < |states| && |times| == |states[k].slots|
    requires forall i :: 0 <= i < |times| ==> |times[i]| < TIME_LEN && NumbersFit(states[k].slots[i])
    ensures |states[k].slots| == MAX_CONTAINERS && TableFits(states[k].slots, times)
    ensures |Text(states[k].slots, times, |times|)| < MESSAGE_LEN
  {
    SI.InvHolds(states, labels, k);
    forall i | 0 <= i < |times| && states[k].slots[i].used
      ensures RowFits(states[k].slots[i], times[i])
    {
      ReachableStringsFit(states, labels, k, i);
    }
    TextIsShort(states[k].slots, times, |times|);
  }

  /** The string bounds assumed above hold in every reachable table. */
  lemma ReachableStringsFit(states: seq<LC.Sys>, labels: seq<LC.Label>, k: nat, i: nat)
    requires LC.IsRun(states, labels) && k < |states| && i < |states[k].slots| && states[k].slots[i].used
    ensures |states[k].slots[i].id| < MAX_ID_LEN && |states[k].slots[i].logFile| <= |states[k].slots[i].id| + 9 < MAX_PATH_LEN
  {
    EX.ExclusiveAlways(states, labels, k);
    assert EX.Named(states[k].slots[i]);
    LogPathIsInjective(states[k].slots[i].id, states[k].slots[i].id);
  }
}
