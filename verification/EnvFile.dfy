/** The rewriting of named settings in a .env file (scripts/compose_dev.py:88-118). */
module EnvFile {
  import opened Options
  import opened PythonText

  type Values = map<string, string>

  /* ---------- characters ---------- */

  /** Where str.splitlines ends a line; read_text has already turned carriage returns into newlines. */
  predicate Break(c: char) {
    || c == '\n' || c == '\r' || c as int == 0x0B || c as int == 0x0C
    || 0x1C <= c as int <= 0x1E || Unicode(c)
  }

  /** The line ends json.dumps leaves as they are. */
  predicate Unicode(c: char) {
    c as int == 0x85 || c as int == 0x2028 || c as int == 0x2029
  }

  predicate OneLine(s: string) {
    forall c | c in s :: !Break(c)
  }

  /* ---------- text and lines ---------- */

  /** Path.read_text: universal newlines. */
  function ReadText(raw: string): string {
    if raw == "" then ""
    else if raw[0] != '\r' then [raw[0]] + ReadText(raw[1..])
    else if |raw| > 1 && raw[1] == '\n' then "\n" + ReadText(raw[2..])
    else "\n" + ReadText(raw[1..])
  }

  /** What str.splitlines has closed and what is still open. */
  datatype Cut = Cut(closed: seq<string>, rest: string)

  function CutAtBreaks(s: string): Cut {
    if s == "" then Cut([], "")
    else
      var before, c := CutAtBreaks(s[..|s| - 1]), s[|s| - 1];
      if Break(c) then Cut(before.closed + [before.rest], "") else Cut(before.closed, before.rest + [c])
  }

  function SplitLines(s: string): seq<string> {
    var cut := CutAtBreaks(s);
    if cut.rest == "" then cut.closed else cut.closed + [cut.rest]
  }

  lemma {:induction false} CutsAreLines(s: string)
    ensures OneLine(CutAtBreaks(s).rest) && forall line | line in CutAtBreaks(s).closed :: OneLine(line)
  {
    if s != "" {
      CutsAreLines(s[..|s| - 1]);
    }
  }

  lemma CutOneMore(s: string, c: char)
    ensures var before := CutAtBreaks(s);
            CutAtBreaks(s + [c]) == if Break(c) then Cut(before.closed + [before.rest], "")
                                    else Cut(before.closed, before.rest + [c])
  {
    assert (s + [c])[..|s|] == s;
  }

  lemma {:induction false} OneLineStaysOpen(line: string)
    requires OneLine(line)
    ensures CutAtBreaks(line) == Cut([], line)
  {
    if line != "" {
      var before := line[..|line| - 1];
      assert forall c | c in before :: c in line;
      OneLineStaysOpen(before);
      assert line == before + [line[|line| - 1]];
    }
  }

  /** Text after a line end is split by itself. */
  lemma {:induction false} CutAfterBreak(a: string, b: string)
    requires CutAtBreaks(a).rest == ""
    ensures CutAtBreaks(a + b) == Cut(CutAtBreaks(a).closed + CutAtBreaks(b).closed, CutAtBreaks(b).rest)
  {
    if b == "" {
      assert a + b == a;
    } else {
      var before, c := b[..|b| - 1], b[|b| - 1];
      CutAfterBreak(a, before);
      CutOneMore(a + before, c);
      assert a + b == a + before + [c];
    }
  }

  /** Text without a line end starts the first line. */
  lemma {:induction false} HeadComesFirst(head: string, tail: string)
    requires OneLine(head)
    ensures var cut := CutAtBreaks(head + tail); head <= if cut.closed == [] then cut.rest else cut.closed[0]
  {
    if tail == "" {
      OneLineStaysOpen(head);
      assert head + tail == head;
    } else {
      var before, c := tail[..|tail| - 1], tail[|tail| - 1];
      HeadComesFirst(head, before);
      CutOneMore(head + before, c);
      assert head + tail == head + before + [c];
    }
  }

  function Terminated(lines: seq<string>): string {
    if lines == [] then "" else Terminated(lines[..|lines| - 1]) + lines[|lines| - 1] + "\n"
  }

  /** newline.join(lines) + newline. */
  function Content(lines: seq<string>): string {
    if lines == [] then "\n" else Terminated(lines)
  }

  /** The lines that one line of output is read back as. */
  function Pieces(line: string): seq<string> {
    SplitLines(line + "\n")
  }

  function ReadBack(lines: seq<string>): seq<string> {
    if lines == [] then [] else ReadBack(lines[..|lines| - 1]) + Pieces(lines[|lines| - 1])
  }

  lemma PiecesAreCuts(line: string)
    ensures CutAtBreaks(line + "\n") == Cut(Pieces(line), "")
    ensures Pieces(line) == CutAtBreaks(line).closed + [CutAtBreaks(line).rest]
  {
    CutOneMore(line, '\n');
  }

  lemma LineAfterText(text: string, line: string)
    requires CutAtBreaks(text).rest == ""
    ensures CutAtBreaks(text + (line + "\n")) == Cut(CutAtBreaks(text).closed + Pieces(line), "")
  {
    PiecesAreCuts(line);
    CutAfterBreak(text, line + "\n");
  }

  lemma {:induction false} TerminatedIsCut(lines: seq<string>)
    ensures CutAtBreaks(Terminated(lines)) == Cut(ReadBack(lines), "")
  {
    if lines != [] {
      var text, line := Terminated(lines[..|lines| - 1]), lines[|lines| - 1];
      TerminatedIsCut(lines[..|lines| - 1]);
      LineAfterText(text, line);
      assert text + line + "\n" == text + (line + "\n");
    }
  }

  /** Lines that are written are read back as their pieces, one after the other. */
  lemma LinesReadBack(lines: seq<string>)
    ensures SplitLines(Terminated(lines)) == ReadBack(lines)
  {
    TerminatedIsCut(lines);
  }

  lemma OneLineIsOnePiece(line: string)
    requires OneLine(line)
    ensures Pieces(line) == [line]
  {
    OneLineStaysOpen(line);
    PiecesAreCuts(line);
  }

  lemma {:induction false} ReadTextKeepsNewlines(text: string)
    requires '\r' !in text
    ensures ReadText(text) == text
  {
    if text != "" {
      assert text[0] in text && forall c | c in text[1..] :: c in text;
      ReadTextKeepsNewlines(text[1..]);
    }
  }

  lemma {:induction false} TerminatedHasNoReturn(lines: seq<string>)
    requires forall line | line in lines :: '\r' !in line
    ensures '\r' !in Terminated(lines)
  {
    if lines != [] {
      TerminatedHasNoReturn(lines[..|lines| - 1]);
    }
  }

  lemma {:induction false} TerminatedPrefix(lines: seq<string>, n: nat)
    requires n <= |lines|
    ensures Terminated(lines[..n]) <= Terminated(lines)
  {
    if n == |lines| {
      assert lines[..n] == lines;
    } else {
      TerminatedPrefix(lines[..|lines| - 1], n);
      assert lines[..|lines| - 1][..n] == lines[..n];
    }
  }

  lemma {:induction false} ReadBackPrefix(lines: seq<string>, n: nat)
    requires n <= |lines|
    ensures ReadBack(lines[..n]) <= ReadBack(lines)
  {
    if n == |lines| {
      assert lines[..n] == lines;
    } else {
      ReadBackPrefix(lines[..|lines| - 1], n);
      assert lines[..|lines| - 1][..n] == lines[..n];
    }
  }

  /* ---------- one setting ---------- */

  function Before(line: string): string {
    if line == "" || line[0] == '=' then "" else [line[0]] + Before(line[1..])
  }

  function StripLeft(s: string): string {
    if s != "" && Space(s[0]) then StripLeft(s[1..]) else s
  }

  function StripRight(s: string): string {
    if s != "" && Space(s[|s| - 1]) then StripRight(s[..|s| - 1]) else s
  }

  /** line.partition("=")[0].strip(). */
  function KeyOf(line: string): string {
    StripRight(StripLeft(Before(line)))
  }

  predicate Representable(value: string) {
    '\n' !in value && '\r' !in value && '\0' !in value
  }

  function HexDigit(n: nat): char
    requires n < 16
  {
    if n < 10 then '0' + n as char else 'a' + (n - 10) as char
  }

  /** json.dumps(ensure_ascii=False), then each dollar sign escaped for Compose. */
  function EscapedChar(c: char): string {
    var n := c as int;
    if c == '\"' then "\\\"" else if c == '\\' then "\\\\" else if c == '$' then "\\$"
    else if n == 8 then "\\b" else if n == 9 then "\\t" else if n == 10 then "\\n" else if n == 12 then "\\f"
    else if n == 13 then "\\r"
    else if n < 32 then "\\u00" + [HexDigit(n / 16), HexDigit(n % 16)]
    else [c]
  }

  function Escaped(value: string): string {
    if value == "" then "" else Escaped(value[..|value| - 1]) + EscapedChar(value[|value| - 1])
  }

  function EnvLine(key: string, value: string): string {
    key + "=\"" + Escaped(value) + "\""
  }

  /** The name of a setting: no equals sign, no space around it, no line end. */
  predicate PlainKey(key: string) {
    '=' !in key && OneLine(key) && (key != "" ==> !Space(key[0]) && !Space(key[|key| - 1]))
  }

  lemma {:induction false} BeforeEquals(key: string, rest: string)
    requires '=' !in key
    ensures Before(key + "=" + rest) == key
  {
    if key == "" {
      assert key + "=" + rest == "=" + rest;
    } else {
      assert (key + "=" + rest)[1..] == key[1..] + "=" + rest;
      BeforeEquals(key[1..], rest);
    }
  }

  lemma PlainKeyNamesItself(key: string)
    requires PlainKey(key)
    ensures StripRight(StripLeft(key)) == key
  {
  }

  /** What comes before the equals sign is the name. */
  lemma NamedBeforeEquals(key: string, rest: string)
    requires PlainKey(key)
    ensures KeyOf(key + "=" + rest) == key
  {
    BeforeEquals(key, rest);
    PlainKeyNamesItself(key);
  }

  lemma StartsWithName(key: string, line: string)
    requires PlainKey(key) && key + "=" <= line
    ensures KeyOf(line) == key
  {
    NamedBeforeEquals(key, line[|key| + 1..]);
    assert line == key + "=" + line[|key| + 1..];
  }

  lemma EnvLineHasItsKey(key: string, value: string)
    requires PlainKey(key)
    ensures KeyOf(EnvLine(key, value)) == key
  {
    var rest := "\"" + Escaped(value) + "\"";
    assert EnvLine(key, value) == key + "=" + rest;
    NamedBeforeEquals(key, rest);
  }

  /** Escaping leaves of all line ends only the three beyond ASCII. */
  lemma {:induction false} EscapedBreaks(value: string)
    ensures OneLine(Escaped(value)) <==> forall c | c in value :: !Unicode(c)
  {
    if value != "" {
      var rest, c := value[..|value| - 1], value[|value| - 1];
      EscapedBreaks(rest);
      assert value == rest + [c];
      assert OneLine(EscapedChar(c)) <==> !Unicode(c) by { EscapedCharBreaks(c); }
      assert Escaped(value) == Escaped(rest) + EscapedChar(c);
    }
  }

  lemma EscapedCharBreaks(c: char)
    ensures OneLine(EscapedChar(c)) <==> !Unicode(c)
  {
    var n := c as int;
    if Unicode(c) {
      assert EscapedChar(c) == [c] && c in EscapedChar(c);
    } else if n < 32 && n != 8 && n != 9 && n != 10 && n != 12 && n != 13 {
      assert forall d | d in EscapedChar(c) ::
               d == '\\' || d == 'u' || d == '0' || d == HexDigit(n / 16) || d == HexDigit(n % 16);
    }
  }

  /** So a setting is written on one line exactly when its value has none of the three. */
  lemma EnvLineIsOneLine(key: string, value: string)
    requires PlainKey(key)
    ensures OneLine(EnvLine(key, value)) <==> forall c | c in value :: !Unicode(c)
  {
    EscapedBreaks(value);
    assert EnvLine(key, value) == key + "=\"" + Escaped(value) + "\"";
    if OneLine(EnvLine(key, value)) {
      assert forall c | c in Escaped(value) :: c in EnvLine(key, value);
    }
  }

  /* ---------- the rewriting ---------- */

  function KeysOf(lines: seq<string>): (keys: set<string>)
    ensures forall i | 0 <= i < |lines| :: KeyOf(lines[i]) in keys
  {
    if lines == [] then {} else KeysOf(lines[..|lines| - 1]) + {KeyOf(lines[|lines| - 1])}
  }

  /** The first line of a named setting is replaced, later ones are dropped, all others stay. */
  function Rewritten(lines: seq<string>, values: Values): seq<string> {
    if lines == [] then []
    else
      var before, line := lines[..|lines| - 1], lines[|lines| - 1];
      var rest, key := Rewritten(before, values), KeyOf(line);
      if key !in values then rest + [line]
      else if key in KeysOf(before) then rest
      else rest + [EnvLine(key, values[key])]
  }

  /** One turn of the extension. */
  function Next(output: seq<string>, present: set<string>, key: string, values: Values): seq<string>
    requires key in values
  {
    if key in present then output else output + [EnvLine(key, values[key])]
  }

  /** Settings no line names extend the output in their own order. */
  function Extended(start: seq<string>, present: set<string>, order: seq<string>, values: Values): seq<string>
    requires forall key | key in order :: key in values
  {
    if order == [] then start
    else Next(Extended(start, present, order[..|order| - 1], values), present, order[|order| - 1], values)
  }

  /** dict(values): its keys in order, each of them once. */
  ghost predicate Orders(order: seq<string>, values: Values) {
    (forall key :: key in order <==> key in values) && Distinct(order)
  }

  predicate Distinct(order: seq<string>) {
    order != [] ==> Distinct(order[..|order| - 1]) && order[|order| - 1] !in order[..|order| - 1]
  }

  ghost function Output(lines: seq<string>, order: seq<string>, values: Values): seq<string>
    requires Orders(order, values)
  {
    Extended(Rewritten(lines, values), KeysOf(lines), order, values)
  }

  /** The lines that belong to no named setting. */
  function Others(lines: seq<string>, values: Values): seq<string> {
    if lines == [] then []
    else
      var line := lines[|lines| - 1];
      Others(lines[..|lines| - 1], values) + if KeyOf(line) in values then [] else [line]
  }

  /** Every line of a named setting is its new one, and the only one. */
  ghost predicate Settled(lines: seq<string>, values: Values) {
    lines != [] ==>
      var before, line := lines[..|lines| - 1], lines[|lines| - 1];
      && Settled(before, values)
      && (KeyOf(line) in values ==> line == EnvLine(KeyOf(line), values[KeyOf(line)]) && KeyOf(line) !in KeysOf(before))
  }

  ghost predicate PlainKeys(values: Values) {
    forall key | key in values :: PlainKey(key)
  }

  /** Read by position: at most one line for each named setting, and that one new. */
  lemma {:induction false} SettledByPosition(lines: seq<string>, values: Values, i: nat, j: nat)
    requires Settled(lines, values) && i <= j < |lines| && KeyOf(lines[i]) in values
    requires KeyOf(lines[i]) == KeyOf(lines[j])
    ensures i == j && lines[i] == EnvLine(KeyOf(lines[i]), values[KeyOf(lines[i])])
  {
    var before := lines[..|lines| - 1];
    assert i < |before| ==> before[i] == lines[i];
    if j < |before| {
      SettledByPosition(before, values, i, j);
    }
  }

  lemma OneMore(lines: seq<string>, values: Values, line: string)
    ensures KeysOf(lines + [line]) == KeysOf(lines) + {KeyOf(line)}
    ensures Others(lines + [line], values) == Others(lines, values) + if KeyOf(line) in values then [] else [line]
    ensures Settled(lines + [line], values) <==>
            Settled(lines, values)
              && (KeyOf(line) in values ==>
                   line == EnvLine(KeyOf(line), values[KeyOf(line)]) && KeyOf(line) !in KeysOf(lines))
  {
    assert (lines + [line])[..|lines|] == lines;
  }

  /** What rewriting leaves: settled lines that name the same settings, between the same other lines. */
  ghost predicate Settles(lines: seq<string>, r: seq<string>, values: Values) {
    && Settled(r, values) && Others(r, values) == Others(lines, values)
    && forall key | key in values :: key in KeysOf(r) <==> key in KeysOf(lines)
  }

  lemma {:induction false} RewrittenSettles(lines: seq<string>, values: Values)
    requires PlainKeys(values)
    ensures Settles(lines, Rewritten(lines, values), values)
  {
    if lines != [] {
      var before, line := lines[..|lines| - 1], lines[|lines| - 1];
      var rest, key := Rewritten(before, values), KeyOf(line);
      RewrittenSettles(before, values);
      if key in values { EnvLineHasItsKey(key, values[key]); }
      OneMore(rest, values, if key in values then EnvLine(key, values[key]) else line);
    }
  }

  /** The settings in `order` that were not present have been added. */
  ghost predicate Completes(start: seq<string>, r: seq<string>, order: seq<string>, values: Values) {
    && Settled(r, values) && Others(r, values) == Others(start, values)
    && forall key | key in values :: key in KeysOf(r) <==> key in KeysOf(start) || key in order
  }

  lemma NextCompletes(start: seq<string>, present: set<string>, r: seq<string>, order: seq<string>, key: string,
                      values: Values)
    requires Completes(start, r, order, values) && key in values && key !in order && PlainKey(key)
    requires key in KeysOf(start) <==> key in present
    ensures Completes(start, Next(r, present, key, values), order + [key], values)
  {
    EnvLineHasItsKey(key, values[key]);
    OneMore(r, values, EnvLine(key, values[key]));
  }

  /** What every turn keeps holds of the extended output. */
  lemma {:induction false} ExtendedKeeps(P: (seq<string>, seq<string>) -> bool, start: seq<string>,
                                         present: set<string>, order: seq<string>, values: Values)
    requires (forall key | key in order :: key in values) && Distinct(order) && P(start, [])
    requires forall r, done, key | P(r, done) && key in values && key !in done ::
               P(Next(r, present, key, values), done + [key])
    ensures P(Extended(start, present, order, values), order)
  {
    if order != [] {
      var rest, key := order[..|order| - 1], order[|order| - 1];
      ExtendedKeeps(P, start, present, rest, values);
      assert order == rest + [key];
    }
  }

  lemma ExtendedCompletes(start: seq<string>, present: set<string>, order: seq<string>, values: Values)
    requires PlainKeys(values) && Settled(start, values) && (forall key | key in order :: key in values)
    requires Distinct(order)
    requires forall key | key in values :: key in KeysOf(start) <==> key in present
    ensures Completes(start, Extended(start, present, order, values), order, values)
  {
    ghost var P := (r: seq<string>, done: seq<string>) => Completes(start, r, done, values);
    forall r, done, key | P(r, done) && key in values && key !in done
      ensures P(Next(r, present, key, values), done + [key])
    {
      NextCompletes(start, present, r, done, key, values);
    }
    ExtendedKeeps(P, start, present, order, values);
  }

  /** Afterwards each named setting has one line, the new one, and the other lines are as they were, in order. */
  lemma OutputIsRight(lines: seq<string>, order: seq<string>, values: Values)
    requires PlainKeys(values) && Orders(order, values)
    ensures var r := Output(lines, order, values);
            && Settled(r, values) && (forall key | key in values :: key in KeysOf(r))
            && Others(r, values) == Others(lines, values)
  {
    RewrittenSettles(lines, values);
    ExtendedCompletes(Rewritten(lines, values), KeysOf(lines), order, values);
  }

  lemma {:induction false} SettledStays(lines: seq<string>, values: Values)
    requires Settled(lines, values)
    ensures Rewritten(lines, values) == lines
  {
    if lines != [] {
      SettledStays(lines[..|lines| - 1], values);
    }
  }

  lemma {:induction false} NothingToAppend(start: seq<string>, present: set<string>, order: seq<string>, values: Values)
    requires forall key | key in order :: key in values && key in present
    ensures Extended(start, present, order, values) == start
  {
    if order != [] {
      NothingToAppend(start, present, order[..|order| - 1], values);
    }
  }

  /** Rewriting what was rewritten changes nothing. */
  lemma OutputIsIdempotent(lines: seq<string>, order: seq<string>, values: Values)
    requires PlainKeys(values) && Orders(order, values)
    ensures Output(Output(lines, order, values), order, values) == Output(lines, order, values)
  {
    var r := Output(lines, order, values);
    OutputIsRight(lines, order, values);
    SettledStays(r, values);
    NothingToAppend(r, KeysOf(r), order, values);
  }

  /* ---------- the file ---------- */

  datatype Result = Written(raw: string) | Refused

  ghost function LinesOf(raw: Option<string>): (lines: seq<string>)
    ensures forall line | line in lines :: OneLine(line)
  {
    if raw.Some? then
      CutsAreLines(ReadText(raw.value));
      SplitLines(ReadText(raw.value))
    else []
  }

  /** write_env as a function of the file and the settings. */
  ghost function Rewrite(raw: Option<string>, order: seq<string>, values: Values): string
    requires Orders(order, values)
  {
    var content := Content(Output(LinesOf(raw), order, values));
    if raw.Some? && ReadText(raw.value) == content then raw.value else content
  }

  /** Running it again leaves this file as it is, byte for byte. */
  ghost predicate Stable(raw: Option<string>, order: seq<string>, values: Values)
    requires Orders(order, values)
  {
    Rewrite(Some(Rewrite(raw, order, values)), order, values) == Rewrite(raw, order, values)
  }

  predicate AllName(pieces: seq<string>, key: string) {
    forall piece | piece in pieces :: KeyOf(piece) == key
  }

  /** Each setting is written so that all lines it is read back as name that setting. */
  ghost predicate Contained(values: Values) {
    forall key | key in values :: AllName(Pieces(EnvLine(key, values[key])), key)
  }

  lemma OutputLine(out: seq<string>, lines: seq<string>, values: Values, line: string)
    requires PlainKeys(values) && Settled(out, values) && Others(out, values) == Others(lines, values) && line in out
    requires forall line | line in lines :: OneLine(line)
    ensures '\r' !in line && (KeyOf(line) in values || OneLine(line))
  {
    if KeyOf(line) in values {
      var i :| 0 <= i < |out| && out[i] == line;
      SettledByPosition(out, values, i, i);
      EscapedHasNoReturn(values[KeyOf(line)]);
    } else {
      OtherIsKept(out, values, line);
      OthersAreLines(lines, values, line);
    }
  }

  /** What is written is read as it was put together. */
  lemma OnceReadsAs(raw: Option<string>, out: seq<string>, order: seq<string>, values: Values)
    requires PlainKeys(values) && Orders(order, values) && out == Output(LinesOf(raw), order, values)
    ensures ReadText(Rewrite(raw, order, values)) == Content(out) == ReadText(Content(out))
    ensures forall line | line in out && KeyOf(line) !in values :: OneLine(line)
  {
    OutputIsRight(LinesOf(raw), order, values);
    forall line | line in out ensures '\r' !in line && (KeyOf(line) in values || OneLine(line)) {
      OutputLine(out, LinesOf(raw), values, line);
    }
    ContentIsText(out);
  }

  lemma ContentIsText(lines: seq<string>)
    requires forall line | line in lines :: '\r' !in line
    ensures ReadText(Content(lines)) == Content(lines)
  {
    TerminatedHasNoReturn(lines);
    ReadTextKeepsNewlines(Content(lines));
  }

  lemma {:induction false} EscapedHasNoReturn(value: string)
    ensures '\r' !in Escaped(value)
  {
    if value != "" {
      EscapedHasNoReturn(value[..|value| - 1]);
    }
  }

  lemma {:induction false} OtherIsKept(lines: seq<string>, values: Values, line: string)
    requires line in lines && KeyOf(line) !in values
    ensures line in Others(lines, values)
  {
    if line != lines[|lines| - 1] {
      OtherIsKept(lines[..|lines| - 1], values, line);
    }
  }

  lemma {:induction false} OthersAreLines(lines: seq<string>, values: Values, line: string)
    requires line in Others(lines, values)
    ensures line in lines
  {
    if line != lines[|lines| - 1] {
      OthersAreLines(lines[..|lines| - 1], values, line);
    }
  }

  /* ---------- when the pieces of a setting name it, nothing moves ---------- */

  lemma RewriteOneMore(lines: seq<string>, values: Values, line: string)
    ensures KeysOf(lines + [line]) == KeysOf(lines) + {KeyOf(line)}
    ensures Rewritten(lines + [line], values) ==
            if KeyOf(line) !in values then Rewritten(lines, values) + [line]
            else if KeyOf(line) in KeysOf(lines) then Rewritten(lines, values)
            else Rewritten(lines, values) + [EnvLine(KeyOf(line), values[KeyOf(line)])]
  {
    assert (lines + [line])[..|lines|] == lines;
  }

  lemma {:induction false} PiecesOfOneSetting(lines: seq<string>, pieces: seq<string>, key: string, values: Values)
    requires key in values && key !in KeysOf(lines) && pieces != [] && AllName(pieces, key)
    ensures Rewritten(lines + pieces, values) == Rewritten(lines, values) + [EnvLine(key, values[key])]
    ensures KeysOf(lines + pieces) == KeysOf(lines) + {key}
  {
    var before, piece := pieces[..|pieces| - 1], pieces[|pieces| - 1];
    assert lines + pieces == (lines + before) + [piece];
    RewriteOneMore(lines + before, values, piece);
    if before == [] {
      assert lines + before == lines;
    } else {
      PiecesOfOneSetting(lines, before, key, values);
    }
  }

  lemma NextReadsBack(r: seq<string>, before: seq<string>, line: string, values: Values)
    requires Rewritten(r, values) == before && KeysOf(r) == KeysOf(before) && Contained(values)
    requires if KeyOf(line) !in values then OneLine(line)
             else line == EnvLine(KeyOf(line), values[KeyOf(line)]) && KeyOf(line) !in KeysOf(r)
    ensures Rewritten(r + Pieces(line), values) == before + [line]
    ensures KeysOf(r + Pieces(line)) == KeysOf(before + [line])
  {
    assert (before + [line])[..|before|] == before;
    if KeyOf(line) in values {
      PiecesOfOneSetting(r, Pieces(line), KeyOf(line), values);
    } else {
      OneLineIsOnePiece(line);
      RewriteOneMore(r, values, line);
    }
  }

  lemma {:induction false} ReadBackKeeps(P: (seq<string>, seq<string>) -> bool, lines: seq<string>)
    requires P([], []) && forall r, done, line | P(r, done) && line in lines :: P(r + Pieces(line), done + [line])
    ensures P(ReadBack(lines), lines)
  {
    if lines != [] {
      var before, line := lines[..|lines| - 1], lines[|lines| - 1];
      ReadBackKeeps(P, before);
      assert lines == before + [line];
    }
  }

  lemma ReadBackSettles(lines: seq<string>, values: Values)
    requires Settled(lines, values) && Contained(values)
    requires forall line | line in lines && KeyOf(line) !in values :: OneLine(line)
    ensures Rewritten(ReadBack(lines), values) == lines && KeysOf(ReadBack(lines)) == KeysOf(lines)
  {
    ghost var P := (r: seq<string>, done: seq<string>) =>
      Settled(done, values) ==> Rewritten(r, values) == done && KeysOf(r) == KeysOf(done);
    forall r, done, line | P(r, done) && line in lines ensures P(r + Pieces(line), done + [line]) {
      OneMore(done, values, line);
      if Settled(done + [line], values) {
        NextReadsBack(r, done, line, values);
      }
    }
    ReadBackKeeps(P, lines);
  }

  lemma SettledIsReproduced(out: seq<string>, order: seq<string>, values: Values)
    requires Orders(order, values) && Settled(out, values) && Contained(values) && out != []
    requires forall line | line in out && KeyOf(line) !in values :: OneLine(line)
    requires forall key | key in values :: key in KeysOf(out)
    ensures Output(SplitLines(Content(out)), order, values) == out
  {
    LinesReadBack(out);
    ReadBackSettles(out, values);
    NothingToAppend(out, KeysOf(out), order, values);
  }

  lemma StableIf(raw: Option<string>, out: seq<string>, again: seq<string>, order: seq<string>, values: Values)
    requires Orders(order, values) && out == Output(LinesOf(raw), order, values)
    requires ReadText(Rewrite(raw, order, values)) == Content(out) == ReadText(Content(out))
    requires again == Output(SplitLines(Content(out)), order, values)
    ensures Stable(raw, order, values) <==> Content(again) == Content(out)
  {
  }

  lemma ContainedIsStable(raw: Option<string>, order: seq<string>, values: Values)
    requires PlainKeys(values) && Orders(order, values) && Contained(values)
    ensures Stable(raw, order, values)
  {
    var out := Output(LinesOf(raw), order, values);
    OnceReadsAs(raw, out, order, values);
    OutputIsRight(LinesOf(raw), order, values);
    StableIf(raw, out, Output(SplitLines(Content(out)), order, values), order, values);
    if out == [] {
      EmptyFileStays(out, order, values);
    } else {
      SettledIsReproduced(out, order, values);
    }
  }

  lemma SomeInOrder(order: seq<string>)
    ensures order != [] ==> exists key :: key in order
  {
    if order != [] {
      assert order[0] in order;
    }
  }

  lemma EmptyFileStays(out: seq<string>, order: seq<string>, values: Values)
    requires Orders(order, values) && out == [] && forall key | key in values :: key in KeysOf(out)
    ensures Content(Output(SplitLines(Content(out)), order, values)) == Content(out)
  {
    SomeInOrder(order);
    EmptyLineStays(order, values);
    OneLineIsOnePiece("");
    assert "" + "\n" == "\n";
  }

  /* ---------- when one does not, some file is changed ---------- */

  function Filler(n: nat): (s: string)
    ensures |s| == n && forall c | c in s :: c == '-'
  {
    seq(n, _ => '-')
  }

  lemma {:induction false} BeforeNothing(s: string)
    requires '=' !in s
    ensures Before(s) == s
  {
    if s != "" {
      assert s[0] in s && forall c | c in s[1..] :: c in s;
      BeforeNothing(s[1..]);
    }
  }

  lemma {:induction false} LongerThan(keys: set<string>) returns (n: nat)
    ensures forall key | key in keys :: |key| < n
  {
    if keys == {} {
      n := 0;
    } else {
      var key :| key in keys;
      n := LongerThan(keys - {key});
      n := if |key| < n then n else |key| + 1;
    }
  }

  lemma {:induction false} ExtendedPrefix(start: seq<string>, present: set<string>, order: seq<string>, values: Values)
    requires forall key | key in order :: key in values
    ensures start <= Extended(start, present, order, values)
  {
    if order != [] {
      ExtendedPrefix(start, present, order[..|order| - 1], values);
    }
  }

  lemma {:induction false} RewrittenPrefix(lines: seq<string>, n: nat, values: Values)
    requires n <= |lines|
    ensures Rewritten(lines[..n], values) <= Rewritten(lines, values)
  {
    if n == |lines| {
      assert lines[..n] == lines;
    } else {
      RewrittenPrefix(lines[..|lines| - 1], n, values);
      assert lines[..|lines| - 1][..n] == lines[..n];
    }
  }

  /** The output starts with what its first lines are rewritten to. */
  lemma OutputStarts(lines: seq<string>, n: nat, order: seq<string>, values: Values)
    requires n <= |lines| && Orders(order, values)
    ensures Rewritten(lines[..n], values) <= Output(lines, order, values)
  {
    RewrittenPrefix(lines, n, values);
    ExtendedPrefix(Rewritten(lines, values), KeysOf(lines), order, values);
  }

  /** The first piece of a setting always names it. */
  lemma FirstPieceNames(key: string, value: string)
    requires PlainKey(key)
    ensures var pieces := Pieces(EnvLine(key, value)); pieces != [] && KeyOf(pieces[0]) == key
  {
    var head, tail := key + "=", "\"" + Escaped(value) + "\"";
    var pieces := Pieces(EnvLine(key, value));
    assert EnvLine(key, value) == head + tail;
    HeadComesFirst(head, tail);
    PiecesAreCuts(EnvLine(key, value));
    StartsWithName(key, pieces[0]);
  }

  lemma {:induction false} FirstStray(pieces: seq<string>, key: string) returns (j: nat)
    requires !AllName(pieces, key)
    ensures j < |pieces| && AllName(pieces[..j], key) && KeyOf(pieces[j]) != key
  {
    var before := pieces[..|pieces| - 1];
    if AllName(before, key) {
      j := |before|;
    } else {
      j := FirstStray(before, key);
      assert before[..j] == pieces[..j];
    }
  }

  lemma OneSettingAlone(pieces: seq<string>, key: string, values: Values)
    requires key in values && pieces != [] && AllName(pieces, key)
    ensures Rewritten(pieces, values) == [EnvLine(key, values[key])] && KeysOf(pieces) == {key}
  {
    assert KeysOf([]) == {} && Rewritten([], values) == [];
    PiecesOfOneSetting([], pieces, key, values);
    assert [] + pieces == pieces;
  }

  function Replacement(piece: string, values: Values): string {
    if KeyOf(piece) in values then EnvLine(KeyOf(piece), values[KeyOf(piece)]) else piece
  }

  lemma StrayLine(pieces: seq<string>, j: nat, key: string, values: Values)
    requires 0 < j < |pieces| && AllName(pieces[..j], key) && key in values && KeyOf(pieces[j]) != key
    ensures Rewritten(pieces[..j + 1], values) == [EnvLine(key, values[key])] + [Replacement(pieces[j], values)]
  {
    OneSettingAlone(pieces[..j], key, values);
    RewriteOneMore(pieces[..j], values, pieces[j]);
    assert pieces[..j + 1] == pieces[..j] + [pieces[j]];
  }

  /** A stray piece comes second: as it is, or as the setting it happens to name. */
  lemma StrayComesSecond(key: string, order: seq<string>, values: Values) returns (second: string)
    requires PlainKeys(values) && Orders(order, values) && key in values
    requires !AllName(Pieces(EnvLine(key, values[key])), key)
    ensures forall lines | Pieces(EnvLine(key, values[key])) <= lines ::
              [EnvLine(key, values[key]), second] <= Output(lines, order, values)
  {
    var pieces := Pieces(EnvLine(key, values[key]));
    FirstPieceNames(key, values[key]);
    var j := FirstStray(pieces, key);
    second := Replacement(pieces[j], values);
    StrayLine(pieces, j, key, values);
    forall lines | pieces <= lines ensures [EnvLine(key, values[key]), second] <= Output(lines, order, values) {
      assert lines[..j + 1] == pieces[..j + 1];
      OutputStarts(lines, j + 1, order, values);
    }
  }

  lemma TerminatedPair(a: string, b: string)
    ensures Terminated([a, b]) == a + "\n" + b + "\n"
  {
    assert [a, b][..1] == [a] && [a][..0] == [];
    assert Terminated([a]) == "" + a + "\n";
  }

  lemma PairOfPieces(a: string, b: string)
    requires OneLine(a) && OneLine(b)
    ensures ReadBack([a, b]) == [a, b]
  {
    assert [a, b][..1] == [a];
    PiecesOfOneLine(a);
    OneLineIsOnePiece(a);
    OneLineIsOnePiece(b);
  }

  lemma PairReadsBack(a: string, b: string)
    requires OneLine(a) && OneLine(b)
    ensures ReadText(Terminated([a, b])) == Terminated([a, b]) && SplitLines(Terminated([a, b])) == [a, b]
  {
    forall line | line in [a, b] ensures '\r' !in line {
    }
    ContentIsText([a, b]);
    LinesReadBack([a, b]);
    PairOfPieces(a, b);
  }

  lemma PiecesOfOneLine(line: string)
    ensures ReadBack([line]) == Pieces(line)
  {
    assert [line][..0] == [];
    assert ReadBack([line]) == [] + Pieces(line);
  }

  /** The pieces of the first line of output are the first lines read. */
  lemma FirstPiecesReadBack(lines: seq<string>)
    requires lines != []
    ensures Pieces(lines[0]) <= SplitLines(Content(lines))
  {
    LinesReadBack(lines);
    ReadBackPrefix(lines, 1);
    PiecesOfOneLine(lines[0]);
    assert lines[..1] == [lines[0]];
  }

  /** Files whose second lines have different lengths and no line end in the longer one differ. */
  lemma ContentsDiffer(xs: seq<string>, ys: seq<string>, first: string, a: string, b: string)
    requires [first, a] <= xs && [first, b] <= ys && |a| < |b| && '\n' !in b
    ensures Content(xs) != Content(ys)
  {
    TerminatedPrefix(xs, 2);
    TerminatedPrefix(ys, 2);
    assert xs[..2] == [first, a] && ys[..2] == [first, b];
    TerminatedPair(first, a);
    TerminatedPair(first, b);
    var at := |first| + 1 + |a|;
    assert Content(xs)[at] == (first + "\n" + a + "\n")[at] == '\n';
    assert Content(ys)[at] == (first + "\n" + b + "\n")[at] == b[|a|];
  }

  lemma PairRewritten(first: string, line: string, values: Values)
    requires KeyOf(first) in values && KeyOf(line) !in values
    ensures Rewritten([first, line], values) == [EnvLine(KeyOf(first), values[KeyOf(first)]), line]
  {
    assert KeysOf([]) == {} && Rewritten([], values) == [];
    RewriteOneMore([], values, first);
    assert [] + [first] == [first] && [first] + [line] == [first, line];
    RewriteOneMore([first], values, line);
  }

  /** A file in which the setting comes before a line that is longer than all that could take its place. */
  lemma SettingThenLine(key: string, line: string, order: seq<string>, values: Values)
    requires Orders(order, values) && key in values && KeyOf(line) !in values && PlainKey(key) && OneLine(line)
    ensures [EnvLine(key, values[key]), line] <= Output(LinesOf(Some(Terminated([key + "=", line]))), order, values)
  {
    PairReadsBack(key + "=", line);
    NamedBeforeEquals(key, "");
    assert key + "=" + "" == key + "=";
    PairRewritten(key + "=", line, values);
    var lines := [key + "=", line];
    assert lines[..2] == lines;
    OutputStarts(lines, 2, order, values);
  }

  lemma StraySpoils(key: string, order: seq<string>, values: Values) returns (raw: Option<string>)
    requires PlainKeys(values) && Orders(order, values) && key in values
    requires !AllName(Pieces(EnvLine(key, values[key])), key)
    ensures !Stable(raw, order, values)
  {
    var first := EnvLine(key, values[key]);
    var second := StrayComesSecond(key, order, values);
    var n := LongerThan(values.Keys + {second});
    var line := Filler(n);
    BeforeNothing(line);
    assert KeyOf(line) == line;
    raw := Some(Terminated([key + "=", line]));
    SettingThenLine(key, line, order, values);
    var out := Output(LinesOf(raw), order, values);
    OnceReadsAs(raw, out, order, values);
    FirstPiecesReadBack(out);
    var again := Output(SplitLines(Content(out)), order, values);
    ContentsDiffer(again, out, first, second, line);
    StableIf(raw, out, again, order, values);
  }

  /**
   A second run leaves the file as it is, whatever the file, exactly when no setting is read back as lines that
   name something else.
   */
  lemma RewriteIsIdempotentIff(order: seq<string>, values: Values)
    requires PlainKeys(values) && Orders(order, values)
    ensures (forall raw :: Stable(raw, order, values)) <==> Contained(values)
  {
    if Contained(values) {
      forall raw ensures Stable(raw, order, values) {
        ContainedIsStable(raw, order, values);
      }
    } else {
      var key :| key in values && !AllName(Pieces(EnvLine(key, values[key])), key);
      var raw := StraySpoils(key, order, values);
    }
  }

  /** No value holds a line end that json.dumps lets through. */
  predicate Separable(values: Values) {
    forall key, c | key in values && c in values[key] :: !Unicode(c)
  }

  /** Values free of Unicode line separators are such values. */
  lemma RewriteIsIdempotent(raw: Option<string>, order: seq<string>, values: Values)
    requires PlainKeys(values) && Separable(values) && Orders(order, values)
    ensures Contained(values) && Stable(raw, order, values)
  {
    forall key | key in values ensures AllName(Pieces(EnvLine(key, values[key])), key) {
      EnvLineIsOneLine(key, values[key]);
      OneLineIsOnePiece(EnvLine(key, values[key]));
      EnvLineHasItsKey(key, values[key]);
    }
    ContainedIsStable(raw, order, values);
  }

  lemma EmptyLineStays(order: seq<string>, values: Values)
    requires Orders(order, values) && order == []
    ensures Output([""], order, values) == [""] && Content([""]) == "\n"
  {
    assert forall key :: key !in values;
    assert [""][..0] == [];
    assert Rewritten([""], values) == [] + [""];
  }

  lemma OneSetting(key: string, value: string)
    ensures Output([], [key], map[key := value]) == [EnvLine(key, value)]
  {
    assert [key][..0] == [];
    assert KeysOf([]) == {};
    assert Extended([], {}, [], map[key := value]) == [];
    assert Extended([], {}, [key], map[key := value]) == [] + [EnvLine(key, value)];
  }

  lemma OneSettingAndALine(key: string, value: string, first: string, second: string)
    requires KeyOf(first) == key && KeyOf(second) != key
    ensures Output([first, second], [key], map[key := value]) == [EnvLine(key, value), second]
  {
    var values: Values := map[key := value];
    assert [first, second][..1] == [first] && [first][..0] == [];
    assert KeysOf([]) == {} && KeysOf([first]) == {key};
    assert Rewritten([first], values) == [EnvLine(key, value)];
    assert KeysOf([first, second]) == KeysOf([first]) + {KeyOf(second)};
    assert [key][..0] == [];
    NothingToAppend(Rewritten([first, second], values), KeysOf([first, second]), [key], values);
  }

  lemma OneLineContent(line: string)
    ensures Content([line]) == line + "\n"
  {
    assert [line][..0] == [];
    assert Terminated([line]) == "" + line + "\n";
  }

  lemma SplitAtSeparator(head: string, tail: string)
    requires OneLine(head) && OneLine(tail)
    ensures SplitLines(head + ['\U{2028}'] + (tail + "\n")) == [head, tail]
  {
    OneLineStaysOpen(head);
    CutOneMore(head, '\U{2028}');
    OneLineIsOnePiece(tail);
    PiecesAreCuts(tail);
    CutAfterBreak(head + ['\U{2028}'], tail + "\n");
  }

  /** The line a separator is written on, and the two lines it is read as. */
  lemma SeparatorSplits(key: string, line: string)
    requires PlainKey(key) && line == key + "=\"" + ['\U{2028}'] + "\""
    ensures SplitLines(ReadText(Content([line]))) == [key + "=\"", "\""]
  {
    var head := key + "=\"";
    OneLineContent(line);
    assert Content([line]) == head + ['\U{2028}'] + ("\"" + "\n");
    ReadTextKeepsNewlines(Content([line]));
    SplitAtSeparator(head, "\"");
  }

  lemma HeadHasItsKey(key: string)
    requires PlainKey(key)
    ensures KeyOf(key + "=\"") == key && KeyOf("\"") == "\""
  {
    BeforeEquals(key, "\"");
    assert key + "=\"" == key + "=" + "\"";
    assert "\""[1..] == "";
  }

  /** A separator in a value is written as it is; the next run takes what follows it for a line of its own. */
  lemma SeparatorsPileUp(key: string)
    requires PlainKey(key) && key != "\""
    ensures var values: Values := map[key := ['\U{2028}']];
            var once := Output([], [key], values);
            Output(SplitLines(ReadText(Content(once))), [key], values) == once + ["\""]
  {
    var line := EnvLine(key, ['\U{2028}']);
    SeparatorIsKept();
    OneSetting(key, ['\U{2028}']);
    SeparatorSplits(key, line);
    HeadHasItsKey(key);
    OneSettingAndALine(key, ['\U{2028}'], key + "=\"", "\"");
  }

  lemma SeparatorIsKept()
    ensures Escaped(['\U{2028}']) == ['\U{2028}']
  {
    assert ['\U{2028}'][..0] == "";
    assert Escaped("") == "";
  }

  /** write_env. */
  method WriteEnv(raw: Option<string>, order: seq<string>, values: Values) returns (r: Result)
    requires Orders(order, values)
    ensures r.Refused? <==> exists key :: key in values && !Representable(values[key])
    ensures r.Written? ==> r.raw == Rewrite(raw, order, values)
  {
    var lines := if raw.Some? then SplitLines(ReadText(raw.value)) else [];
    var replaced, pending := ReplaceNamed(lines, values);
    if replaced.None? { return Refused; }
    var extended := AppendPending(replaced.value, KeysOf(lines), order, values);
    if extended.None? { return Refused; }
    var content := Content(extended.value);
    r := Written(if raw.Some? && ReadText(raw.value) == content then raw.value else content);
  }

  method ReplaceNamed(lines: seq<string>, values: Values) returns (r: Option<seq<string>>, pending: set<string>)
    ensures r.None? ==> exists key :: key in values && !Representable(values[key])
    ensures r.Some? ==> r.value == Rewritten(lines, values) && pending == values.Keys - KeysOf(lines)
                        && forall key | key in values && key !in pending :: Representable(values[key])
  {
    pending := values.Keys;
    var output := [];
    for i := 0 to |lines|
      invariant output == Rewritten(lines[..i], values) && pending == values.Keys - KeysOf(lines[..i])
      invariant forall key | key in values && key !in pending :: Representable(values[key])
    {
      var key := KeyOf(lines[i]);
      assert lines[..i + 1][..i] == lines[..i];
      if key in values {
        if key in pending {
          if !Representable(values[key]) { return None, pending; }
          pending := pending - {key};
          output := output + [EnvLine(key, values[key])];
        }
      } else {
        output := output + [lines[i]];
      }
    }
    assert lines[..|lines|] == lines;
    r := Some(output);
  }

  method AppendPending(start: seq<string>, present: set<string>, order: seq<string>, values: Values)
    returns (r: Option<seq<string>>)
    requires forall key | key in order :: key in values
    ensures r.None? ==> exists key :: key in order && !Representable(values[key])
    ensures r.Some? ==> r.value == Extended(start, present, order, values)
                        && forall key | key in order && key !in present :: Representable(values[key])
  {
    var output := start;
    for i := 0 to |order|
      invariant output == Extended(start, present, order[..i], values)
      invariant forall key | key in order[..i] && key !in present :: Representable(values[key])
    {
      assert order[..i + 1][..i] == order[..i];
      if order[i] !in present {
        if !Representable(values[order[i]]) { return None; }
        output := output + [EnvLine(order[i], values[order[i]])];
      }
    }
    assert order[..|order|] == order;
    r := Some(output);
  }
}
