/** The textual tool calls Qwen models write instead of structured ones. */
module QwenToolCalls {
  import opened Wrappers
  import opened Text
  import opened Chat

  // ---- Lines ------------------------------------------------------------------------------------

  /** `split('\n')`. */
  function Split(s: string): (lines: seq<string>)
    ensures lines != []
  {
    if s == "" then [""]
    else
      var rest := Split(s[1..]);
      if s[0] == '\n' then [""] + rest else [[s[0]] + rest[0]] + rest[1..]
  }

  /** `lines()`: no empty last line. Every line is trimmed afterwards, so a carriage return is not looked at here. */
  function Lines(s: string): seq<string> {
    var lines := Split(s);
    if lines[|lines| - 1] == "" then lines[..|lines| - 1] else lines
  }

  function Join(lines: seq<string>): string {
    if lines == [] then "" else if |lines| == 1 then lines[0] else lines[0] + "\n" + Join(lines[1..])
  }

  function TrimAll(lines: seq<string>): (trimmed: seq<string>)
    ensures |trimmed| == |lines| && forall i :: 0 <= i < |lines| ==> trimmed[i] == Trim(lines[i])
  {
    if lines == [] then [] else [Trim(lines[0])] + TrimAll(lines[1..])
  }

  // ---- What the parameters of a call are --------------------------------------------------------

  const PARAMETER := "<parameter="
  const PARAMETER_END := "</parameter>"
  const FUNCTION_END := "</function>"

  predicate IsHeader(line: string) {
    |line| > |PARAMETER| && line[..|PARAMETER|] == PARAMETER && line[|line| - 1] == '>'
  }

  function NameOf(header: string): string
    requires IsHeader(header)
  {
    header[|PARAMETER|..|header| - 1]
  }

  predicate IsTag(line: string) {
    line == PARAMETER_END || line == FUNCTION_END || IsHeader(line)
  }

  /** How many lines come before the next tag. */
  function Run(lines: seq<string>): (n: nat)
    ensures n <= |lines| && (n < |lines| ==> IsTag(lines[n]))
    ensures forall i :: 0 <= i < n ==> !IsTag(lines[i])
  {
    if lines == [] || IsTag(lines[0]) then 0 else 1 + Run(lines[1..])
  }

  datatype Binding = Binding(name: string, value: string)

  /**
   The bindings of trimmed lines, in order: each header binds its name to the text before the next tag, without
   blank text around it. Nothing after the end of the function counts.
   */
  function Bindings(lines: seq<string>): seq<Binding>
    decreases |lines|
  {
    if lines == [] || lines[0] == FUNCTION_END then []
    else if IsHeader(lines[0]) then
      var n := Run(lines[1..]);
      [Binding(NameOf(lines[0]), Trim(Join(lines[1..][..n])))] + Bindings(lines[1..][n..])
    else Bindings(lines[1..])
  }

  predicate HasUnnamed(bindings: seq<Binding>) {
    exists i :: 0 <= i < |bindings| && bindings[i].name == ""
  }

  /** The map of a list of bindings; a later one replaces an earlier one of the same name. */
  function MapOf(bindings: seq<Binding>): map<string, string> {
    if bindings == [] then map[]
    else
      var last := bindings[|bindings| - 1];
      MapOf(bindings[..|bindings| - 1])[last.name := last.value]
  }

  /** The later duplicate wins. */
  lemma {:induction false} LastBindingWins(bindings: seq<Binding>, name: string)
    ensures name in MapOf(bindings) <==> exists i :: 0 <= i < |bindings| && bindings[i].name == name
    ensures forall i :: 0 <= i < |bindings| && bindings[i].name == name
              && (forall k :: i < k < |bindings| ==> bindings[k].name != name)
              ==> name in MapOf(bindings) && MapOf(bindings)[name] == bindings[i].value
  {
    if bindings != [] {
      LastBindingWins(bindings[..|bindings| - 1], name);
    }
  }

  /** What the body of a call means: nothing at all when it binds nothing or binds an empty name. */
  function Parameters(body: string): Option<map<string, string>> {
    var bindings := Bindings(TrimAll(Lines(body)));
    if bindings == [] || HasUnnamed(bindings) then None else Some(MapOf(bindings))
  }

  // ---- The parser -------------------------------------------------------------------------------

  /** A value under construction: blank lines are ignored until something has been collected. */
  function Collect(value: string, line: string): string {
    if value == "" then line else value + "\n" + line
  }

  function Collected(lines: seq<string>): string {
    if lines == [] then "" else Collect(Collected(lines[..|lines| - 1]), lines[|lines| - 1])
  }

  /** The bindings still to come while a parameter may be open with some lines already collected. */
  function Pending(open: Option<string>, collected: seq<string>, rest: seq<string>): seq<Binding> {
    match open
    case None => Bindings(rest)
    case Some(name) =>
      var n := Run(rest);
      [Binding(name, Trim(Join(collected + rest[..n])))] + Bindings(rest[n..])
  }

  lemma {:induction false} JoinAppend(lines: seq<string>, line: string)
    ensures Join(lines + [line]) == if lines == [] then line else Join(lines) + "\n" + line
  {
    if |lines| > 1 {
      JoinAppend(lines[1..], line);
      assert (lines + [line])[1..] == lines[1..] + [line];
    } else if |lines| == 1 {
      assert (lines + [line])[1..] == [line];
    } else {
      assert lines + [line] == [line];
    }
  }

  /** One more line, collected or joined. */
  lemma CollectStep(collected: string, joined: string, line: string)
    requires TrimStart(collected) == TrimStart(joined) && (collected == "" ==> Blank(joined))
    ensures TrimStart(Collect(collected, line)) == TrimStart(joined + "\n" + line)
    ensures Collect(collected, line) == "" ==> Blank(joined + "\n" + line)
  {
    if collected == "" {
      SkipBlank(joined + "\n", line);
    } else {
      TrimStartAppend(collected, joined, "\n" + line);
      assert collected + ("\n" + line) == collected + "\n" + line;
      assert joined + ("\n" + line) == joined + "\n" + line;
    }
  }

  /** Ignoring the blank lines at the front changes nothing that trimming would leave. */
  lemma {:induction false} CollectedTrims(lines: seq<string>)
    ensures TrimStart(Collected(lines)) == TrimStart(Join(lines))
    ensures Collected(lines) == "" ==> Blank(Join(lines))
  {
    if lines != [] {
      var front, last := lines[..|lines| - 1], lines[|lines| - 1];
      CollectedTrims(front);
      JoinAppend(front, last);
      assert front + [last] == lines;
      if front != [] {
        CollectStep(Collected(front), Join(front), last);
      }
    }
  }

  lemma {:induction false} SkipBlank(blank: string, s: string)
    requires Blank(blank)
    ensures TrimStart(blank + s) == TrimStart(s)
    ensures s == "" ==> Blank(blank + s)
  {
    if blank == "" {
      assert blank + s == s;
    } else {
      assert (blank + s)[1..] == blank[1..] + s;
      SkipBlank(blank[1..], s);
    }
  }

  lemma TrimStartAppend(a: string, b: string, s: string)
    requires TrimStart(a) == TrimStart(b)
    ensures TrimStart(a + s) == TrimStart(b + s)
  {
    TrimStartFront(a, s);
    TrimStartFront(b, s);
  }

  lemma {:induction false} TrimStartFront(a: string, s: string)
    ensures TrimStart(a + s) == if Blank(a) then TrimStart(s) else TrimStart(a) + s
    ensures Blank(a) <==> TrimStart(a) == ""
  {
    if a == "" {
      assert a + s == s;
    } else if IsWhitespace(a[0]) {
      assert (a + s)[1..] == a[1..] + s;
      TrimStartFront(a[1..], s);
      assert Blank(a[1..]) ==> Blank(a) by {
        assert forall i :: 1 <= i < |a| ==> a[i] == a[1..][i - 1];
      }
    }
  }

  /** The parser's variables before line `i`: `done` are the bindings closed so far. */
  ghost predicate Parsing(all: seq<string>, i: nat, parameters: map<string, string>, name: Option<string>,
                          value: string, done: seq<Binding>, collected: seq<string>)
    requires i <= |all|
  {
    && Bindings(all) == done + Pending(name, collected, all[i..])
    && parameters == MapOf(done) && !HasUnnamed(done)
    && match name
       case None => value == ""
       case Some(open) => open != "" && value == Collected(collected)
  }

  lemma AppendBinding(bindings: seq<Binding>, last: Binding)
    requires !HasUnnamed(bindings) && last.name != ""
    ensures !HasUnnamed(bindings + [last])
    ensures MapOf(bindings + [last]) == MapOf(bindings)[last.name := last.value]
  {
    assert (bindings + [last])[..|bindings|] == bindings;
  }

  lemma PendingAtTag(name: string, collected: seq<string>, rest: seq<string>)
    requires rest == [] || IsTag(rest[0])
    ensures Pending(Some(name), collected, rest) == [Binding(name, Trim(Join(collected)))] + Bindings(rest)
  {
    assert collected + rest[..0] == collected && rest[0..] == rest;
  }

  /** A tag, or the end, closes the open parameter. */
  lemma Flush(all: seq<string>, i: nat, parameters: map<string, string>, name: string, value: string,
              done: seq<Binding>, collected: seq<string>) returns (bound: seq<Binding>)
    requires i <= |all| && Parsing(all, i, parameters, Some(name), value, done, collected)
    requires i == |all| || IsTag(all[i])
    ensures Parsing(all, i, parameters[name := Trim(value)], None, "", bound, [])
  {
    var rest := all[i..];
    CollectedTrims(collected);
    var closed := Binding(name, Trim(value));
    PendingAtTag(name, collected, rest);
    AppendBinding(done, closed);
    bound := done + [closed];
    assert done + ([closed] + Bindings(rest)) == bound + Bindings(rest);
  }

  /** Outside a parameter only a header matters. */
  lemma Skip(all: seq<string>, i: nat, parameters: map<string, string>, done: seq<Binding>)
    requires i < |all| && Parsing(all, i, parameters, None, "", done, [])
    requires all[i] != FUNCTION_END && !IsHeader(all[i])
    ensures Parsing(all, i + 1, parameters, None, "", done, [])
  {
    assert all[i..][1..] == all[i + 1..];
  }

  lemma EndTagsAreNoHeaders()
    ensures !IsHeader(PARAMETER_END) && !IsHeader(FUNCTION_END)
  {
    assert PARAMETER[1] == 'p' && PARAMETER_END[1] == '/' && FUNCTION_END[1] == '/';
    assert forall line: string :: IsHeader(line) ==> line[..|PARAMETER|][1] == 'p';
  }

  lemma OpenParameter(all: seq<string>, i: nat, parameters: map<string, string>, done: seq<Binding>)
    requires i < |all| && Parsing(all, i, parameters, None, "", done, []) && IsHeader(all[i])
    ensures NameOf(all[i]) != "" ==> Parsing(all, i + 1, parameters, Some(NameOf(all[i])), "", done, [])
    ensures NameOf(all[i]) == "" ==> HasUnnamed(Bindings(all))
  {
    var rest := all[i..][1..];
    assert rest == all[i + 1..];
    assert [] + rest[..Run(rest)] == rest[..Run(rest)];
    assert Bindings(all)[|done|].name == NameOf(all[i]);
  }

  lemma AddLine(all: seq<string>, i: nat, parameters: map<string, string>, name: string, value: string,
                done: seq<Binding>, collected: seq<string>)
    requires i < |all| && Parsing(all, i, parameters, Some(name), value, done, collected) && !IsTag(all[i])
    ensures Parsing(all, i + 1, parameters, Some(name), Collect(value, all[i]), done, collected + [all[i]])
  {
    PendingGrows(name, collected, all[i], all[i + 1..]);
    assert all[i..] == [all[i]] + all[i + 1..];
    assert (collected + [all[i]])[..|collected|] == collected;
  }

  /** A line that is no tag belongs to the open parameter, whether it is still ahead or already collected. */
  lemma PendingGrows(name: string, collected: seq<string>, line: string, rest: seq<string>)
    requires !IsTag(line)
    ensures Pending(Some(name), collected, [line] + rest) == Pending(Some(name), collected + [line], rest)
  {
    var ahead, n := [line] + rest, Run(rest);
    assert ahead[1..] == rest;
    assert collected + ahead[..n + 1] == (collected + [line]) + rest[..n];
    assert ahead[n + 1..] == rest[n..];
  }

  lemma Conclude(body: string, i: nat, parameters: map<string, string>, done: seq<Binding>)
    requires i <= |Lines(body)| && Parsing(TrimAll(Lines(body)), i, parameters, None, "", done, [])
    requires i == |Lines(body)| || TrimAll(Lines(body))[i] == FUNCTION_END
    ensures Parameters(body) == if parameters == map[] then None else Some(parameters)
  {
    assert Bindings(TrimAll(Lines(body))) == done;
    if done != [] {
      assert done[|done| - 1].name in parameters;
    }
  }

  /** What the parser does at every tag and at the end: the open parameter, if any, is inserted. */
  method CloseParameter(parameters: map<string, string>, name: Option<string>, value: string, ghost all: seq<string>,
                        ghost i: nat, ghost done: seq<Binding>, ghost collected: seq<string>)
      returns (closed: map<string, string>, ghost bound: seq<Binding>)
    requires i <= |all| && Parsing(all, i, parameters, name, value, done, collected)
    requires name.None? ==> collected == []
    requires i == |all| || IsTag(all[i])
    ensures Parsing(all, i, closed, None, "", bound, [])
    ensures closed == if name.Some? then parameters[name.value := Trim(value)] else parameters
  {
    closed, bound := parameters, done;
    if name.Some? {
      bound := Flush(all, i, parameters, name.value, value, done, collected);
      closed := parameters[name.value := Trim(value)];
    }
  }

  /** `parse_qwen_parameters` finds exactly the parameters the body means. */
  method ParseParameters(body: string) returns (parsed: Option<map<string, string>>)
    ensures parsed == Parameters(body)
  {
    var parameters, currentName: Option<string>, currentValue := map[], None, "";
    var lines := Lines(body);
    ghost var all, done, collected := TrimAll(lines), [], [];
    assert all[0..] == all;
    EndTagsAreNoHeaders();
    var i := 0;
    while i < |lines|
      invariant 0 <= i <= |lines| && Parsing(all, i, parameters, currentName, currentValue, done, collected)
      invariant currentName.None? ==> collected == [] && currentValue == ""
    {
      var line := Trim(lines[i]);
      if line == FUNCTION_END {
        break;
      }
      if line == PARAMETER_END {
        parameters, done := CloseParameter(parameters, currentName, currentValue, all, i, done, collected);
        currentName, currentValue, collected := None, "", [];
        Skip(all, i, parameters, done);
      } else if IsHeader(line) {
        parameters, done := CloseParameter(parameters, currentName, currentValue, all, i, done, collected);
        OpenParameter(all, i, parameters, done);
        currentName, currentValue, collected := Some(NameOf(line)), "", [];
        if NameOf(line) == "" {
          return None;
        }
      } else if currentName.Some? {
        AddLine(all, i, parameters, currentName.value, currentValue, done, collected);
        currentValue, collected := Collect(currentValue, line), collected + [line];
      } else {
        Skip(all, i, parameters, done);
      }
      i := i + 1;
    }
    parameters, done := CloseParameter(parameters, currentName, currentValue, all, i, done, collected);
    Conclude(body, i, parameters, done);
    parsed := if parameters == map[] then None else Some(parameters);
  }

  // ---- Reading back what was written ------------------------------------------------------------

  /** A parameter as a model writes it, with or without its closing tag. */
  datatype Written = Written(name: string, value: string, closed: bool)

  function Render(w: Written): string {
    Header(w.name) + "\n" + w.value + "\n" + Closing(w.closed)
  }

  function Header(name: string): string {
    PARAMETER + name + ">"
  }

  function Closing(closed: bool): string {
    if closed then PARAMETER_END + "\n" else ""
  }

  function RenderAll(ws: seq<Written>, tail: string): string {
    if ws == [] then tail else Render(ws[0]) + RenderAll(ws[1..], tail)
  }

  /** A name fits on its line, and no line of the value reads as a tag. */
  predicate Writable(w: Written) {
    && w.name != "" && '\n' !in w.name
    && forall i :: 0 <= i < |Split(w.value)| ==> !IsTag(Trim(Split(w.value)[i]))
  }

  /** What may follow the last parameter: nothing, or the end of the function and then anything. */
  predicate IsTail(tail: string) {
    tail == "" || FUNCTION_END + "\n" <= tail
  }

  /** A value as it is read: each line trimmed, and no blank lines around it. */
  function Tidy(value: string): string {
    Trim(Join(TrimAll(Split(value))))
  }

  function Meant(ws: seq<Written>): (bindings: seq<Binding>)
    ensures |bindings| == |ws|
    ensures forall i :: 0 <= i < |ws| ==> bindings[i] == Binding(ws[i].name, Tidy(ws[i].value))
  {
    if ws == [] then [] else [Binding(ws[0].name, Tidy(ws[0].value))] + Meant(ws[1..])
  }

  lemma {:induction false} SplitAppend(a: string, b: string)
    ensures Split(a + "\n" + b) == Split(a) + Split(b)
  {
    var s := a + "\n" + b;
    if a == "" {
      assert s[1..] == b;
    } else {
      assert s[1..] == a[1..] + "\n" + b;
      SplitAppend(a[1..], b);
    }
  }

  lemma LinesAppend(a: string, b: string)
    ensures Lines(a + "\n" + b) == Split(a) + Lines(b)
  {
    SplitAppend(a, b);
  }

  lemma {:induction false} SplitOneLine(line: string)
    requires '\n' !in line
    ensures Split(line) == [line]
  {
    if line != "" {
      SplitOneLine(line[1..]);
      assert line == [line[0]] + line[1..];
    }
  }

  lemma {:induction false} JoinSplit(s: string)
    ensures Join(Split(s)) == s
  {
    if s != "" {
      JoinSplit(s[1..]);
      var rest := Split(s[1..]);
      if s[0] == '\n' {
        assert ([""] + rest)[1..] == rest;
      } else {
        assert ([[s[0]] + rest[0]] + rest[1..])[1..] == rest[1..];
      }
    }
  }

  /** A value without blank text around it or around its lines is read exactly as it was written. */
  lemma TidyValue(value: string)
    requires Trimmed(value) && forall i :: 0 <= i < |Split(value)| ==> Trimmed(Split(value)[i])
    ensures Tidy(value) == value
  {
    forall i | 0 <= i < |Split(value)|
      ensures Trim(Split(value)[i]) == Split(value)[i]
    {
      TrimTrimmed(Split(value)[i]);
    }
    assert TrimAll(Split(value)) == Split(value);
    JoinSplit(value);
    TrimTrimmed(value);
  }

  lemma {:induction false} TrimAllAppend(a: seq<string>, b: seq<string>)
    ensures TrimAll(a + b) == TrimAll(a) + TrimAll(b)
  {
    if a == [] {
      assert a + b == b;
    } else {
      assert (a + b)[1..] == a[1..] + b;
      TrimAllAppend(a[1..], b);
    }
  }

  /** A line of its own is read as itself. */
  lemma TrimmedLine(line: string, rest: string)
    requires '\n' !in line && Trimmed(line)
    ensures TrimAll(Lines(line + "\n" + rest)) == [line] + TrimAll(Lines(rest))
  {
    LinesAppend(line, rest);
    SplitOneLine(line);
    TrimTrimmed(line);
    assert ([line] + Lines(rest))[1..] == Lines(rest);
  }

  lemma HeaderLine(name: string)
    requires name != "" && '\n' !in name
    ensures IsHeader(Header(name)) && NameOf(Header(name)) == name
    ensures Trimmed(Header(name)) && '\n' !in Header(name)
  {
    assert '\n' !in PARAMETER;
  }

  lemma EndTagLines()
    ensures Trimmed(PARAMETER_END) && '\n' !in PARAMETER_END && IsTag(PARAMETER_END)
    ensures Trimmed(FUNCTION_END) && '\n' !in FUNCTION_END && IsTag(FUNCTION_END)
    ensures PARAMETER_END != FUNCTION_END
  {
    assert PARAMETER_END[2] == 'p' && FUNCTION_END[2] == 'f';
  }

  function ClosingTag(closed: bool): seq<string> {
    if closed then [PARAMETER_END] else []
  }

  lemma ClosingLines(closed: bool, rest: string)
    ensures TrimAll(Lines(Closing(closed) + rest)) == ClosingTag(closed) + TrimAll(Lines(rest))
  {
    if closed {
      EndTagLines();
      TrimmedLine(PARAMETER_END, rest);
    } else {
      assert Closing(closed) + rest == rest;
    }
  }

  /** The trimmed lines of one written parameter followed by more text. */
  lemma RenderedLines(w: Written, rest: string)
    requires Writable(w)
    ensures TrimAll(Lines(Render(w) + rest)) ==
            [Header(w.name)] + (TrimAll(Split(w.value)) + (ClosingTag(w.closed) + TrimAll(Lines(rest))))
  {
    var header, ending := Header(w.name), Closing(w.closed) + rest;
    assert Render(w) + rest == header + "\n" + (w.value + "\n" + ending);
    HeaderLine(w.name);
    TrimmedLine(header, w.value + "\n" + ending);
    LinesAppend(w.value, ending);
    TrimAllAppend(Split(w.value), Lines(ending));
    ClosingLines(w.closed, rest);
  }

  lemma {:induction false} RunStops(plain: seq<string>, rest: seq<string>)
    requires forall i :: 0 <= i < |plain| ==> !IsTag(plain[i])
    requires rest == [] || IsTag(rest[0])
    ensures Run(plain + rest) == |plain|
  {
    if plain == [] {
      assert plain + rest == rest;
    } else {
      assert (plain + rest)[1..] == plain[1..] + rest;
      RunStops(plain[1..], rest);
    }
  }

  lemma ClosingBindsNothing(closed: bool, rest: seq<string>)
    requires rest == [] || IsTag(rest[0])
    ensures Bindings(ClosingTag(closed) + rest) == Bindings(rest)
    ensures ClosingTag(closed) + rest == [] || IsTag((ClosingTag(closed) + rest)[0])
  {
    if closed {
      EndTagLines();
      EndTagsAreNoHeaders();
      assert (ClosingTag(closed) + rest)[1..] == rest;
    } else {
      assert ClosingTag(closed) + rest == rest;
    }
  }

  /** A header binds its name to the lines before the next tag, which go on binding. */
  lemma BindOne(header: string, plain: seq<string>, rest: seq<string>)
    requires IsHeader(header) && (forall i :: 0 <= i < |plain| ==> !IsTag(plain[i]))
    requires rest == [] || IsTag(rest[0])
    ensures Bindings([header] + (plain + rest)) == [Binding(NameOf(header), Trim(Join(plain)))] + Bindings(rest)
  {
    EndTagsAreNoHeaders();
    var lines := [header] + (plain + rest);
    assert lines[1..] == plain + rest;
    RunStops(plain, rest);
    assert lines[1..][..|plain|] == plain && lines[1..][|plain|..] == rest;
  }

  lemma TailLines(tail: string)
    requires IsTail(tail)
    ensures Bindings(TrimAll(Lines(tail))) == []
    ensures TrimAll(Lines(tail)) == [] || IsTag(TrimAll(Lines(tail))[0])
  {
    if tail != "" {
      var rest := tail[|FUNCTION_END + "\n"|..];
      assert tail == FUNCTION_END + "\n" + rest;
      EndTagLines();
      TrimmedLine(FUNCTION_END, rest);
    }
  }

  /** One written parameter binds its name to its tidied value, and what follows goes on binding. */
  lemma BindRendered(w: Written, rest: string)
    requires Writable(w) && (TrimAll(Lines(rest)) == [] || IsTag(TrimAll(Lines(rest))[0]))
    ensures var lines := TrimAll(Lines(Render(w) + rest));
            && lines != [] && IsTag(lines[0])
            && Bindings(lines) == [Binding(w.name, Tidy(w.value))] + Bindings(TrimAll(Lines(rest)))
  {
    var after := TrimAll(Lines(rest));
    RenderedLines(w, rest);
    HeaderLine(w.name);
    ClosingBindsNothing(w.closed, after);
    BindOne(Header(w.name), TrimAll(Split(w.value)), ClosingTag(w.closed) + after);
  }

  lemma {:induction false} RenderedBindings(ws: seq<Written>, tail: string)
    requires IsTail(tail) && forall i :: 0 <= i < |ws| ==> Writable(ws[i])
    ensures Bindings(TrimAll(Lines(RenderAll(ws, tail)))) == Meant(ws)
    ensures TrimAll(Lines(RenderAll(ws, tail))) == [] || IsTag(TrimAll(Lines(RenderAll(ws, tail)))[0])
  {
    if ws == [] {
      TailLines(tail);
    } else {
      RenderedBindings(ws[1..], tail);
      BindRendered(ws[0], RenderAll(ws[1..], tail));
    }
  }

  /**
   Any non-empty list of written parameters is read back, whether or not each is closed and whatever follows the
   end of the function: blank lines inside a value stay, those around it go, and a later duplicate wins.
   */
  lemma ParametersComeBack(ws: seq<Written>, tail: string)
    requires ws != [] && IsTail(tail) && forall i :: 0 <= i < |ws| ==> Writable(ws[i])
    ensures Parameters(RenderAll(ws, tail)) == Some(MapOf(Meant(ws)))
  {
    RenderedBindings(ws, tail);
  }

  /** The parameters written are those of a map, each at least once. */
  ghost predicate Lists(ws: seq<Written>, parameters: map<string, string>) {
    && (forall i :: 0 <= i < |ws| ==> ws[i].name in parameters && parameters[ws[i].name] == ws[i].value)
    && (forall name :: name in parameters ==> exists i :: 0 <= i < |ws| && ws[i].name == name)
  }

  /** Rendering a map of plain values, in any order, and parsing it gives the same map back. */
  lemma MapComesBack(ws: seq<Written>, tail: string, parameters: map<string, string>)
    requires ws != [] && IsTail(tail) && Lists(ws, parameters)
    requires forall i :: 0 <= i < |ws| ==> Writable(ws[i]) && Trimmed(ws[i].value)
    requires forall i, k :: 0 <= i < |ws| && 0 <= k < |Split(ws[i].value)| ==> Trimmed(Split(ws[i].value)[k])
    ensures Parameters(RenderAll(ws, tail)) == Some(parameters)
  {
    ParametersComeBack(ws, tail);
    forall i | 0 <= i < |ws|
      ensures Meant(ws)[i] == Binding(ws[i].name, ws[i].value)
    {
      TidyValue(ws[i].value);
    }
    CoveringBindings(ws, Meant(ws), parameters);
  }

  lemma {:induction false} CoveringBindings(ws: seq<Written>, bindings: seq<Binding>, parameters: map<string, string>)
    requires Lists(ws, parameters) && |bindings| == |ws|
    requires forall i :: 0 <= i < |ws| ==> bindings[i] == Binding(ws[i].name, ws[i].value)
    ensures MapOf(bindings) == parameters
  {
    AgreeingBindings(bindings, parameters);
    forall name | name in parameters
      ensures name in MapOf(bindings)
    {
      var i :| 0 <= i < |ws| && ws[i].name == name;
      LastBindingWins(bindings, name);
      assert bindings[i].name == name;
    }
  }

  lemma {:induction false} AgreeingBindings(bindings: seq<Binding>, parameters: map<string, string>)
    requires forall i :: 0 <= i < |bindings| ==>
               bindings[i].name in parameters && bindings[i].value == parameters[bindings[i].name]
    ensures forall name :: name in MapOf(bindings) ==> name in parameters && MapOf(bindings)[name] == parameters[name]
  {
    if bindings != [] {
      AgreeingBindings(bindings[..|bindings| - 1], parameters);
    }
  }

  // ---- The call inside a message ----------------------------------------------------------------

  const FUNCTION := "<function="
  const CALL_END := "</tool_call>"
  const CALL_START := "<tool_call>"

  predicate OccursAt(s: string, pattern: string, i: nat) {
    i + |pattern| <= |s| && s[i..i + |pattern|] == pattern
  }

  predicate Lacks(s: string, pattern: string) {
    forall i :: 0 <= i < |s| ==> !OccursAt(s, pattern, i)
  }

  /** `find`: the first occurrence. */
  function Find(s: string, pattern: string): (at: Option<nat>)
    requires pattern != ""
    ensures at.Some? ==> OccursAt(s, pattern, at.value) && forall i :: 0 <= i < at.value ==> !OccursAt(s, pattern, i)
    ensures at.None? ==> Lacks(s, pattern)
  {
    FindFrom(s, pattern, 0)
  }

  function FindFrom(s: string, pattern: string, from: nat): (at: Option<nat>)
    requires pattern != "" && from <= |s|
    ensures at.Some? ==> from <= at.value && OccursAt(s, pattern, at.value)
    ensures at.Some? ==> forall i :: from <= i < at.value ==> !OccursAt(s, pattern, i)
    ensures at.None? ==> forall i :: from <= i < |s| ==> !OccursAt(s, pattern, i)
    decreases |s| - from
  {
    if OccursAt(s, pattern, from) then Some(from)
    else if from == |s| then None
    else FindFrom(s, pattern, from + 1)
  }

  /** The text on both sides of the first occurrence. */
  function Cut(s: string, pattern: string): Option<(string, string)>
    requires pattern != ""
  {
    match Find(s, pattern)
    case None => None
    case Some(i) => Some((s[..i], s[i + |pattern|..]))
  }

  /** A pattern whose first character occurs nowhere else in it cannot overlap itself. */
  predicate NoOverlap(pattern: string) {
    pattern != "" && forall k :: 0 < k < |pattern| ==> pattern[k] != pattern[0]
  }

  lemma NoneBefore(a: string, pattern: string, b: string)
    requires NoOverlap(pattern) && Lacks(a, pattern)
    ensures forall i :: 0 <= i < |a| ==> !OccursAt(a + pattern + b, pattern, i)
  {
    var s := a + pattern + b;
    forall i | 0 <= i < |a|
      ensures !OccursAt(s, pattern, i)
    {
      if i + |pattern| <= |a| {
        assert s[i..i + |pattern|] == a[i..i + |pattern|];
        assert !OccursAt(a, pattern, i);
      } else if i + |pattern| <= |s| {
        assert s[|a|] == pattern[0] && s[|a|] == s[i..i + |pattern|][|a| - i];
      }
    }
  }

  /** Cutting is undone by writing the pattern back, and cuts nowhere but at the first occurrence. */
  lemma CutIsExact(s: string, pattern: string, front: string, back: string)
    requires NoOverlap(pattern)
    ensures Cut(s, pattern) == Some((front, back)) <==> s == front + pattern + back && Lacks(front, pattern)
  {
    if s == front + pattern + back && Lacks(front, pattern) {
      NoneBefore(front, pattern, back);
      assert OccursAt(s, pattern, |front|);
      assert Find(s, pattern) == Some(|front|);
      assert s[..|front|] == front && s[|front| + |pattern|..] == back;
    }
    if Cut(s, pattern) == Some((front, back)) {
      assert Find(s, pattern) == Some(|front|);
      var i := Find(s, pattern).value;
      assert front == s[..i] && back == s[i + |pattern|..] && pattern == s[i..i + |pattern|];
      assert s == front + pattern + back;
      LacksPrefix(s, pattern, i);
    }
  }

  lemma LacksPrefix(s: string, pattern: string, n: nat)
    requires pattern != "" && Find(s, pattern) == Some(n)
    ensures Lacks(s[..n], pattern)
  {
    forall i | 0 <= i < n
      ensures !OccursAt(s[..n], pattern, i)
    {
      assert !OccursAt(s, pattern, i);
      if i + |pattern| <= n {
        assert s[..n][i..i + |pattern|] == s[i..i + |pattern|];
      }
    }
  }

  /** The pieces of a message that holds a call. */
  datatype Call = Call(before: string, name: string, body: string, marker: string, after: string) {
    function Content(): string {
      before + FUNCTION + (name + ">" + Ending())
    }

    function Ending(): string {
      body + marker + after
    }
  }

  /** The pieces fit: each delimiter is the first of its kind where it is looked for. */
  predicate Fits(call: Call) {
    && Lacks(call.before, FUNCTION) && Lacks(call.name, ">") && Lacks(call.body, call.marker)
    && (call.marker == CALL_END || (call.marker == CALL_START && Cut(call.Ending(), CALL_END).None?))
  }

  /** The body ends at the closing marker, or else at a second opening one. */
  function CutBody(remaining: string): Option<(string, string, string)> {
    match Cut(remaining, CALL_END)
    case Some((body, after)) => Some((body, CALL_END, after))
    case None =>
      match Cut(remaining, CALL_START)
      case Some((body, after)) => Some((body, CALL_START, after))
      case None => None
  }

  function SplitCall(content: string): Option<Call> {
    match Cut(content, FUNCTION)
    case None => None
    case Some((before, afterStart)) =>
      match Cut(afterStart, ">")
      case None => None
      case Some((name, remaining)) =>
        match CutBody(remaining)
        case None => None
        case Some((body, marker, after)) => Some(Call(before, name, body, marker, after))
  }

  lemma Delimiters()
    ensures NoOverlap(FUNCTION) && NoOverlap(">") && NoOverlap(CALL_END) && NoOverlap(CALL_START)
    ensures CALL_END != CALL_START
  {
    assert CALL_END[1] == '/' && CALL_START[1] == 't';
  }

  lemma CutBodyIsExact(remaining: string, body: string, marker: string, after: string)
    ensures CutBody(remaining) == Some((body, marker, after)) <==>
            && remaining == body + marker + after && Lacks(body, marker)
            && (marker == CALL_END || (marker == CALL_START && Cut(remaining, CALL_END).None?))
  {
    Delimiters();
    CutIsExact(remaining, CALL_END, body, after);
    CutIsExact(remaining, CALL_START, body, after);
  }

  /** Exactly the messages that consist of fitting pieces hold a call, and no text of theirs is lost. */
  lemma SplitCallIsExact(content: string, call: Call)
    ensures SplitCall(content) == Some(call) <==> Fits(call) && call.Content() == content
  {
    Delimiters();
    var rest := call.name + ">" + call.Ending();
    CutIsExact(content, FUNCTION, call.before, rest);
    CutIsExact(rest, ">", call.name, call.Ending());
    CutBodyIsExact(call.Ending(), call.body, call.marker, call.after);
    if SplitCall(content) == Some(call) {
      var afterStart := Cut(content, FUNCTION).value.1;
      var remaining := Cut(afterStart, ">").value.1;
      CutIsExact(content, FUNCTION, call.before, afterStart);
      CutIsExact(afterStart, ">", call.name, remaining);
      CutBodyIsExact(remaining, call.body, call.marker, call.after);
    }
  }

  // ---- The normalised message -------------------------------------------------------------------

  datatype Parsed = Parsed(toolCall: ToolCall, remaining: string)

  /** The text around a call, each side trimmed, on two lines when both sides have some. */
  function Around(before: string, after: string): string {
    if Blank(before) then Trim(after) else if Blank(after) then Trim(before) else Trim(before) + "\n" + Trim(after)
  }

  /** What the pieces of a call mean; a call without a name or without parameters is none. */
  function Meaning(call: Call): Option<Parsed> {
    var parameters := Parameters(call.body);
    if Blank(call.name) || parameters.None? then None
    else Some(Parsed(ToolCall("qwen-tool-call-0", "function", Trim(call.name), Rendered(parameters.value)),
                     Around(call.before, call.after)))
  }

  function ToolCallOf(content: string): Option<Parsed> {
    match SplitCall(content)
    case None => None
    case Some(call) => Meaning(call)
  }

  /** `parse_qwen_tool_call`. */
  method ParseToolCall(content: string) returns (parsed: Option<Parsed>)
    ensures parsed == ToolCallOf(content)
  {
    var start := Cut(content, FUNCTION);
    if start.None? {
      return None;
    }
    var (before, afterStart) := start.value;
    var nameEnd := Cut(afterStart, ">");
    if nameEnd.None? {
      return None;
    }
    var (name, remaining) := nameEnd.value;
    BlankTrims(name);
    if Trim(name) == "" {
      return None;
    }
    var bodyEnd := CutBody(remaining);
    if bodyEnd.None? {
      return None;
    }
    var (body, _, after) := bodyEnd.value;
    var parameters := ParseParameters(body);
    if parameters.None? {
      return None;
    }
    var text := Surroundings(before, after);
    parsed := Some(Parsed(ToolCall("qwen-tool-call-0", "function", Trim(name), Rendered(parameters.value)), text));
  }

  /** The four cases of the remaining text. */
  method Surroundings(before0: string, after0: string) returns (text: string)
    ensures text == Around(before0, after0)
  {
    BlankTrims(before0);
    BlankTrims(after0);
    var before, after := Trim(before0), Trim(after0);
    if before == "" && after == "" {
      text := "";
    } else if after == "" {
      text := before;
    } else if before == "" {
      text := after;
    } else {
      text := before + "\n" + after;
    }
  }

  lemma BlankTrims(s: string)
    ensures Trim(s) == "" <==> Blank(s)
  {
    TrimStartFront(s, "");
    var _ := TrimStartSplits(s);
    TrimEndSplits(TrimStart(s));
  }

  function Normalized(message: ChatMessage): ChatMessage {
    if message.toolCalls.Some? || message.content.None? then message
    else match ToolCallOf(message.content.value)
      case None => message
      case Some(parsed) => message.(toolCalls := Some([parsed.toolCall]),
                                    content := if parsed.remaining == "" then None else Some(parsed.remaining))
  }

  /** `normalize_qwen_tool_call`. */
  method NormalizeToolCall(message: ChatMessage) returns (normalized: ChatMessage)
    ensures normalized == Normalized(message)
  {
    normalized := message;
    if message.toolCalls.Some? || message.content.None? {
      return;
    }
    var parsed := ParseToolCall(message.content.value);
    if parsed.Some? {
      var Parsed(toolCall, remaining) := parsed.value;
      normalized := normalized.(toolCalls := Some([toolCall]),
                                content := if remaining == "" then None else Some(remaining));
    }
  }

  /**
   A message is changed exactly when it has no structured calls and its text consists of fitting pieces of a named
   call with parameters; then it carries that one call, and all the text around it and no other.
   */
  lemma NormalizedExactly(message: ChatMessage, call: Call)
    requires message.toolCalls.None? && message.content == Some(call.Content()) && Fits(call)
    ensures Normalized(message) != message <==> !Blank(call.name) && Parameters(call.body).Some?
    ensures Normalized(message) != message ==>
            && Normalized(message).toolCalls ==
               Some([ToolCall("qwen-tool-call-0", "function", Trim(call.name), Rendered(Parameters(call.body).value))])
            && Normalized(message).content == (if Blank(call.before) && Blank(call.after) then None
                                               else Some(Around(call.before, call.after)))
  {
    SplitCallIsExact(call.Content(), call);
    BlankTrims(call.before);
    BlankTrims(call.after);
  }

  /** Without a call in its text a message stays as it is, and so it does when normalised again. */
  lemma NormalizedOtherwise(message: ChatMessage)
    ensures (forall call: Call :: Fits(call) ==> message.content != Some(call.Content())) ==>
              Normalized(message) == message
    ensures message.toolCalls.Some? ==> Normalized(message) == message
    ensures Normalized(Normalized(message)) == Normalized(message)
  {
    if message.content.Some? && SplitCall(message.content.value).Some? {
      SplitCallIsExact(message.content.value, SplitCall(message.content.value).value);
    }
  }
}
