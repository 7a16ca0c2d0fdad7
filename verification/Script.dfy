/**
 * Building the dispatch payload of a job: Ruby's `String#lines`, the
 * default interpreter line added to scripts that lack one, and the
 * payload record sent to the slaves.
 */
module Script {
  import opened Wire
  import opened Tags

  /** The interpreter line given to a script that has none. */
  const DefaultInterpreter: string := "#!/bin/bash"

  /** Does the text begin with `#!`? */
  predicate HasShebang(s: string) {
    |s| >= 2 && s[0] == '#' && s[1] == '!'
  }

  /** Length of the first line of `s`, its terminating newline included. */
  function FirstLineLength(s: string): (n: nat)
    requires s != []
    ensures 0 < n <= |s|
    ensures forall i :: 0 <= i < n - 1 ==> s[i] != '\n'
    ensures n < |s| ==> s[n - 1] == '\n'
  {
    if s[0] == '\n' || |s| == 1 then 1 else 1 + FirstLineLength(s[1..])
  }

  /** `s.lines` in Ruby: the lines of `s`, each keeping its newline. */
  function Lines(s: string): (r: seq<string>)
    ensures r == [] <==> s == []
    decreases |s|
  {
    if s == [] then [] else
      var n := FirstLineLength(s);
      [s[..n]] + Lines(s[n..])
  }

  function Concat(parts: seq<string>): string {
    if parts == [] then "" else parts[0] + Concat(parts[1..])
  }

  /** The lines of a text put back together are the text. */
  lemma {:induction false} LinesRoundTrip(s: string)
    ensures Concat(Lines(s)) == s
    decreases |s|
  {
    if s != [] {
      var n := FirstLineLength(s);
      var first, rest := s[..n], s[n..];
      LinesRoundTrip(rest);
      ConcatLines(s);
      assert Concat(Lines(s)) == first + rest;
      assert first + rest == s;
    }
  }

  /** The lines of a non-empty text are its first line, then the lines of the rest. */
  lemma ConcatLines(s: string)
    requires s != []
    ensures Lines(s) == [s[..FirstLineLength(s)]] + Lines(s[FirstLineLength(s)..])
    ensures Concat(Lines(s)) == s[..FirstLineLength(s)] + Concat(Lines(s[FirstLineLength(s)..]))
  {
    var first, rest := s[..FirstLineLength(s)], Lines(s[FirstLineLength(s)..]);
    assert ([first] + rest)[1..] == rest;
  }

  /** Every line but the last ends with a newline, and no line has another one. */
  lemma {:induction false} LinesShape(s: string)
    ensures forall k :: 0 <= k < |Lines(s)| ==> Lines(s)[k] != ""
    ensures forall k :: 0 <= k < |Lines(s)| - 1 ==> Lines(s)[k][|Lines(s)[k]| - 1] == '\n'
    ensures forall k, i :: 0 <= k < |Lines(s)| && 0 <= i < |Lines(s)[k]| - 1 ==> Lines(s)[k][i] != '\n'
    decreases |s|
  {
    if s != [] {
      var n := FirstLineLength(s);
      LinesShape(s[n..]);
      assert Lines(s)[1..] == Lines(s[n..]);
    }
  }

  /** The first line has the `#!` mark exactly when the text does. */
  lemma FirstLineShebang(s: string)
    ensures (Lines(s) != [] && HasShebang(Lines(s)[0])) <==> HasShebang(s)
  {
    if s != [] {
      var n := FirstLineLength(s);
      if n == 1 && |s| >= 2 {
        assert s[0] == '\n';
      }
    }
  }

  /**
   * The script as sent: unchanged when its first line starts with `#!`,
   * otherwise the default interpreter line followed by the script's lines,
   * joined with newlines as `(['#!/bin/bash'] + lines).join("\n")` does.
   * Either way it starts with an interpreter line.
   */
  function ScriptText(s: string): (r: string)
    ensures HasShebang(r)
    ensures HasShebang(s) ==> r == s
    ensures !HasShebang(s) ==> |r| >= |DefaultInterpreter| && r[..|DefaultInterpreter|] == DefaultInterpreter
  {
    FirstLineShebang(s);
    var lines := Lines(s);
    if lines != [] && HasShebang(lines[0]) then s
    else
      if lines != [] then
        JoinCons(DefaultInterpreter, lines, "\n");
        Join([DefaultInterpreter] + lines, "\n")
      else
        Join([DefaultInterpreter] + lines, "\n")
  }

  /** A one-line script gains exactly the interpreter line: "echo hi" becomes "#!/bin/bash\necho hi". */
  lemma ScriptTextOneLine(s: string)
    requires s != "" && '\n' !in s && !HasShebang(s)
    ensures ScriptText(s) == DefaultInterpreter + "\n" + s
  {
    FirstLineShebang(s);
    assert FirstLineLength(s) == |s|;
    assert s[..|s|] == s && s[|s|..] == [];
    assert Lines(s) == [s[..|s|]] + Lines(s[|s|..]);
    assert Lines(s) == [s];
    assert [DefaultInterpreter] + [s] == [DefaultInterpreter, s];
    assert [DefaultInterpreter, s][1..] == [s];
    assert Join([DefaultInterpreter, s], "\n") == DefaultInterpreter + "\n" + Join([s], "\n");
  }

  /** An empty script becomes the interpreter line alone. */
  lemma ScriptTextEmpty()
    ensures ScriptText("") == DefaultInterpreter
  {
  }

  /** `s` with every newline that is not its last character doubled. */
  function DoubleInnerBreaks(s: string): string {
    if s == [] then []
    else if s[0] == '\n' && |s| > 1 then "\n\n" + DoubleInnerBreaks(s[1..])
    else [s[0]] + DoubleInnerBreaks(s[1..])
  }

  lemma {:induction false} DoubleInnerBreaksAppend(x: string, rest: string)
    requires '\n' !in x && rest != []
    ensures DoubleInnerBreaks(x + "\n" + rest) == x + "\n\n" + DoubleInnerBreaks(rest)
    decreases |x|
  {
    if x == [] {
      assert x + "\n" + rest == ['\n'] + rest;
      assert (['\n'] + rest)[1..] == rest;
    } else {
      DoubleInnerBreaksAppend(x[1..], rest);
      assert (x + "\n" + rest)[1..] == x[1..] + "\n" + rest;
      assert [x[0]] + x[1..] == x;
    }
  }

  lemma {:induction false} DoubleInnerBreaksNoBreak(x: string)
    requires forall i :: 0 <= i < |x| - 1 ==> x[i] != '\n'
    ensures DoubleInnerBreaks(x) == x
    decreases |x|
  {
    if x != [] {
      DoubleInnerBreaksNoBreak(x[1..]);
      assert [x[0]] + x[1..] == x;
    }
  }

  /**
   * Because `lines` keep their newlines and are then joined with "\n",
   * every line break inside a script that gets the interpreter line is
   * doubled: "echo a\necho b" is sent as "#!/bin/bash\necho a\n\necho b".
   */
  lemma ScriptTextDoublesInnerBreaks(s: string)
    requires s != "" && !HasShebang(s)
    ensures ScriptText(s) == DefaultInterpreter + "\n" + DoubleInnerBreaks(s)
  {
    FirstLineShebang(s);
    JoinCons(DefaultInterpreter, Lines(s), "\n");
    JoinLinesDoubles(s);
  }

  lemma {:induction false} JoinLinesDoubles(s: string)
    ensures Join(Lines(s), "\n") == DoubleInnerBreaks(s)
    decreases |s|
  {
    if s != [] {
      var n := FirstLineLength(s);
      if n == |s| {
        assert Lines(s) == [s[..n]] + Lines(s[n..]);
        assert s[..n] == s && s[n..] == [];
        DoubleInnerBreaksNoBreak(s);
      } else {
        JoinLinesDoubles(s[n..]);
        JoinLinesStep(s);
      }
    }
  }

  /** The step of `JoinLinesDoubles`: a first line ended by a newline, and more text after it. */
  lemma JoinLinesStep(s: string)
    requires s != [] && FirstLineLength(s) < |s|
    requires Join(Lines(s[FirstLineLength(s)..]), "\n") == DoubleInnerBreaks(s[FirstLineLength(s)..])
    ensures Join(Lines(s), "\n") == DoubleInnerBreaks(s)
  {
    var n := FirstLineLength(s);
    var first, rest, x := s[..n], s[n..], s[..n - 1];
    SplitAtBreak(s, n);
    calc {
      Join(Lines(s), "\n");
    ==  { ConcatLines(s); }
      Join([first] + Lines(rest), "\n");
    ==  { JoinCons(first, Lines(rest), "\n"); }
      first + "\n" + Join(Lines(rest), "\n");
    ==
      x + "\n" + "\n" + DoubleInnerBreaks(rest);
    ==  { TwoBreaks(x, DoubleInnerBreaks(rest)); }
      x + "\n\n" + DoubleInnerBreaks(rest);
    ==  { DoubleInnerBreaksAppend(x, rest); }
      DoubleInnerBreaks(x + "\n" + rest);
    }
  }

  lemma TwoBreaks(x: string, d: string)
    ensures x + "\n" + "\n" + d == x + "\n\n" + d
  {
    assert x + "\n" + "\n" == x + "\n\n";
  }

  /** A text cut just after a newline at position `n - 1`. */
  lemma SplitAtBreak(s: string, n: nat)
    requires 0 < n <= |s| && s[n - 1] == '\n'
    ensures s[..n] == s[..n - 1] + "\n"
    ensures s == s[..n - 1] + "\n" + s[n..]
  {
    assert s[..n] == s[..n - 1] + [s[n - 1]];
  }

  /** The script to send, if any: the file's text, else with `cmd` the arguments joined by spaces. */
  function ScriptSource(file: Option<string>, cmd: bool, args: seq<string>): Option<string> {
    if file.Some? then file else if cmd then Some(Join(args, " ")) else None
  }

  /**
   * The dispatch order of a job (`job_payload`): a script order when there
   * is a script, an exec order with the arguments otherwise, always
   * carrying the job id and its worker count.
   */
  function JobPayload(id: string, file: Option<string>, cmd: bool, args: seq<string>, numWorkers: Option<int>): (r: Order)
    ensures r.Dispatch? && r.id == id && r.numWorkers == numWorkers
    ensures ScriptSource(file, cmd, args).None? <==> r.payload == Exec(args)
    ensures ScriptSource(file, cmd, args).Some? ==> r.payload.Script? && HasShebang(r.payload.script)
    ensures ScriptSource(file, cmd, args).Some? && HasShebang(ScriptSource(file, cmd, args).value) ==>
              r.payload == Script(ScriptSource(file, cmd, args).value)
  {
    match ScriptSource(file, cmd, args)
    case Some(script) =>
      Dispatch(id, numWorkers, Script(ScriptText(script)))
    case None => Dispatch(id, numWorkers, Exec(args))
  }
}
