/** Composition of the body of a report email: one line per candidate stock,
    or the sentence "no targets" when the selector found nothing. */
module ReportBody {

  /** The body sent when the selector returns no long targets. */
  const NO_TARGETS: string := "no targets"

  /** Python's `sep.join(parts)`: the parts with `sep` between neighbours. */
  function Join(parts: seq<string>, sep: string): string
    decreases |parts|
  {
    if |parts| == 0 then ""
    else if |parts| == 1 then parts[0]
    else parts[0] + sep + Join(parts[1..], sep)
  }

  /** Reference reading of a multi-line body: every line followed by its own terminator. */
  function Terminated(lines: seq<string>): string
    decreases |lines|
  {
    if lines == [] then "" else lines[0] + "\n" + Terminated(lines[1..])
  }

  predicate NoNewline(line: string) {
    forall i :: 0 <= i < |line| ==> line[i] != '\n'
  }

  /** Length of the first line of `s`: the index of the first '\n', or |s| if there is none. */
  function LineEnd(s: string): (k: nat)
    ensures k <= |s|
    ensures forall i :: 0 <= i < k ==> s[i] != '\n'
    ensures k < |s| ==> s[k] == '\n'
    decreases |s|
  {
    if s == [] || s[0] == '\n' then 0 else 1 + LineEnd(s[1..])
  }

  /** How a reader splits a body into lines: each line ends at a '\n'; a last line without
      terminator is kept as it is. */
  function SplitLines(s: string): seq<string>
    decreases |s|
  {
    if s == [] then []
    else
      var k := LineEnd(s);
      if k == |s| then [s] else [s[..k]] + SplitLines(s[k + 1..])
  }

  /** The message of a completed attempt: `'no targets'` when there are no long targets,
      otherwise the info lines joined by '\n' with one more '\n' at the end. */
  function ComposeBody(hasTargets: bool, infos: seq<string>): (body: string)
    ensures !hasTargets ==> body == NO_TARGETS
    ensures hasTargets ==> body == (if infos == [] then "\n" else Terminated(infos))
    ensures hasTargets ==> |body| > 0 && body[|body| - 1] == '\n' && body != NO_TARGETS
  {
    if !hasTargets then NO_TARGETS
    else
      JoinTerminates(infos);
      Join(infos, "\n") + "\n"
  }

  /** A reader who splits a body with targets into lines gets the info lines back
      (or one empty line when there were no infos), as long as no info holds a '\n'. */
  lemma BodyLines(infos: seq<string>)
    requires forall i :: 0 <= i < |infos| ==> NoNewline(infos[i])
    ensures SplitLines(ComposeBody(true, infos)) == (if infos == [] then [""] else infos)
  {
    var body := ComposeBody(true, infos);
    if infos == [] {
      assert body == "\n";
      assert LineEnd(body) == 0;
      assert body[1..] == [];
    } else {
      SplitTerminated(infos);
    }
  }

  /** Joining with '\n' and appending one '\n' terminates every line. */
  lemma {:induction false} JoinTerminates(lines: seq<string>)
    ensures Join(lines, "\n") + "\n" == (if lines == [] then "\n" else Terminated(lines))
    decreases |lines|
  {
    if |lines| > 1 {
      JoinTerminates(lines[1..]);
      calc {
        Join(lines, "\n") + "\n";
        lines[0] + "\n" + Join(lines[1..], "\n") + "\n";
        lines[0] + "\n" + (Join(lines[1..], "\n") + "\n");
        lines[0] + "\n" + Terminated(lines[1..]);
      }
    } else if |lines| == 1 {
      assert lines[1..] == [];
    }
  }

  /** The first line of `line + "\n" + rest` is `line` when `line` has no '\n'. */
  lemma {:induction false} LineEndOfTerminated(line: string, rest: string)
    requires NoNewline(line)
    ensures LineEnd(line + "\n" + rest) == |line|
    decreases |line|
  {
    if line != [] {
      assert (line + "\n" + rest)[1..] == line[1..] + "\n" + rest;
      LineEndOfTerminated(line[1..], rest);
    }
  }

  /** Round trip: splitting a terminated body gives back its lines, provided none of them
      holds a '\n' of its own. */
  lemma {:induction false} SplitTerminated(lines: seq<string>)
    requires forall i :: 0 <= i < |lines| ==> NoNewline(lines[i])
    ensures SplitLines(Terminated(lines)) == lines
    decreases |lines|
  {
    if lines != [] {
      var s := Terminated(lines);
      var rest := Terminated(lines[1..]);
      assert s == lines[0] + "\n" + rest;
      LineEndOfTerminated(lines[0], rest);
      assert s[..|lines[0]|] == lines[0];
      assert s[|lines[0]| + 1..] == rest;
      SplitTerminated(lines[1..]);
    }
  }
}
