/** Parsing the text printed by `st-info --probe` (standard output followed by
    standard error) into the micro-controller information dictionary.  Running
    the tool is not modelled; its output is the input here. */
module Probe {
  import opened Text

  /** The exact output that means no programmer is attached. */
  const NoProgrammers: string := "Found 0 stlink programmers"

  datatype Report = Disconnected | Info(info: map<string, string>)

  /** The stripped text before the first `:` of an information line. */
  function KeyOf(line: string): (k: string)
    requires ':' in line
    ensures ':' !in k
  {
    var c := Find(line, ':');
    var k := Strip(line[..c]);
    assert forall x :: x in k ==> x in line[..c];
    k
  }

  /** The stripped text after the first `:` of an information line. */
  function ValueOf(line: string): string
    requires ':' in line
  {
    Strip(line[Find(line, ':') + 1..])
  }

  /** The dictionary after the loop has seen `lines` in order: each line holding a
      `:` sets its key, a later line overwriting an earlier one. */
  function InfoDict(lines: seq<string>): map<string, string> {
    if lines == [] then map[] else Absorb(InfoDict(lines[..|lines| - 1]), lines[|lines| - 1])
  }

  /** One turn of the loop: a line holding a `:` sets its key. */
  function Absorb(m: map<string, string>, line: string): map<string, string> {
    if ':' in line then m[KeyOf(line) := ValueOf(line)] else m
  }

  /** The report for a given tool output, as `microcontroller_info` builds it. */
  function ProbeReport(output: string): Report {
    if output == NoProgrammers then Disconnected else Info(InfoDict(Split(output, '\n')))
  }

  /** `microcontroller_info`: the equality test, then the line loop filling the
      dictionary. */
  method MicrocontrollerInfo(output: string) returns (r: Report)
    ensures r == ProbeReport(output)
  {
    if output == NoProgrammers {
      return Disconnected;
    }
    var oplines := Split(output, '\n');
    var infodict: map<string, string> := map[];
    for i := 0 to |oplines|
      invariant infodict == InfoDict(oplines[..i])
    {
      var l := oplines[i];
      ghost var before := infodict;
      if ':' in l {
        infodict := infodict[KeyOf(l) := ValueOf(l)];
      }
      assert infodict == Absorb(before, l);
      InfoDictStep(oplines, i);
    }
    assert oplines[..|oplines|] == oplines;
    return Info(infodict);
  }

  lemma InfoDictStep(lines: seq<string>, i: nat)
    requires i < |lines|
    ensures InfoDict(lines[..i + 1]) == Absorb(InfoDict(lines[..i]), lines[i])
  {
    assert lines[..i + 1][..i] == lines[..i];
  }

  /** The keys of the dictionary are exactly the keys of the lines holding a `:`. */
  lemma {:induction false} InfoDictKeys(lines: seq<string>)
    ensures forall k :: k in InfoDict(lines) <==>
      exists i :: 0 <= i < |lines| && ':' in lines[i] && KeyOf(lines[i]) == k
  {
    if lines != [] {
      var front := lines[..|lines| - 1];
      InfoDictKeys(front);
      forall i | 0 <= i < |front|
        ensures front[i] == lines[i]
      {
      }
    }
  }

  /** A key maps to the value of the last line that carries it. */
  lemma {:induction false} InfoDictLastWins(lines: seq<string>, i: nat)
    requires i < |lines| && ':' in lines[i]
    requires forall j :: i < j < |lines| && ':' in lines[j] ==> KeyOf(lines[j]) != KeyOf(lines[i])
    ensures KeyOf(lines[i]) in InfoDict(lines) && InfoDict(lines)[KeyOf(lines[i])] == ValueOf(lines[i])
  {
    var front := lines[..|lines| - 1];
    if i < |lines| - 1 {
      assert front[i] == lines[i];
      forall j | i < j < |front| && ':' in front[j]
        ensures KeyOf(front[j]) != KeyOf(front[i])
      {
        assert front[j] == lines[j];
      }
      InfoDictLastWins(front, i);
    }
  }

  /** Lines without a `:` leave the dictionary as it was. */
  lemma {:induction false} InfoDictIgnoresPlainLines(lines: seq<string>, plain: string)
    requires ':' !in plain
    ensures InfoDict(lines + [plain]) == InfoDict(lines)
  {
    assert (lines + [plain])[..|lines|] == lines;
  }

  /** Every character of a piece of `Split` occurs in the split text. */
  lemma {:induction false} SplitPiecesFromText(s: string, sep: char)
    ensures forall k, x :: 0 <= k < |Split(s, sep)| && x in Split(s, sep)[k] ==> x in s
  {
    if |s| > 0 {
      SplitPiecesFromText(s[1..], sep);
      forall x | x in s[1..]
        ensures x in s
      {
      }
    }
  }

  /** An output without any `:` gives an empty dictionary. */
  lemma NoColonNoInfo(output: string)
    requires output != NoProgrammers && ':' !in output
    ensures ProbeReport(output) == Info(map[])
  {
    var lines := Split(output, '\n');
    SplitPiecesFromText(output, '\n');
    InfoDictKeys(lines);
  }

  /** The tool terminates its message with a newline, which the exact equality
      test does not expect: the report is then an empty dictionary rather than
      the disconnected error. */
  lemma ProbeMissesNewlineTerminatedMessage()
    ensures ProbeReport(NoProgrammers + "\n") == Info(map[])
  {
    var o := NoProgrammers + "\n";
    assert o != NoProgrammers by {
      assert |o| != |NoProgrammers|;
    }
    assert ':' !in o by {
      forall i | 0 <= i < |o|
        ensures o[i] != ':'
      {
      }
    }
    NoColonNoInfo(o);
  }

  /** The evidently intended test: the message is recognised whatever whitespace
      surrounds it; every other output is reported as the test as written
      reports it. */
  function ProbeReportIntended(output: string): (r: Report)
    ensures Strip(output) == NoProgrammers ==> r == Disconnected
    ensures Strip(output) != NoProgrammers ==> r == ProbeReport(output)
  {
    StripPadded("", NoProgrammers, "");
    assert "" + NoProgrammers + "" == NoProgrammers;
    if Strip(output) == NoProgrammers then Disconnected else Info(InfoDict(Split(output, '\n')))
  }

  /** With the intended test, the message with any whitespace before and after
      it gives the disconnected error. */
  lemma ProbeIntendedRecognisesPaddedMessage(w1: string, w2: string)
    requires AllSpace(w1) && AllSpace(w2)
    ensures ProbeReportIntended(w1 + NoProgrammers + w2) == Disconnected
  {
    StripPadded(w1, NoProgrammers, w2);
  }

  /** In particular the bare message and the newline-terminated message both
      give the disconnected error. */
  lemma ProbeIntendedRecognisesMessage()
    ensures ProbeReportIntended(NoProgrammers) == Disconnected
    ensures ProbeReportIntended(NoProgrammers + "\n") == Disconnected
  {
    ProbeIntendedRecognisesPaddedMessage("", "");
    assert "" + NoProgrammers + "" == NoProgrammers;
    ProbeIntendedRecognisesPaddedMessage("", "\n");
    assert "" + NoProgrammers + "\n" == NoProgrammers + "\n";
  }
}
