/** The response formatter of `handle_call_tool`: the text returned after the
    scanner has run, built from the argument vector, the return code and the
    decoded output streams. */
module Formatter {

  import opened Wrappers
  import opened Text

  const CommandPrefix := "🔍 **Comando executado:** `"
  const CodePrefix := "📊 **Código de retorno:** "
  const SuccessHeading := "✅ **RESULTADO DO SCAN:**\n"
  const ErrorHeading := "❌ **ERRO:**\n"
  const OpenFence := "```\n"
  const Fence := "```"

  /** The command line, tokens joined by single spaces, in backticks. */
  function CommandLine(argv: seq<string>): string {
    CommandPrefix + Join(argv, " ") + "`\n"
  }

  function CodeLine(code: int): string {
    CodePrefix + Decimal(code) + "\n\n"
  }

  /** Exactly one section: stdout under the success heading when the
      scanner exited with 0, stderr under the error heading otherwise. */
  function Section(code: int, stdout: string, stderr: string): string {
    if code == 0 then SuccessHeading + OpenFence + stdout + Fence
    else ErrorHeading + OpenFence + stderr + Fence
  }

  function Report(argv: seq<string>, code: int, stdout: string, stderr: string): string {
    CommandLine(argv) + CodeLine(code) + Section(code, stdout, stderr)
  }

  /** The formatter as the server writes it: one string grown by successive
      appends. */
  method FormatResult(argv: seq<string>, code: int, stdout: string, stderr: string) returns (text: string)
    ensures text == Report(argv, code, stdout, stderr)
  {
    text := CommandPrefix + Join(argv, " ") + "`\n";
    text := text + CodePrefix + Decimal(code) + "\n\n";
    Regroup(CommandLine(argv), CodePrefix, Decimal(code), "\n\n");
    ghost var head := text;
    if code == 0 {
      text := text + SuccessHeading;
      text := text + OpenFence;
      text := text + stdout;
      text := text + Fence;
      Regroup(head, SuccessHeading + OpenFence, stdout, Fence);
      Regroup(head, SuccessHeading, OpenFence, stdout);
    } else {
      text := text + ErrorHeading;
      text := text + OpenFence;
      text := text + stderr;
      text := text + Fence;
      Regroup(head, ErrorHeading + OpenFence, stderr, Fence);
      Regroup(head, ErrorHeading, OpenFence, stderr);
    }
  }

  lemma Regroup(h: string, a: string, b: string, c: string)
    ensures h + a + b + c == h + (a + b + c)
    ensures h + a + b == h + (a + b)
  {
  }

  /** What a reader of a report can recover from it. */
  datatype Parsed = Parsed(code: int, succeeded: bool, body: string)

  /** Index of the first line break in `s`, or `|s|` when there is none. */
  function LineLength(s: string): (n: nat)
    ensures n <= |s|
  {
    if s == [] || s[0] == '\n' then 0 else 1 + LineLength(s[1..])
  }

  /** The text between `heading` plus an opening fence and a closing fence
      that ends `s`. */
  function Fenced(heading: string, s: string): Option<string> {
    var open := heading + OpenFence;
    if |open| + |Fence| <= |s| && s[..|open|] == open && s[|s| - |Fence|..] == Fence
    then Some(s[|open|..|s| - |Fence|])
    else None
  }

  function ParseSection(code: int, s: string): Option<Parsed> {
    match Fenced(SuccessHeading, s)
    case Some(body) => Some(Parsed(code, true, body))
    case None =>
      match Fenced(ErrorHeading, s)
      case Some(body) => Some(Parsed(code, false, body))
      case None => None
  }

  /** Reads a report back, given the command it was produced for: the
      return code on the second line, which heading follows, and the
      fenced body. */
  function ParseReport(argv: seq<string>, text: string): Option<Parsed> {
    var head := CommandLine(argv) + CodePrefix;
    if |text| < |head| || text[..|head|] != head then None
    else
      var rest := text[|head|..];
      var k := LineLength(rest);
      if |rest| < k + 2 || rest[k..k + 2] != "\n\n" then None
      else
        match ParseDecimal(rest[..k])
        case None => None
        case Some(code) => ParseSection(code, rest[k + 2..])
  }

  lemma {:induction false} LineLengthAfter(p: string, r: string)
    requires forall i :: 0 <= i < |p| ==> p[i] != '\n'
    ensures LineLength(p + "\n" + r) == |p|
  {
    if p != [] {
      assert (p + "\n" + r)[0] == p[0];
      assert (p + "\n" + r)[1..] == p[1..] + "\n" + r;
      LineLengthAfter(p[1..], r);
    }
  }

  lemma FencedRoundTrip(heading: string, body: string)
    ensures Fenced(heading, heading + OpenFence + body + Fence) == Some(body)
  {
    var open := heading + OpenFence;
    var s := open + body + Fence;
    assert s == heading + OpenFence + body + Fence;
    assert s[..|open|] == open;
    assert s[|s| - |Fence|..] == Fence;
    assert s[|open|..|s| - |Fence|] == body;
  }

  lemma FencedRejectsOtherHeading(heading: string, other: string, body: string)
    requires |heading| > 0 && |other| > 0 && heading[0] != other[0]
    ensures Fenced(heading, other + OpenFence + body + Fence) == None
  {
    var s := other + OpenFence + body + Fence;
    var open := heading + OpenFence;
    if |open| <= |s| {
      assert s[..|open|][0] == other[0] && open[0] == heading[0];
    }
  }

  /** The section reads back as the heading the return code selects and the
      one stream that section carries. */
  lemma ParseSectionRoundTrip(code: int, stdout: string, stderr: string)
    ensures ParseSection(code, Section(code, stdout, stderr))
         == Some(Parsed(code, code == 0, if code == 0 then stdout else stderr))
  {
    assert SuccessHeading[0] == '✅' && ErrorHeading[0] == '❌';
    if code == 0 {
      FencedRoundTrip(SuccessHeading, stdout);
    } else {
      FencedRejectsOtherHeading(SuccessHeading, ErrorHeading, stderr);
      FencedRoundTrip(ErrorHeading, stderr);
    }
  }

  /** A report determines the return code, whether the run succeeded (code
      zero), and the stream shown: stdout on success, stderr otherwise. */
  lemma ReportRoundTrip(argv: seq<string>, code: int, stdout: string, stderr: string)
    ensures ParseReport(argv, Report(argv, code, stdout, stderr))
         == Some(Parsed(code, code == 0, if code == 0 then stdout else stderr))
  {
    var text := Report(argv, code, stdout, stderr);
    var head := CommandLine(argv) + CodePrefix;
    var digits := Decimal(code);
    var section := Section(code, stdout, stderr);
    var rest := digits + "\n" + ("\n" + section);
    assert text == head + rest;
    assert text[..|head|] == head;
    assert text[|head|..] == rest;
    LineLengthAfter(digits, "\n" + section);
    var k := |digits|;
    assert rest[k..k + 2] == "\n\n";
    assert rest[..k] == digits;
    assert rest[k + 2..] == section;
    DecimalRoundTrip(code);
    ParseSectionRoundTrip(code, stdout, stderr);
  }

  /** The character that opens the section is the success mark exactly
      when the return code is zero, and the error mark otherwise. */
  lemma SectionMark(argv: seq<string>, code: int, stdout: string, stderr: string)
    ensures var text := Report(argv, code, stdout, stderr);
      var at := |CommandLine(argv)| + |CodeLine(code)|;
      at < |text| && (text[at] == '✅' <==> code == 0) && (text[at] == '❌' <==> code != 0)
  {
    var prefix := CommandLine(argv) + CodeLine(code);
    var section := Section(code, stdout, stderr);
    assert Report(argv, code, stdout, stderr) == prefix + section;
    assert SuccessHeading[0] == '✅' && ErrorHeading[0] == '❌';
    assert (prefix + section)[|prefix|] == section[0];
  }

  /** Only the stream the return code selects reaches the report. */
  lemma ReportUsesOneStream(argv: seq<string>, code: int, stdout: string, stderr: string, other: string)
    ensures code == 0 ==> Report(argv, code, stdout, other) == Report(argv, code, stdout, stderr)
    ensures code != 0 ==> Report(argv, code, other, stderr) == Report(argv, code, stdout, stderr)
  {
  }
}
