/** `handle_call_tool`: dispatch on the tool name, run the scanner, and
    answer with exactly one text block, whatever happens. The scanner run
    is a parameter: given the argument vector it either reports that the
    process could not be started or gives the exit code and the decoded
    output streams. */
module Server {

  import opened Wrappers
  import opened Catalog
  import opened Commands
  import opened Formatter

  datatype TextContent = TextContent(kind: string, text: string)

  /** What the scanner run produced for one argument vector. */
  datatype Spawn = Exited(code: int, stdout: string, stderr: string) | SpawnFailed(message: string)

  /** The reply, and the argument vector handed to the scanner (`None`
      when nothing was handed over; a vector handed over may still fail
      to start). */
  datatype Invocation = Invocation(reply: seq<TextContent>, started: Option<seq<string>>)

  /** `str(KeyError(key))` for a string key without quotes in it. */
  function KeyErrorMessage(key: string): string {
    "'" + key + "'"
  }

  function UnknownToolText(name: string): string {
    "❌ Ferramenta desconhecida: " + name
  }

  function FailureText(name: string, message: string): string {
    "❌ **Erro ao executar " + name + ":** " + message
  }

  /** Absent arguments are treated as an empty mapping. */
  function ArgumentsOf(arguments: Option<map<string, string>>): map<string, string> {
    match arguments
    case None => map[]
    case Some(args) => args
  }

  function CallTool(name: string, arguments: Option<map<string, string>>, run: seq<string> -> Spawn): (r: Invocation)
    ensures |r.reply| == 1 && r.reply[0].kind == "text"
    ensures r.started.Some? ==> |r.started.value| > 0 && r.started.value[0] == "nmap"
  {
    match Build(name, ArgumentsOf(arguments))
    case UnknownTool =>
      Invocation([TextContent("text", UnknownToolText(name))], None)
    case MissingKey(key) =>
      Invocation([TextContent("text", FailureText(name, KeyErrorMessage(key)))], None)
    case Command(argv) =>
      match run(argv)
      case SpawnFailed(message) =>
        Invocation([TextContent("text", FailureText(name, message))], Some(argv))
      case Exited(code, stdout, stderr) =>
        Invocation([TextContent("text", Report(argv, code, stdout, stderr))], Some(argv))
  }

  /** A name the catalog does not advertise is answered before any argument
      is read, so it takes precedence over missing parameters, and no
      process is started. */
  lemma UnknownToolFirst(name: string, arguments: Option<map<string, string>>, run: seq<string> -> Spawn)
    requires Lookup(name).None?
    ensures CallTool(name, arguments, run) == Invocation([TextContent("text", "❌ Ferramenta desconhecida: " + name)], None)
  {
    BuildMatchesCatalog(name, ArgumentsOf(arguments));
  }

  /** A catalog tool called without the key its schema requires (absent
      arguments included) is answered with the single error text naming
      that key, and no process is started. */
  lemma MissingKeyReply(name: string, arguments: Option<map<string, string>>, run: seq<string> -> Spawn)
    requires Lookup(name).Some?
    requires Lookup(name).value.required[0] !in ArgumentsOf(arguments)
    ensures CallTool(name, arguments, run)
         == Invocation([TextContent("text", FailureText(name, KeyErrorMessage(Lookup(name).value.required[0])))], None)
  {
    BuildMatchesCatalog(name, ArgumentsOf(arguments));
  }

  /** Absent arguments behave as an empty mapping. */
  lemma AbsentArgumentsAreEmpty(name: string, run: seq<string> -> Spawn)
    ensures CallTool(name, None, run) == CallTool(name, Some(map[]), run)
  {
  }

  /** A catalog tool called with its required key starts exactly one
      process, on the built vector; if the process ran, the reply is the
      formatted report, from which the return code and the stream shown
      (stdout exactly when the code is zero, stderr otherwise) read back;
      if it could not start, the reply is the error text carrying the
      failure's message. */
  lemma StartedReply(name: string, arguments: Option<map<string, string>>, run: seq<string> -> Spawn)
    requires Lookup(name).Some?
    requires Lookup(name).value.required[0] in ArgumentsOf(arguments)
    ensures Build(name, ArgumentsOf(arguments)).Command?
    ensures var argv := Build(name, ArgumentsOf(arguments)).argv;
      var r := CallTool(name, arguments, run);
      r.started == Some(argv) &&
      match run(argv)
      case SpawnFailed(message) =>
        r.reply[0].text == "❌ **Erro ao executar " + name + ":** " + message
      case Exited(code, stdout, stderr) =>
        ParseReport(argv, r.reply[0].text) == Some(Parsed(code, code == 0, if code == 0 then stdout else stderr))
  {
    BuildMatchesCatalog(name, ArgumentsOf(arguments));
    var argv := Build(name, ArgumentsOf(arguments)).argv;
    match run(argv)
    case SpawnFailed(_) =>
    case Exited(code, stdout, stderr) =>
      ReportRoundTrip(argv, code, stdout, stderr);
  }
}
