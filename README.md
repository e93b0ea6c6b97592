# nmap MCP server: catalog, command builder and reply formatter

A model of the translation layer of `nmap_server.py`, an MCP server that
exposes four `nmap` scans as tools. The server does three things, and the
model has a module for each:

- **Catalog** (`catalog.dfy`): the fixed list `handle_list_tools` returns.
  It has four tool definitions (`nmap_host_discovery`, `nmap_port_scan`,
  `nmap_service_detection`, `nmap_custom`). Each one has string-typed
  properties with optional defaults and a `required` list.
- **Command builder** (`commands.dfy`): the if/elif chain of
  `handle_call_tool`. It turns a tool name and the argument mapping into
  one of three outcomes: an `nmap` argument vector, the unknown-tool early
  return, or the `KeyError` raised when a required key is absent. The
  free-form tool tokenises its string with Python's argument-less
  `str.split()`, modelled in `text.dfy` with Python's full whitespace set.
- **Formatter** (`formatter.dfy`): the reply text built from the command
  line, the return code and the decoded stdout or stderr. A pure function
  specifies it. A method builds the same string by successive appends, as
  the server does.
- **Dispatch** (`server.dfy`): `handle_call_tool` as a whole. Absent
  arguments count as an empty mapping. Every path answers with exactly one
  text block. The scanner run is a parameter
  `run: seq<string> -> Spawn`. For the argument vector it returns either
  `Exited(code, stdout, stderr)` or `SpawnFailed(message)`. The result
  also records which vector was handed to the scanner, so "no process is
  started" can be stated.

The builder repeats the tool names and the `ports` defaults as literals,
as the server does. The lemmas prove they agree with the catalog. Each
formatter operation has an inverse: `ParseReport` reads a report back, and
`ParseDecimal` reads back the rendered return code. The round-trip lemmas
show that the report determines the return code, whether the run
succeeded, and the one stream it shows.

The tool names carry an `nmap_` prefix (nmap_server.py:23, 37, 56, 75).

## Model

| member | source | states |
|---|---|---|
| `Catalog.ListTools` | nmap_server.py:18-88 | four tools with pairwise distinct names; each has exactly one required key, and it is a declared property: `target` for the first three, `arguments` for `nmap_custom` |
| `Catalog.LookupCatalog` | nmap_server.py:21-88 | a name is found in the catalog exactly when it is one of the four tool names, and lookup returns the entry of that name |
| `Catalog.Find` | nmap_server.py:21-88 | lookup by name returns the first entry of the list with that name, and returns nothing exactly when no entry has the name |
| `Commands.Build` | nmap_server.py:100-124 | every built vector starts with `nmap`; a missing-key outcome names a key absent from the arguments |
| `Commands.BuildMatchesCatalog` | nmap_server.py:21-124 | the builder rejects a name as unknown exactly when the catalog lacks it; for a catalog tool it fails exactly when the schema's required key is absent, and then it names that key |
| `Commands.CommandShapes` | nmap_server.py:102-118 | exact vectors: `nmap -sn target`, `nmap -p ports target`, `nmap -sV -p ports target`, and `nmap` followed by the split arguments; `ports` is the caller's value when supplied and otherwise the catalog default of that tool |
| `Commands.BuildReadsDeclaredKeysOnly` | nmap_server.py:25-118 | two argument maps that agree on the keys the tool's schema declares give the same outcome, so extra keys never matter |
| `Commands.CustomCommand` | nmap_server.py:116-118 | the free-form vector is `nmap` then non-empty, whitespace-free tokens holding every non-whitespace character of the string in order; it is `nmap` alone exactly for a blank string; the displayed command line splits back to the same vector |
| `Text.Split` | nmap_server.py:118 | every token of `str.split()` is non-empty and has no whitespace |
| `Text.SplitKeepsNonSpace` | nmap_server.py:118 | concatenated tokens are exactly the non-whitespace characters of the input, in order |
| `Text.SplitEmptyIffBlank` | nmap_server.py:118 | no tokens exactly when the input is empty or all whitespace |
| `Text.SplitAtSpace` | nmap_server.py:118 | a whitespace character separates: splitting around it equals splitting each side |
| `Text.SplitJoin` | nmap_server.py:118 | joining whitespace-free tokens with single spaces and splitting again returns the tokens |
| `Text.DecimalRoundTrip` | nmap_server.py:137 | the rendered return code, negative codes included, reads back as the same integer |
| `Text.DecimalCanonical` | nmap_server.py:137 | the rendering is the canonical one: a minus sign exactly for negative codes, and no leading zero except for the code 0 itself |
| `Formatter.FormatResult` | nmap_server.py:136-148 | the step-by-step appends build exactly the specified report |
| `Formatter.ReportRoundTrip` | nmap_server.py:136-148 | after the command line, the report determines the return code, the success flag (code is zero) and the body: stdout on success, stderr otherwise |
| `Formatter.ParseSectionRoundTrip` | nmap_server.py:139-148 | the section has the success heading exactly when the code is zero and carries only the stream that heading selects |
| `Formatter.SectionMark` | nmap_server.py:139-148 | the section opens with the success mark exactly when the code is zero, and with the error mark otherwise |
| `Formatter.ReportUsesOneStream` | nmap_server.py:139-148 | on success the report does not depend on stderr; on any other code it does not depend on stdout |
| `Server.CallTool` | nmap_server.py:90-156 | every call returns exactly one text block; a started process always runs `nmap` |
| `Server.UnknownToolFirst` | nmap_server.py:120-124 | an unknown name gets exactly the unknown-tool text, whatever the arguments, and no process is started |
| `Server.MissingKeyReply` | nmap_server.py:152-156 | a catalog tool without its required key, absent arguments included, gets exactly the error text with the quoted key, and no process is started |
| `Server.AbsentArgumentsAreEmpty` | nmap_server.py:97-98 | absent arguments behave as an empty mapping |
| `Server.StartedReply` | nmap_server.py:126-156 | with the required key present, the built vector is handed to the scanner; a spawn failure yields the error text with its message; an exit yields a report that reads back to that code and stream |

## Left out

- Process execution (`asyncio.create_subprocess_exec`, `communicate`) is a parameter of the model. Its result is the `Spawn` value, and any failure to start, such as a missing executable or a NUL byte in an argument, is `SpawnFailed` with an opaque message.
- UTF-8 decoding with `errors='ignore'` is not modelled. The model takes stdout and stderr already decoded, because decoding never fails.
- Argument values are modelled as strings only. A non-string value makes the server raise inside the `try`, for example from `split` or from spawning. Those messages are Python's own and are not modelled.
- `Server.KeyErrorMessage` models `str(KeyError(key))` as the key in single quotes. That is Python's rendering for the two keys that can be missing, `target` and `arguments`. Other exception texts are opaque.
- The MCP `Tool`/`TextContent` classes, the JSON schema fields `"type": "object"` and `"type": "string"`, the `Server` object and its decorators, `main()` with its capability-negotiation fallbacks, and the stdio transport are library plumbing and are not modelled.
- Concurrency between invocations and the `await` suspension points are not modelled. Invocations share no state.
