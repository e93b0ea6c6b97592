/** The command-building branch of `handle_call_tool`: a tool name and the
    caller's arguments become an `nmap` argument vector, or the reason none
    could be built. */
module Commands {

  import opened Wrappers
  import opened Text
  import opened Catalog

  /** What the if/elif chain ends in: the unknown-tool early return, the
      `KeyError` raised by reading an absent required key, or a command. */
  datatype Built = UnknownTool | MissingKey(key: string) | Command(argv: seq<string>)

  /** `args.get(key, default)`. */
  function GetOr(args: map<string, string>, key: string, default: string): string {
    if key in args then args[key] else default
  }

  /** The builder repeats the tool names and the `ports` defaults as
      literals, as the server does; the lemmas below prove that they agree
      with the catalog. */
  function Build(name: string, args: map<string, string>): (r: Built)
    ensures r.Command? ==> |r.argv| > 0 && r.argv[0] == "nmap"
    ensures r.MissingKey? ==> r.key !in args
  {
    if name == "nmap_host_discovery" then
      if "target" !in args then MissingKey("target")
      else Command(["nmap", "-sn", args["target"]])
    else if name == "nmap_port_scan" then
      if "target" !in args then MissingKey("target")
      else Command(["nmap", "-p", GetOr(args, "ports", "1-1000"), args["target"]])
    else if name == "nmap_service_detection" then
      if "target" !in args then MissingKey("target")
      else Command(["nmap", "-sV", "-p", GetOr(args, "ports", "22,80,443,21,25,53,110,993,995"), args["target"]])
    else if name == "nmap_custom" then
      if "arguments" !in args then MissingKey("arguments")
      else Command(["nmap"] + Split(args["arguments"]))
    else
      UnknownTool
  }

  /** The builder accepts exactly the catalog's names, and for each of them
      fails exactly when the key the schema lists as required is absent,
      naming that key. */
  lemma BuildMatchesCatalog(name: string, args: map<string, string>)
    ensures Build(name, args).UnknownTool? <==> Lookup(name).None?
    ensures Lookup(name).Some? ==>
      var key := Lookup(name).value.required[0];
      (Build(name, args).MissingKey? <==> key !in args) &&
      (Build(name, args).MissingKey? ==> Build(name, args).key == key)
  {
    LookupCatalog(name);
  }

  /** The argument vector of each tool, with the `ports` value taken from
      the caller when supplied and otherwise from the catalog's default. */
  lemma CommandShapes(name: string, args: map<string, string>)
    requires Build(name, args).Command?
    ensures Lookup(name).Some?
    ensures var tool := Lookup(name).value;
      var argv := Build(name, args).argv;
      var ports := match DefaultOf(tool, "ports")
        case Some(d) => GetOr(args, "ports", d)
        case None => "";
      (name == HostDiscovery ==> argv == ["nmap", "-sn", args["target"]]) &&
      (name == PortScan ==> DefaultOf(tool, "ports").Some? && argv == ["nmap", "-p", ports, args["target"]]) &&
      (name == ServiceDetection ==> DefaultOf(tool, "ports").Some? && argv == ["nmap", "-sV", "-p", ports, args["target"]]) &&
      (name == Custom ==> argv == ["nmap"] + Split(args["arguments"]))
  {
    LookupCatalog(name);
    BuildMatchesCatalog(name, args);
  }

  predicate AgreeOn(a: map<string, string>, b: map<string, string>, keys: set<string>) {
    forall k :: k in keys ==> (k in a <==> k in b) && (k in a ==> a[k] == b[k])
  }

  /** The keys each tool's schema declares. */
  lemma DeclaredKeysCatalog(name: string)
    ensures name in {HostDiscovery, PortScan, ServiceDetection} ==> "target" in DeclaredKeys(name)
    ensures name in {PortScan, ServiceDetection} ==> "ports" in DeclaredKeys(name)
    ensures name == Custom ==> "arguments" in DeclaredKeys(name)
  {
    LookupCatalog(name);
    assert HostDiscoveryTool.properties[0].name == "target";
    assert PortScanTool.properties[0].name == "target" && PortScanTool.properties[1].name == "ports";
    assert ServiceDetectionTool.properties[0].name == "target" && ServiceDetectionTool.properties[1].name == "ports";
    assert CustomTool.properties[0].name == "arguments";
  }

  /** The builder reads nothing but the keys the tool's schema declares:
      extra keys are ignored, whatever their values. */
  lemma BuildReadsDeclaredKeysOnly(name: string, a: map<string, string>, b: map<string, string>)
    requires AgreeOn(a, b, DeclaredKeys(name))
    ensures Build(name, a) == Build(name, b)
  {
    DeclaredKeysCatalog(name);
    if name == HostDiscovery {
      assert "target" in DeclaredKeys(name);
    } else if name == PortScan || name == ServiceDetection {
      assert "target" in DeclaredKeys(name) && "ports" in DeclaredKeys(name);
      assert GetOr(a, "ports", "1-1000") == GetOr(b, "ports", "1-1000");
      assert GetOr(a, "ports", "22,80,443,21,25,53,110,993,995") == GetOr(b, "ports", "22,80,443,21,25,53,110,993,995");
    } else if name == Custom {
      assert "arguments" in DeclaredKeys(name);
    }
  }

  /** The free-form tool: `nmap` followed by the whitespace tokens of the
      `arguments` string, each non-empty and free of whitespace, that
      together hold every non-whitespace character in order; a blank string
      gives `nmap` alone; and the command line shown to the caller splits
      back into the same vector. */
  lemma CustomCommand(args: map<string, string>)
    requires "arguments" in args
    ensures Build(Custom, args).Command?
    ensures var argv := Build(Custom, args).argv;
      var text := args["arguments"];
      argv[0] == "nmap" &&
      (forall i :: 1 <= i < |argv| ==> IsWord(argv[i])) &&
      Concat(argv[1..]) == NonSpace(text) &&
      (argv == ["nmap"] <==> AllSpace(text)) &&
      Split(Join(argv, " ")) == argv
  {
    var text := args["arguments"];
    var argv := Build(Custom, args).argv;
    assert argv == ["nmap"] + Split(text);
    assert argv[1..] == Split(text);
    SplitKeepsNonSpace(text);
    SplitEmptyIffBlank(text);
    assert IsWord("nmap");
    forall i | 0 <= i < |argv| ensures IsWord(argv[i]) {
      if i > 0 { assert argv[i] == Split(text)[i - 1]; }
    }
    SplitJoin(argv);
  }
}
