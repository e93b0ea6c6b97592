/** The tool catalog that `handle_list_tools` advertises: four tool
    definitions, each with string-typed properties and a `required` list. */
module Catalog {

  import opened Wrappers

  /** One entry of an input schema's `properties`; every property the server
      declares has JSON type "string". */
  datatype Property = Property(name: string, description: string, default: Option<string>)

  /** A tool definition: its input schema is an object with `properties`
      and `required`. */
  datatype ToolDef = ToolDef(name: string, description: string, properties: seq<Property>, required: seq<string>)

  const HostDiscovery := "nmap_host_discovery"
  const PortScan := "nmap_port_scan"
  const ServiceDetection := "nmap_service_detection"
  const Custom := "nmap_custom"

  predicate Declares(t: ToolDef, key: string) {
    exists i :: 0 <= i < |t.properties| && t.properties[i].name == key
  }

  const HostDiscoveryTool := ToolDef(HostDiscovery, "Descoberta de hosts ativos na rede usando ping scan",
    [Property("target", "Alvo para scan (IP, hostname ou range como 192.168.1.0/24)", None)],
    ["target"])

  const PortScanTool := ToolDef(PortScan, "Scan de portas TCP básico",
    [Property("target", "IP ou hostname alvo", None),
     Property("ports", "Portas para scan (ex: '22,80,443' ou '1-1000')", Some("1-1000"))],
    ["target"])

  const ServiceDetectionTool := ToolDef(ServiceDetection, "Scan com detecção de serviços e versões",
    [Property("target", "IP ou hostname alvo", None),
     Property("ports", "Portas específicas (padrão: portas comuns)", Some("22,80,443,21,25,53,110,993,995"))],
    ["target"])

  const CustomTool := ToolDef(Custom, "Executar comando NMAP personalizado",
    [Property("arguments", "Argumentos para o NMAP (sem incluir 'nmap')", None)],
    ["arguments"])

  /** The list `handle_list_tools` returns, in its order. */
  function ListTools(): (tools: seq<ToolDef>)
    ensures |tools| == 4
    ensures forall i, j :: 0 <= i < j < |tools| ==> tools[i].name != tools[j].name
    ensures forall i :: 0 <= i < |tools| ==> |tools[i].required| == 1 && Declares(tools[i], tools[i].required[0])
    ensures forall i :: 0 <= i < 3 ==> tools[i].required == ["target"]
    ensures tools[3].required == ["arguments"]
  {
    // The four names have different lengths, hence are distinct.
    assert |HostDiscovery| == 19 && |PortScan| == 14 && |ServiceDetection| == 22 && |Custom| == 11;
    assert HostDiscoveryTool.properties[0].name == "target";
    assert PortScanTool.properties[0].name == "target";
    assert ServiceDetectionTool.properties[0].name == "target";
    assert CustomTool.properties[0].name == "arguments";
    [HostDiscoveryTool, PortScanTool, ServiceDetectionTool, CustomTool]
  }

  /** The first tool in `tools` called `name`, if any. */
  function Find(tools: seq<ToolDef>, name: string): (r: Option<ToolDef>)
    ensures r.Some? ==> r.value in tools && r.value.name == name
    ensures r.Some? ==> exists i :: 0 <= i < |tools| && tools[i] == r.value
                                    && forall j :: 0 <= j < i ==> tools[j].name != name
    ensures r.None? <==> forall i :: 0 <= i < |tools| ==> tools[i].name != name
  {
    if tools == [] then None
    else if tools[0].name == name then Some(tools[0])
    else Find(tools[1..], name)
  }

  function Lookup(name: string): Option<ToolDef> {
    Find(ListTools(), name)
  }

  /** The names of the keys a tool's schema declares; empty for a name
      the catalog does not have. */
  function DeclaredKeys(name: string): set<string> {
    match Lookup(name)
    case None => {}
    case Some(t) => set i | 0 <= i < |t.properties| :: t.properties[i].name
  }

  /** The schema default of property `key` of tool `t`. */
  function DefaultOf(t: ToolDef, key: string): Option<string> {
    DefaultIn(t.properties, key)
  }

  function DefaultIn(ps: seq<Property>, key: string): Option<string> {
    if ps == [] then None
    else if ps[0].name == key then ps[0].default
    else DefaultIn(ps[1..], key)
  }

  /** Looking a name up finds the catalog entry of that name, and finds one
      exactly for the four advertised names. */
  lemma LookupCatalog(name: string)
    ensures Lookup(name).Some? <==> name in {HostDiscovery, PortScan, ServiceDetection, Custom}
    ensures Lookup(name).Some? ==> Lookup(name).value.name == name && Lookup(name).value in ListTools()
    ensures name == HostDiscovery ==> Lookup(name) == Some(ListTools()[0])
    ensures name == PortScan ==> Lookup(name) == Some(ListTools()[1])
    ensures name == ServiceDetection ==> Lookup(name) == Some(ListTools()[2])
    ensures name == Custom ==> Lookup(name) == Some(ListTools()[3])
  {
    var tools := ListTools();
    assert tools[1..][1..][1..][1..] == [];
  }
}
