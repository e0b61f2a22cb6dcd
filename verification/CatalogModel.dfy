/** Catalog entries (`internal/catalog/model.go`) and their capability evidence
    (`internal/capability/matrix.go`). */
module CatalogModel {
  import opened Keys

  datatype Status = Active | Unknown | Meta | Stale | Retired | Disabled

  datatype Evidence = Evidence(supported: bool, source: string, level: string)

  datatype Model = Model(
    id: string, provider: string, status: Status,
    autoRoutable: bool, admitted: bool,
    capabilities: seq<string>, contextWindow: int,
    tools: bool, vision: bool, structuredOutput: bool, structuredOutputKnown: bool,
    parallelTools: bool, thinkingBlocks: bool,
    evidence: map<string, Evidence>, score: int, orphaned: bool)

  function KeyOf(m: Model): string { RouteKey(m.provider, m.id) }

  const FREE_PROVIDER: string := "freellmapi"
  predicate IsAutoApprovedProvider(p: string) { p == FREE_PROVIDER }

  const META_IDS: seq<string> := ["auto", "fusion", "compound", "router", "routing", "subagent",
                                  "sub_agent", "browser_use", "fallback", "aggregator"]
  predicate IsMeta(id: string) { id in META_IDS }

  // ---------------------------------------------------------------- capabilities

  function Flag(m: Model, need: string): Option<bool> {
    if need == "tools" then Some(m.tools)
    else if need == "vision" then Some(m.vision)
    else if need == "structured_output" then Some(m.structuredOutput)
    else if need == "parallel_tools" then Some(m.parallelTools)
    else if need == "thinking_blocks" then Some(m.thinkingBlocks)
    else None
  }

  /** Evidence decides when there is any; otherwise the declared flag, or for a need that
      has no flag the list of named capabilities. */
  predicate Supports(m: Model, need: string) {
    if need in m.evidence then m.evidence[need].supported
    else match Flag(m, need)
      case Some(declared) => declared
      case None => need in m.capabilities
  }
}
