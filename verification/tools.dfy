/** The tool registry (agent-core/packages/agent/tools/tools.go). A tool is
    either an HTTP tool built from configuration or any other implementation,
    of which only the name, description and schema are visible here; running
    a tool is an oracle supplied by the caller. */
module Tools {
  import opened Wrappers
  import HttpTools
  import Strs

  datatype Tool =
    | Http(h: HttpTools.HttpTool)
    | Builtin(toolName: string, toolDescription: string, toolParameters: HttpTools.ToolParameters)
  {
    function Name(): string {
      match this
      case Http(h) => h.name
      case Builtin(n, _, _) => n
    }
    function Description(): string {
      match this
      case Http(h) => h.description
      case Builtin(_, d, _) => d
    }
    function Parameters(): HttpTools.ToolParameters {
      match this
      case Http(h) => HttpTools.Parameters(h)
      case Builtin(_, _, p) => p
    }
  }

  /** Tools by name. */
  datatype Registry = Registry(tools: map<string, Tool>)

  /** Every entry sits under its own tool's name; `Register` keeps this. */
  predicate Valid(r: Registry) {
    forall n :: n in r.tools ==> r.tools[n].Name() == n
  }

  function NewRegistry(): (r: Registry)
    ensures Valid(r) && forall n :: Get(r, n).None?
  {
    Registry(map[])
  }

  /** `Register`: the tool is filed under its name, replacing any earlier
      tool of that name; every other name is untouched. */
  function Register(r: Registry, t: Tool): (r': Registry)
    ensures Get(r', t.Name()) == Some(t)
    ensures forall n :: n != t.Name() ==> Get(r', n) == Get(r, n)
    ensures Valid(r) ==> Valid(r')
  {
    Registry(r.tools[t.Name() := t])
  }

  /** `Get` (and `GetTool`, whose nil result is `None` here). */
  function Get(r: Registry, name: string): (t: Option<Tool>)
    ensures t.Some? <==> name in r.tools
    ensures t.Some? ==> t.value == r.tools[name]
  {
    if name in r.tools then Some(r.tools[name]) else None
  }

  /** `order` lists every registered name exactly once. Go's map iteration
      order is unspecified, so functions that depend on it take the order as
      a parameter constrained by this predicate. */
  predicate IsListing(order: seq<string>, r: Registry) {
    (forall i, j :: 0 <= i < j < |order| ==> order[i] != order[j])
    && (forall i :: 0 <= i < |order| ==> order[i] in r.tools)
    && (forall n :: n in r.tools ==> n in order)
  }

  /** `ListTools`: every registered name, once each, in some order. */
  method ListTools(r: Registry) returns (names: seq<string>)
    ensures IsListing(names, r)
    ensures |names| == |r.tools.Keys|
  {
    names := [];
    var rest := r.tools.Keys;
    while rest != {}
      invariant rest <= r.tools.Keys
      invariant forall n :: n in names <==> n in r.tools && n !in rest
      invariant forall i, j :: 0 <= i < j < |names| ==> names[i] != names[j]
      invariant |names| + |rest| == |r.tools.Keys|
      decreases rest
    {
      var n :| n in rest;
      names := names + [n];
      rest := rest - {n};
    }
  }

  /** The tools in a given listing order. */
  function ToolsInOrder(r: Registry, order: seq<string>): (ts: seq<Tool>)
    requires IsListing(order, r)
    ensures |ts| == |order|
    ensures forall i :: 0 <= i < |ts| ==> ts[i] == r.tools[order[i]]
  {
    seq(|order|, i requires 0 <= i < |order| => r.tools[order[i]])
  }

  /** `All`: every registered tool once, in some order; in a valid registry
      no two of them share a name. */
  method All(r: Registry) returns (ts: seq<Tool>)
    ensures |ts| == |r.tools.Keys|
    ensures forall t :: t in ts <==> t in r.tools.Values
    ensures Valid(r) ==> forall i, j :: 0 <= i < j < |ts| ==> ts[i].Name() != ts[j].Name()
  {
    var names := ListTools(r);
    ts := ToolsInOrder(r, names);
    forall t | t in r.tools.Values
      ensures t in ts
    {
      var n :| n in r.tools && r.tools[n] == t;
      var i :| 0 <= i < |names| && names[i] == n;
      assert ts[i] == t;
    }
  }

  /** The error (if any) a configuration contributes to
      `NewRegistryFromConfig`, or the tool it registers. */
  function ToolFromConfig(cfg: HttpTools.ToolConfig): (r: Result<Tool, string>)
    requires cfg.name != ""
    ensures r.Ok? <==> cfg.toolType == "http" && cfg.endpoint != ""
    ensures r.Ok? ==> r.value == Http(HttpTools.NewHttpTool(cfg).value) && r.value.Name() == cfg.name
    ensures cfg.toolType == "http" && cfg.endpoint == "" ==>
              r == Err("tool " + Strs.Quote(cfg.name) + ": " + "http tool requires name and endpoint")
    ensures cfg.toolType in {"mcp", "command"} ==>
              r == Err("tool " + Strs.Quote(cfg.name) + ": " + ("tool type " + Strs.Quote(cfg.toolType) + " not yet implemented"))
    ensures cfg.toolType !in {"http", "mcp", "command"} ==>
              r == Err("tool " + Strs.Quote(cfg.name) + ": " + ("unknown tool type " + Strs.Quote(cfg.toolType)))
  {
    var built: Result<Tool, string> :=
      if cfg.toolType == "http" then
        match HttpTools.NewHttpTool(cfg)
        case Ok(h) => Ok(Http(h))
        case Err(e) => Err(e)
      else if cfg.toolType == "mcp" || cfg.toolType == "command" then
        Err("tool type " + Strs.Quote(cfg.toolType) + " not yet implemented")
      else Err("unknown tool type " + Strs.Quote(cfg.toolType));
    match built
    case Ok(t) => Ok(t)
    case Err(e) => Err("tool " + Strs.Quote(cfg.name) + ": " + e)
  }

  /** Configurations that `NewRegistryFromConfig` accepts: each named one is
      a valid HTTP tool; unnamed ones are skipped. */
  predicate AllBuildable(cfgs: seq<HttpTools.ToolConfig>) {
    forall i :: 0 <= i < |cfgs| && cfgs[i].name != "" ==> cfgs[i].toolType == "http" && cfgs[i].endpoint != ""
  }

  /** `NewRegistryFromConfig`, continuing into the registry `acc`: skips
      unnamed entries, stops at the first failing one with its error, and
      otherwise registers every tool in order. */
  function RegisterConfigs(acc: Registry, cfgs: seq<HttpTools.ToolConfig>): (r: Result<Registry, string>)
    ensures r.Ok? <==> AllBuildable(cfgs)
    ensures r.Ok? && Valid(acc) ==> Valid(r.value)
    decreases |cfgs|
  {
    if |cfgs| == 0 then Ok(acc)
    else if cfgs[0].name == "" then
      assert forall i :: 1 <= i < |cfgs| ==> cfgs[i] == cfgs[1..][i - 1];
      RegisterConfigs(acc, cfgs[1..])
    else
      assert forall i :: 1 <= i < |cfgs| ==> cfgs[i] == cfgs[1..][i - 1];
      match ToolFromConfig(cfgs[0])
      case Err(e) => Err(e)
      case Ok(t) => RegisterConfigs(Register(acc, t), cfgs[1..])
  }

  function NewRegistryFromConfig(cfgs: seq<HttpTools.ToolConfig>): (r: Result<Registry, string>)
    ensures r.Ok? <==> AllBuildable(cfgs)
    ensures r.Ok? ==> Valid(r.value)
  {
    RegisterConfigs(NewRegistry(), cfgs)
  }

  /** The configuration that decides what a name maps to: the last named
      entry carrying it. */
  predicate LastWithName(cfgs: seq<HttpTools.ToolConfig>, i: int) {
    0 <= i < |cfgs| && cfgs[i].name != "" && forall j :: i < j < |cfgs| ==> cfgs[j].name != cfgs[i].name
  }

  /** The registry built from accepted configurations holds exactly the
      named entries, each name bound to the tool of its last configuration,
      and names of the starting registry that no entry uses are unchanged. */
  lemma {:induction false} RegisterConfigsContents(acc: Registry, cfgs: seq<HttpTools.ToolConfig>, n: string)
    requires AllBuildable(cfgs)
    ensures RegisterConfigs(acc, cfgs).Ok?
    ensures (forall i :: 0 <= i < |cfgs| ==> cfgs[i].name != n) ==>
              Get(RegisterConfigs(acc, cfgs).value, n) == Get(acc, n)
    ensures forall i :: LastWithName(cfgs, i) && cfgs[i].name == n ==>
              Get(RegisterConfigs(acc, cfgs).value, n) == Some(Http(HttpTools.NewHttpTool(cfgs[i]).value))
    decreases |cfgs|
  {
    RegisterConfigsUntouched(acc, cfgs, n);
    forall i | LastWithName(cfgs, i) && cfgs[i].name == n
      ensures Get(RegisterConfigs(acc, cfgs).value, n) == Some(Http(HttpTools.NewHttpTool(cfgs[i]).value))
    {
      RegisterConfigsLast(acc, cfgs, i);
    }
  }

  /** The last entry carrying a name decides that name's tool. */
  lemma {:induction false} RegisterConfigsLast(acc: Registry, cfgs: seq<HttpTools.ToolConfig>, i: int)
    requires AllBuildable(cfgs) && LastWithName(cfgs, i)
    ensures RegisterConfigs(acc, cfgs).Ok?
    ensures Get(RegisterConfigs(acc, cfgs).value, cfgs[i].name) == Some(Http(HttpTools.NewHttpTool(cfgs[i]).value))
    decreases |cfgs|
  {
    var tail := cfgs[1..];
    var acc' := RegisterConfigsStep(acc, cfgs);
    if i > 0 {
      assert tail[i - 1] == cfgs[i];
      assert LastWithName(tail, i - 1);
      RegisterConfigsLast(acc', tail, i - 1);
    } else {
      assert forall j :: 0 <= j < |tail| ==> tail[j] == cfgs[j + 1];
      RegisterConfigsUntouched(acc', tail, cfgs[0].name);
    }
  }

  /** A name no entry carries keeps its binding in the starting registry. */
  lemma {:induction false} RegisterConfigsUntouched(acc: Registry, cfgs: seq<HttpTools.ToolConfig>, n: string)
    requires AllBuildable(cfgs)
    ensures RegisterConfigs(acc, cfgs).Ok?
    ensures (forall i :: 0 <= i < |cfgs| ==> cfgs[i].name != n) ==>
              Get(RegisterConfigs(acc, cfgs).value, n) == Get(acc, n)
    decreases |cfgs|
  {
    if |cfgs| > 0 {
      var acc' := RegisterConfigsStep(acc, cfgs);
      RegisterConfigsUntouched(acc', cfgs[1..], n);
      assert forall i :: 1 <= i < |cfgs| ==> cfgs[i] == cfgs[1..][i - 1];
    }
  }

  /** One step of `RegisterConfigs` over buildable entries: the first entry
      is skipped when unnamed and registered otherwise, and the rest stay
      buildable. */
  lemma RegisterConfigsStep(acc: Registry, cfgs: seq<HttpTools.ToolConfig>) returns (acc': Registry)
    requires |cfgs| > 0 && AllBuildable(cfgs)
    ensures AllBuildable(cfgs[1..])
    ensures cfgs[0].name == "" ==> acc' == acc
    ensures cfgs[0].name != "" ==> acc' == Register(acc, Http(HttpTools.NewHttpTool(cfgs[0]).value))
    ensures RegisterConfigs(acc, cfgs) == RegisterConfigs(acc', cfgs[1..])
  {
    var tail := cfgs[1..];
    assert AllBuildable(tail) by {
      forall i | 0 <= i < |tail| && tail[i].name != "" ensures tail[i].toolType == "http" && tail[i].endpoint != "" {
        assert tail[i] == cfgs[i + 1];
      }
    }
    acc' := if cfgs[0].name == "" then acc else Register(acc, ToolFromConfig(cfgs[0]).value);
  }

  /** `NewRegistryFromConfig` registers a name exactly when some entry
      carries it, bound to the tool of the last such entry. */
  lemma NewRegistryFromConfigContents(cfgs: seq<HttpTools.ToolConfig>, n: string)
    requires AllBuildable(cfgs)
    ensures NewRegistryFromConfig(cfgs).Ok?
    ensures n == "" || (forall i :: 0 <= i < |cfgs| ==> cfgs[i].name != n) ==>
              Get(NewRegistryFromConfig(cfgs).value, n).None?
    ensures forall i :: LastWithName(cfgs, i) && cfgs[i].name == n ==>
              Get(NewRegistryFromConfig(cfgs).value, n) == Some(Http(HttpTools.NewHttpTool(cfgs[i]).value))
  {
    RegisterConfigsContents(NewRegistry(), cfgs, n);
    EmptyNameNeverRegistered(NewRegistry(), cfgs);
  }

  /** Unnamed entries are skipped, so the empty name is never registered. */
  lemma {:induction false} EmptyNameNeverRegistered(acc: Registry, cfgs: seq<HttpTools.ToolConfig>)
    requires AllBuildable(cfgs)
    ensures RegisterConfigs(acc, cfgs).Ok?
    ensures Get(RegisterConfigs(acc, cfgs).value, "") == Get(acc, "")
    decreases |cfgs|
  {
    if |cfgs| > 0 {
      var tail := cfgs[1..];
      assert forall i :: 1 <= i < |cfgs| ==> cfgs[i] == tail[i - 1];
      assert AllBuildable(tail);
      var acc' := if cfgs[0].name == "" then acc else Register(acc, ToolFromConfig(cfgs[0]).value);
      EmptyNameNeverRegistered(acc', tail);
    }
  }

  /** A rejected configuration list fails with the error of its first
      failing named entry; entries before it were all accepted. */
  lemma {:induction false} FirstFailureReported(acc: Registry, cfgs: seq<HttpTools.ToolConfig>, k: nat)
    requires k < |cfgs| && cfgs[k].name != "" && ToolFromConfig(cfgs[k]).Err?
    requires AllBuildable(cfgs[..k])
    ensures RegisterConfigs(acc, cfgs) == Err(ToolFromConfig(cfgs[k]).error)
    decreases k
  {
    var tail := cfgs[1..];
    assert forall i :: 1 <= i < |cfgs| ==> cfgs[i] == tail[i - 1];
    if k > 0 {
      var prefix := tail[..k - 1];
      assert AllBuildable(prefix) by {
        forall i | 0 <= i < |prefix| && prefix[i].name != ""
          ensures prefix[i].toolType == "http" && prefix[i].endpoint != ""
        {
          assert prefix[i] == cfgs[..k][i + 1];
        }
      }
      assert cfgs[..k][0] == cfgs[0];
      var acc' := if cfgs[0].name == "" then acc else Register(acc, ToolFromConfig(cfgs[0]).value);
      FirstFailureReported(acc', tail, k - 1);
    }
  }
}
