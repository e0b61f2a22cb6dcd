/** What a probe says a model can do (`internal/capability/matrix.go`) and what a request needs
    (`RequiredCapabilities` in `internal/routing/service.go`). */
module Capability {
  import opened Keys
  import opened CatalogModel

  // ---------------------------------------------------------------- probe results

  /** The capabilities a model declares by a flag of its own. */
  datatype Declared = Tools | Vision | StructuredOutput | ParallelTools | ThinkingBlocks

  function NameOf(d: Declared): string {
    match d
    case Tools => "tools"
    case Vision => "vision"
    case StructuredOutput => "structured_output"
    case ParallelTools => "parallel_tools"
    case ThinkingBlocks => "thinking_blocks"
  }

  /** The switch on the name of a result. */
  function DeclaredBy(k: string): Option<Declared> {
    if k == "tools" then Some(Tools)
    else if k == "vision" then Some(Vision)
    else if k == "structured_output" then Some(StructuredOutput)
    else if k == "parallel_tools" then Some(ParallelTools)
    else if k == "thinking_blocks" then Some(ThinkingBlocks)
    else None
  }

  lemma SwitchIsByName(k: string, d: Declared)
    ensures DeclaredBy(k) == Some(d) <==> k == NameOf(d)
  {
    assert |"tools"| == 5 && |"vision"| == 6 && |"structured_output"| == 17;
    assert |"parallel_tools"| == 14 && |"thinking_blocks"| == 15;
  }

  datatype Flags = Flags(tools: bool, vision: bool, structured: bool, parallel: bool, thinking: bool)

  function Get(f: Flags, d: Declared): bool {
    match d
    case Tools => f.tools
    case Vision => f.vision
    case StructuredOutput => f.structured
    case ParallelTools => f.parallel
    case ThinkingBlocks => f.thinking
  }

  function Put(f: Flags, d: Declared, on: bool): (g: Flags)
    ensures forall e :: Get(g, e) == if e == d then on else Get(f, e)
  {
    match d
    case Tools => f.(tools := on)
    case Vision => f.(vision := on)
    case StructuredOutput => f.(structured := on)
    case ParallelTools => f.(parallel := on)
    case ThinkingBlocks => f.(thinking := on)
  }

  function FlagsOf(m: Model): Flags {
    Flags(m.tools, m.vision, m.structuredOutput, m.parallelTools, m.thinkingBlocks)
  }

  /** The flags after some results: each is what its result says, where there is one. */
  ghost predicate FlagsFollow(f: Flags, caps: map<string, Evidence>, g: Flags) {
    forall d :: Get(g, d) == if NameOf(d) in caps then caps[NameOf(d)].supported else Get(f, d)
  }

  lemma OneResult(f: Flags, caps: map<string, Evidence>, g: Flags, k: string, v: Evidence)
    requires FlagsFollow(f, caps, g)
    ensures
      var d := DeclaredBy(k);
      FlagsFollow(f, caps[k := v], if d.Some? then Put(g, d.value, v.supported) else g)
  {
    var d := DeclaredBy(k);
    forall e
      ensures Get(if d.Some? then Put(g, d.value, v.supported) else g, e) ==
              if NameOf(e) in caps[k := v] then caps[k := v][NameOf(e)].supported else Get(f, e)
    {
      SwitchIsByName(k, e);
    }
  }

  function Part(caps: map<string, Evidence>, keys: set<string>): map<string, Evidence> {
    map k | k in caps && k in keys :: caps[k]
  }

  lemma PartGrows(caps: map<string, Evidence>, keys: set<string>, k: string)
    requires k in caps
    ensures Part(caps, keys + {k}) == Part(caps, keys)[k := caps[k]]
  {
  }

  /** A model after a probe: new evidence on top, flags as it says, nothing else. */
  ghost predicate Filed(m: Model, caps: map<string, Evidence>, after: Model) {
    && after.evidence == m.evidence + caps && FlagsFollow(FlagsOf(m), caps, FlagsOf(after))
    && after == m.(evidence := after.evidence, tools := after.tools, vision := after.vision,
                   structuredOutput := after.structuredOutput, parallelTools := after.parallelTools,
                   thinkingBlocks := after.thinkingBlocks)
  }

  /** `Apply`: the results are visited in an arbitrary order, which leaves no trace. */
  method ApplyProbe(m: Model, caps: map<string, Evidence>) returns (after: Model)
    ensures Filed(m, caps, after)
  {
    var evidence, flags := m.evidence, FlagsOf(m);
    ghost var done: set<string> := {};
    var todo := caps.Keys;
    assert m.evidence + Part(caps, {}) == m.evidence;
    while todo != {}
      invariant todo <= caps.Keys && done == caps.Keys - todo
      invariant evidence == m.evidence + Part(caps, done)
      invariant FlagsFollow(FlagsOf(m), Part(caps, done), flags)
    {
      var k :| k in todo;
      PartGrows(caps, done, k);
      OneResult(FlagsOf(m), Part(caps, done), flags, k, caps[k]);
      todo := todo - {k};
      done := done + {k};
      evidence := evidence[k := caps[k]];
      var declared := DeclaredBy(k);
      if declared.Some? {
        flags := Put(flags, declared.value, caps[k].supported);
      }
    }
    assert Part(caps, caps.Keys) == caps && done == caps.Keys;
    after := m.(evidence := evidence, tools := flags.tools, vision := flags.vision,
                structuredOutput := flags.structured, parallelTools := flags.parallel,
                thinkingBlocks := flags.thinking);
  }

  /** What a model answers without evidence. */
  lemma SupportsByFlag(m: Model, need: string)
    ensures Supports(m, need) <==>
      if need in m.evidence then m.evidence[need].supported
      else if DeclaredBy(need).Some? then Get(FlagsOf(m), DeclaredBy(need).value)
      else need in m.capabilities
  {
  }

  /** A filed probe decides every question it has a result for, and no other. */
  lemma ProbeDecides(m: Model, caps: map<string, Evidence>, after: Model, need: string)
    requires Filed(m, caps, after)
    ensures Supports(after, need) <==> if need in caps then caps[need].supported else Supports(m, need)
  {
    SupportsByFlag(m, need);
    SupportsByFlag(after, need);
    var d := DeclaredBy(need);
    if d.Some? {
      SwitchIsByName(need, d.value);
    }
  }

  /** A later probe overrides an earlier one, question by question. */
  lemma LaterProbeWins(m: Model, first: map<string, Evidence>, between: Model, second: map<string, Evidence>,
                       after: Model, once: Model, need: string)
    requires Filed(m, first, between) && Filed(between, second, after) && Filed(m, first + second, once)
    ensures Supports(after, need) <==> Supports(once, need)
  {
    ProbeDecides(between, second, after, need);
    ProbeDecides(m, first, between, need);
    ProbeDecides(m, first + second, once, need);
  }

  // ---------------------------------------------------------------- needs of a request

  /** A message whose content is a list of parts, given by their types; other contents are
      left out. */
  type Message = Option<seq<string>>

  datatype Body = Body(tools: nat, responseFormat: bool, messages: seq<Message>)

  predicate IsImage(part: string) { part == "image_url" || part == "input_image" }

  predicate ShowsImage(m: Message) { m.Some? && exists i :: 0 <= i < |m.value| && IsImage(m.value[i]) }

  predicate NeedsVision(b: Body) { exists i :: 0 <= i < |b.messages| && ShowsImage(b.messages[i]) }

  function NeedsOf(b: Body): seq<string> {
    (if b.tools > 0 then ["tools"] else [])
    + (if b.responseFormat then ["structured_output"] else [])
    + (if NeedsVision(b) then ["vision"] else [])
  }

  method RequiredCapabilities(b: Body) returns (needs: seq<string>)
    ensures needs == NeedsOf(b)
    ensures "tools" in needs <==> b.tools > 0
    ensures "structured_output" in needs <==> b.responseFormat
    ensures "vision" in needs <==> NeedsVision(b)
    ensures forall n :: n in needs ==> n == "tools" || n == "structured_output" || n == "vision"
    ensures forall i, j :: 0 <= i < j < |needs| ==> needs[i] != needs[j]
  {
    needs := [];
    if b.tools > 0 {
      needs := needs + ["tools"];
    }
    if b.responseFormat {
      needs := needs + ["structured_output"];
    }
    var vision := FindImage(b.messages);
    if vision {
      needs := needs + ["vision"];
    }
  }

  method FindImage(messages: seq<Message>) returns (vision: bool)
    ensures vision <==> exists i :: 0 <= i < |messages| && ShowsImage(messages[i])
  {
    vision := false;
    for n := 0 to |messages|
      invariant vision <==> exists i :: 0 <= i < n && ShowsImage(messages[i])
    {
      if messages[n].Some? {
        var parts := messages[n].value;
        ghost var before := vision;
        for k := 0 to |parts|
          invariant vision <==> before || exists i :: 0 <= i < k && IsImage(parts[i])
        {
          if parts[k] == "image_url" || parts[k] == "input_image" {
            vision := true;
          }
        }
        assert (exists i :: 0 <= i < |parts| && IsImage(parts[i])) <==> ShowsImage(messages[n]);
      }
    }
  }

  // ---------------------------------------------------------------- in plain values

  /** The five flags after a filed probe: what its result of that name says, or as before. */
  lemma FlagsAfterProbe(m: Model, caps: map<string, Evidence>, after: Model)
    requires Filed(m, caps, after)
    ensures after.tools == if "tools" in caps then caps["tools"].supported else m.tools
    ensures after.vision == if "vision" in caps then caps["vision"].supported else m.vision
    ensures after.structuredOutput ==
            if "structured_output" in caps then caps["structured_output"].supported else m.structuredOutput
    ensures after.parallelTools == if "parallel_tools" in caps then caps["parallel_tools"].supported else m.parallelTools
    ensures after.thinkingBlocks == if "thinking_blocks" in caps then caps["thinking_blocks"].supported else m.thinkingBlocks
    ensures after.status == m.status && after.admitted == m.admitted && after.autoRoutable == m.autoRoutable
  {
    OneFlag(m, caps, after, Tools);
    OneFlag(m, caps, after, Vision);
    OneFlag(m, caps, after, StructuredOutput);
    OneFlag(m, caps, after, ParallelTools);
    OneFlag(m, caps, after, ThinkingBlocks);
  }

  lemma OneFlag(m: Model, caps: map<string, Evidence>, after: Model, d: Declared)
    requires Filed(m, caps, after)
    ensures Get(FlagsOf(after), d) == if NameOf(d) in caps then caps[NameOf(d)].supported else Get(FlagsOf(m), d)
  {
  }

  /** The needs of a request, in order; an image is a part of type "image_url" or "input_image"
      in any message. */
  lemma NeedsAre(b: Body)
    ensures
      var image := exists m :: m in b.messages && m.Some? && ("image_url" in m.value || "input_image" in m.value);
      NeedsOf(b) == (if b.tools == 0 then [] else ["tools"])
                    + (if b.responseFormat then ["structured_output"] else []) + (if image then ["vision"] else [])
  {
    forall m: Message | m.Some? ensures ShowsImage(m) <==> "image_url" in m.value || "input_image" in m.value {
      PartsShown(m.value);
    }
    if m :| m in b.messages && m.Some? && ("image_url" in m.value || "input_image" in m.value) {
      var i :| 0 <= i < |b.messages| && b.messages[i] == m;
      assert ShowsImage(b.messages[i]);
    }
    if i :| 0 <= i < |b.messages| && ShowsImage(b.messages[i]) {
      assert b.messages[i] in b.messages;
    }
  }

  lemma PartsShown(parts: seq<string>)
    ensures ShowsImage(Some(parts)) <==> "image_url" in parts || "input_image" in parts
  {
    if "image_url" in parts {
      var i :| 0 <= i < |parts| && parts[i] == "image_url";
      assert IsImage(parts[i]);
    }
    if "input_image" in parts {
      var i :| 0 <= i < |parts| && parts[i] == "input_image";
      assert IsImage(parts[i]);
    }
  }
}
