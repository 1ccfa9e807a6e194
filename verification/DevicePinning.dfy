/**
 packages/agent-driver-agent-device/driver.ts: a client's command for a hosted device, a JSON tree
 whose batches nest, is inspected and then pinned to the one leased device. The rule table of
 device-policy.ts is a parameter, so the theorems hold for every table.
 */
module DevicePinning {
  import opened Options

  datatype Json = Null | Bool(b: bool) | Num(n: int) | Str(s: string) | Arr(items: seq<Json>)
    | Obj(fields: map<string, Json>)

  type Fields = map<string, Json>

  const AMBIENT: set<string> := {
    "cwd", "stateDir", "config", "remoteConfig", "daemonBaseUrl", "daemonAuthToken", "daemonTransport",
    "daemonServerMode", "tenant", "tenantId", "runId", "clientId", "deviceKey", "leaseBackend", "sessionIsolation",
    "leaseProvider", "provider"
  }

  const HOST_INPUTS: set<string> := {
    "out", "saveScript", "sessionSaveScript", "baseline", "launchConsole", "launchArgs", "launchUrl", "bundleUrl",
    "artifactsDir", "stepsFile", "searchPath", "retainPaths", "installSource", "metroProjectRoot", "metroRuntimeFile",
    "iosXctestrunFile", "iosXctestDerivedDataPath", "iosXctestEnvDir", "developerDir", "artifact", "dsym", "reportJunit"
  }

  const SESSION_INPUTS: set<string> := {"platform", "verbose", "session", "leaseId", "noRecord"}

  const SELECTORS: set<string> := {"device", "udid", "serial", "target", "iosSimulatorDeviceSet",
                                   "androidDeviceAllowlist"}

  datatype Device = Device(android: bool, id: string) {
    function Platform(): Json {
      Str(if android then "android" else "ios")
    }

    function Selector(): string {
      if android then "serial" else "udid"
    }
  }

  datatype Rule = Command | HostPath | Request | AnotherDevice

  /**
   The table: the keys a command's flags and inputs may use (None for a command it does not have), the check
   of its positionals and parameters, and two string tests.
   */
  datatype Policy = Policy(
    keys: string -> Option<set<string>>,
    positionals: (string, seq<Json>, Fields) -> Option<Rule>,
    remoteScreenshot: Json -> bool,
    trim: string -> string)

  // ---------------------------------------------------------------- inspecting

  function CommandOf(params: Fields): string {
    if "command" in params && params["command"].Str? then params["command"].s else ""
  }

  function PositionalsOf(params: Fields): seq<Json> {
    if "positionals" in params && params["positionals"].Arr? then params["positionals"].items else []
  }

  /** The flags or the input of a command, when they are an object. */
  function Part(params: Fields, name: string): Option<Fields> {
    if name in params && params[name].Obj? then Some(params[name].fields) else None
  }

  predicate NamesAnother(fields: Fields, key: string, id: string) {
    key in fields && fields[key] != Str(id)
  }

  predicate RecordStart(params: Fields) {
    CommandOf(params) == "record" && PositionalsOf(params) != [] && PositionalsOf(params)[0] == Str("start")
  }

  predicate Allowed(p: Policy, command: string, key: string) {
    key in AMBIENT || key in SELECTORS || key in SESSION_INPUTS
    || (p.keys(command).Some? && key in p.keys(command).value)
  }

  /** One of these inputs is given, other than as false or as a remote destination. */
  predicate Takes(p: Policy, inputs: set<string>, params: Fields, fields: Fields) {
    exists key <- inputs ::
      && key in fields && fields[key] != Bool(false)
      && !(CommandOf(params) == "screenshot" && key == "out" && p.remoteScreenshot(fields[key]))
      && !(RecordStart(params) && key == "out")
  }

  predicate TakesHostInput(p: Policy, params: Fields, fields: Fields) {
    Takes(p, HOST_INPUTS, params, fields)
  }

  /** The checks on one object of flags or inputs. */
  function InspectPart(p: Policy, d: Device, params: Fields, part: Option<Fields>): Option<Rule> {
    if part.None? then None
    else
      var fields := part.value;
      if d.android && NamesAnother(fields, "serial", d.id) then Some(AnotherDevice)
      else if !d.android && "udid" in fields && fields["udid"].Str? && p.trim(fields["udid"].s) != d.id
           then Some(AnotherDevice)
      else if "shutdown" in fields && fields["shutdown"] == Bool(true) then Some(Command)
      else if exists key <- fields :: !Allowed(p, CommandOf(params), key) then Some(Request)
      else if TakesHostInput(p, params, fields) then Some(HostPath)
      else None
  }

  /** The checks on a command before its batch. */
  function InspectHead(p: Policy, d: Device, params: Fields): Option<Rule> {
    if p.keys(CommandOf(params)).None? then Some(Command)
    else if d.android && NamesAnother(params, "serial", d.id) then Some(AnotherDevice)
    else if Part(params, "runtime").Some? && Part(params, "runtime").value != map[] then Some(HostPath)
    else
      var flags := InspectPart(p, d, params, Part(params, "flags"));
      if flags.Some? then flags
      else
        var input := InspectPart(p, d, params, Part(params, "input"));
        if input.Some? then input else p.positionals(CommandOf(params), PositionalsOf(params), params)
  }

  /** inspectDeviceCommand: None when the command and all its batch steps are accepted. */
  function Inspect(p: Policy, d: Device, node: Json): Option<Rule>
    requires node.Obj?
    decreases node, 0
  {
    var params := node.fields;
    var head := InspectHead(p, d, params);
    if head.Some? then head
    else
      var flags := if "flags" in params then InspectBatch(p, d, params["flags"]) else None;
      if flags.Some? then flags
      else if "input" in params then InspectBatch(p, d, params["input"]) else None
  }

  function InspectBatch(p: Policy, d: Device, part: Json): Option<Rule>
    decreases part, 0
  {
    if !part.Obj? || "batchSteps" !in part.fields then None
    else if !part.fields["batchSteps"].Arr? then Some(Request)
    else InspectSteps(p, d, part.fields["batchSteps"], 0)
  }

  function InspectSteps(p: Policy, d: Device, steps: Json, i: nat): Option<Rule>
    requires steps.Arr? && i <= |steps.items|
    decreases steps, |steps.items| - i
  {
    if i == |steps.items| then None
    else
      var step := steps.items[i];
      if !step.Obj? then Some(Request)
      else if "command" in step.fields && step.fields["command"] == Str("record") then Some(Command)
      else
        var failure := Inspect(p, d, step);
        if failure.Some? then failure else InspectSteps(p, d, steps, i + 1)
  }

  // ---------------------------------------------------------------- pinning

  /** The fields that stay: no device selector and nothing of the client's own. */
  function Kept(part: Json): Fields {
    if part.Obj? then map k | k in part.fields && k !in SELECTORS && k !in AMBIENT :: part.fields[k] else map[]
  }

  function Named(d: Device, fields: Fields): Fields {
    fields["platform" := d.Platform()][d.Selector() := Str(d.id)]
  }

  /** The flags or input of a pinned command. */
  function PinPart(d: Device, part: Json): Json
    decreases part, 1
  {
    var source := Kept(part);
    if "batchSteps" in source && source["batchSteps"].Arr? then
      Obj(Named(d, source)["batchSteps" := PinSteps(d, part.fields["batchSteps"])])
    else Obj(Named(d, source))
  }

  function PinSteps(d: Device, steps: Json): Json
    requires steps.Arr?
    decreases steps, 1
  {
    Arr(seq(|steps.items|, i requires 0 <= i < |steps.items| => Pin(d, steps.items[i])))
  }

  function Only(params: Fields, key: string): Fields {
    if key in params then map[key := params[key]] else map[]
  }

  /** A pinned command: what it keeps of the old one, its flags, and its input if it had one. */
  function Assemble(params: Fields, flags: Json, input: Option<Json>): Fields {
    Only(params, "command") + Only(params, "session") + Only(params, "positionals")
    + map["flags" := flags] + if input.Some? then map["input" := input.value] else map[]
  }

  /** pinDeviceCommand; a step that is no object does not pass inspection. */
  function Pin(d: Device, node: Json): Json
    decreases node, 0
  {
    if !node.Obj? then node
    else
      var params := node.fields;
      Obj(Assemble(params, if "flags" in params then PinPart(d, params["flags"]) else Obj(Named(d, map[])),
                   if "input" in params && params["input"].Obj? then Some(PinPart(d, params["input"])) else None))
  }

  lemma AssembleShape(params: Fields, flags: Json, input: Option<Json>)
    ensures var out := Assemble(params, flags, input);
            && out.Keys <= {"command", "session", "positionals", "flags", "input"}
            && "flags" in out && out["flags"] == flags && ("input" in out <==> input.Some?)
            && (input.Some? ==> out["input"] == input.value)
            && forall k | k in {"command", "session", "positionals"} ::
                 (k in out <==> k in params) && (k in out ==> out[k] == params[k])
  {
  }

  /** What pinning makes of each part of a command. */
  lemma PinShape(d: Device, node: Json)
    requires node.Obj?
    ensures var params, out := node.fields, Pin(d, node);
            && out.Obj? && out.fields.Keys <= {"command", "session", "positionals", "flags", "input"}
            && Only(out.fields, "command") == Only(params, "command")
            && Only(out.fields, "session") == Only(params, "session")
            && Only(out.fields, "positionals") == Only(params, "positionals")
            && "flags" in out.fields
            && out.fields["flags"] == (if "flags" in params then PinPart(d, params["flags"]) else Obj(Named(d, map[])))
            && ("input" in out.fields <==> "input" in params && params["input"].Obj?)
            && ("input" in out.fields ==> out.fields["input"] == PinPart(d, params["input"]))
  {
    var params, out := node.fields, Pin(d, node).fields;
    AssembleShape(params, if "flags" in params then PinPart(d, params["flags"]) else Obj(Named(d, map[])),
                  if "input" in params && params["input"].Obj? then Some(PinPart(d, params["input"])) else None);
    SameOnly(out, params, "command");
    SameOnly(out, params, "session");
    SameOnly(out, params, "positionals");
  }

  lemma SameOnly(a: Fields, b: Fields, key: string)
    requires (key in a <==> key in b) && (key in a ==> a[key] == b[key])
    ensures Only(a, key) == Only(b, key)
  {
  }

  lemma PartShape(d: Device, part: Json)
    ensures var source, out := Kept(part), PinPart(d, part);
            && out.Obj? && out.fields.Keys == source.Keys + {"platform", d.Selector()}
            && out.fields["platform"] == d.Platform() && out.fields[d.Selector()] == Str(d.id)
            && (forall k | k in source && k != "platform" && k != "batchSteps" :: out.fields[k] == source[k])
            && ("batchSteps" in out.fields <==> "batchSteps" in source)
            && ("batchSteps" in source && source["batchSteps"].Arr? ==>
                  out.fields["batchSteps"] == PinSteps(d, source["batchSteps"]))
            && ("batchSteps" in source && !source["batchSteps"].Arr? ==>
                  out.fields["batchSteps"] == source["batchSteps"])
  {
  }

  lemma BatchKept(part: Json)
    requires part.Obj?
    ensures "batchSteps" in Kept(part) <==> "batchSteps" in part.fields
    ensures "batchSteps" in part.fields ==> Kept(part)["batchSteps"] == part.fields["batchSteps"]
  {
  }

  // ---------------------------------------------------------------- the commands are kept

  /** What flags or input ask for, apart from the device, what is the client's own, and the batch. */
  function Asked(params: Fields, name: string): Fields {
    if name !in params || !params[name].Obj? then map[]
    else
      var fields := params[name].fields;
      map k | k in fields && k !in SELECTORS + AMBIENT + {"platform", "batchSteps"} :: fields[k]
  }

  /** A command as it runs: its name, session and positionals, and what its flags and input ask for. */
  datatype Line = Line(command: Fields, session: Fields, positionals: Fields, flags: Fields, input: Fields)

  function LineOf(params: Fields): Line {
    Line(Only(params, "command"), Only(params, "session"), Only(params, "positionals"),
         Asked(params, "flags"), Asked(params, "input"))
  }

  lemma AskedKept(d: Device, a: Fields, b: Fields, name: string)
    requires name in a && name in b && b[name] == PinPart(d, a[name])
    ensures Asked(b, name) == Asked(a, name)
  {
    PartShape(d, a[name]);
    forall k | k !in SELECTORS + AMBIENT + {"platform", "batchSteps"}
      ensures k in b[name].fields <==> a[name].Obj? && k in a[name].fields
    {
      assert d.Selector() in SELECTORS;
    }
  }

  lemma NothingAsked(d: Device, params: Fields, name: string)
    requires name in params && params[name] == Obj(Named(d, map[]))
    ensures Asked(params, name) == map[]
  {
    assert d.Selector() in SELECTORS;
  }

  lemma LineKept(d: Device, node: Json)
    requires node.Obj?
    ensures Pin(d, node).Obj? && LineOf(Pin(d, node).fields) == LineOf(node.fields)
  {
    PinShape(d, node);
    var params, out := node.fields, Pin(d, node).fields;
    if "flags" in params { AskedKept(d, params, out, "flags"); } else { NothingAsked(d, out, "flags"); }
    if "input" in out { AskedKept(d, params, out, "input"); }
  }

  /** The commands of a tree, depth first: its own, then its flags' batch, then its input's. */
  function Trace(node: Json): seq<Line>
    decreases node, 0
  {
    if !node.Obj? then []
    else [LineOf(node.fields)]
         + (if "flags" in node.fields then TracePart(node.fields["flags"]) else [])
         + if "input" in node.fields then TracePart(node.fields["input"]) else []
  }

  function TracePart(part: Json): seq<Line>
    decreases part, 0
  {
    if part.Obj? && "batchSteps" in part.fields && part.fields["batchSteps"].Arr?
    then TraceSteps(part.fields["batchSteps"], 0) else []
  }

  function TraceSteps(steps: Json, i: nat): seq<Line>
    requires steps.Arr? && i <= |steps.items|
    decreases steps, |steps.items| - i
  {
    if i == |steps.items| then [] else Trace(steps.items[i]) + TraceSteps(steps, i + 1)
  }

  lemma {:induction false} TraceKept(d: Device, node: Json)
    ensures Trace(Pin(d, node)) == Trace(node)
    decreases node, 0
  {
    if node.Obj? {
      PinShape(d, node);
      LineKept(d, node);
      if "flags" in node.fields { PartTraceKept(d, node.fields["flags"]); }
      if "input" in node.fields && node.fields["input"].Obj? { PartTraceKept(d, node.fields["input"]); }
      NothingNamed(d);
    }
  }

  lemma NothingNamed(d: Device)
    ensures TracePart(Obj(Named(d, map[]))) == []
  {
  }

  lemma {:induction false} PartTraceKept(d: Device, part: Json)
    ensures TracePart(PinPart(d, part)) == TracePart(part)
    decreases part, 1
  {
    PartShape(d, part);
    if part.Obj? {
      BatchKept(part);
      if "batchSteps" in part.fields && part.fields["batchSteps"].Arr? {
        StepsTraceKept(d, part.fields["batchSteps"], 0);
      }
    }
  }

  lemma {:induction false} StepsTraceKept(d: Device, steps: Json, i: nat)
    requires steps.Arr? && i <= |steps.items|
    ensures TraceSteps(PinSteps(d, steps), i) == TraceSteps(steps, i)
    decreases steps, |steps.items| - i
  {
    if i < |steps.items| {
      TraceKept(d, steps.items[i]);
      StepsTraceKept(d, steps, i + 1);
    }
  }

  // ---------------------------------------------------------------- what acceptance means

  ghost predicate Accepts(p: Policy, d: Device, node: Json) {
    node.Obj? && Inspect(p, d, node).None?
  }

  lemma {:induction false} StepsAccepted(p: Policy, d: Device, steps: Json, i: nat, k: nat)
    requires steps.Arr? && i <= k < |steps.items| && InspectSteps(p, d, steps, i).None?
    ensures Accepts(p, d, steps.items[k]) && CommandOf(steps.items[k].fields) != "record"
    decreases k - i
  {
    if i < k { StepsAccepted(p, d, steps, i + 1, k); }
  }

  lemma HeadAccepted(p: Policy, d: Device, node: Json)
    requires Accepts(p, d, node)
    ensures p.keys(CommandOf(node.fields)).Some?
    ensures InspectPart(p, d, node.fields, Part(node.fields, "flags")).None?
            && InspectPart(p, d, node.fields, Part(node.fields, "input")).None?
    ensures "flags" in node.fields ==> InspectBatch(p, d, node.fields["flags"]).None?
    ensures "input" in node.fields ==> InspectBatch(p, d, node.fields["input"]).None?
  {
  }

  // ---------------------------------------------------------------- exactly what is accepted

  /** A command as inspection sees it: its name, and its positionals. */
  ghost predicate IsCalled(params: Fields, command: string, positionals: seq<Json>) {
    && (if "command" in params && params["command"].Str? then params["command"] == Str(command) else command == "")
    && if "positionals" in params && params["positionals"].Arr? then params["positionals"] == Arr(positionals)
       else positionals == []
  }

  /** An `out` that may be named: of a screenshot sent back, or of a recording's start. */
  ghost predicate MayName(p: Policy, command: string, positionals: seq<Json>, value: Json) {
    || (command == "screenshot" && p.remoteScreenshot(value))
    || (command == "record" && |positionals| > 0 && positionals[0] == Str("start"))
  }

  ghost predicate AsksShutdown(fields: Fields) {
    "shutdown" in fields && fields["shutdown"] == Bool(true)
  }

  ghost predicate AsksAnother(p: Policy, d: Device, fields: Fields) {
    if d.android then "serial" in fields && fields["serial"] != Str(d.id)
    else "udid" in fields && fields["udid"].Str? && p.trim(fields["udid"].s) != d.id
  }

  ghost predicate AsksHost(p: Policy, command: string, positionals: seq<Json>, fields: Fields) {
    exists k <- fields ::
      k in HOST_INPUTS && fields[k] != Bool(false) && !(k == "out" && MayName(p, command, positionals, fields[k]))
  }

  ghost predicate AsksUnknown(p: Policy, command: string, fields: Fields) {
    exists k <- fields ::
      k !in AMBIENT + SELECTORS + SESSION_INPUTS && (p.keys(command).None? || k !in p.keys(command).value)
  }

  /** The flags or the input of a command, when they are an object. */
  ghost predicate HasPart(params: Fields, part: Json) {
    part.Obj? && (("flags" in params && params["flags"] == part) || ("input" in params && params["input"] == part))
  }

  ghost predicate HasBatch(part: Json, steps: Json) {
    part.Obj? && "batchSteps" in part.fields && part.fields["batchSteps"] == steps
  }

  /** What one command may be, apart from the steps of its batches. */
  ghost predicate HeadPermitted(p: Policy, d: Device, params: Fields, command: string, positionals: seq<Json>) {
    && IsCalled(params, command, positionals) && p.keys(command).Some?
    && (d.android && "serial" in params ==> params["serial"] == Str(d.id))
    && ("runtime" in params && params["runtime"].Obj? ==> params["runtime"].fields == map[])
    && (forall part | HasPart(params, part) :: PartPermitted(p, d, command, positionals, part.fields))
    && p.positionals(command, positionals, params).None?
  }

  ghost predicate PartPermitted(p: Policy, d: Device, command: string, positionals: seq<Json>, fields: Fields) {
    && !AsksAnother(p, d, fields) && !AsksShutdown(fields)
    && !AsksUnknown(p, command, fields) && !AsksHost(p, command, positionals, fields)
  }

  /** A tree of commands that a hosted device takes. */
  ghost predicate Permitted(p: Policy, d: Device, node: Json)
    decreases node, 2
  {
    && node.Obj? && (exists command, positionals :: HeadPermitted(p, d, node.fields, command, positionals))
    && ("flags" in node.fields ==> BatchPermitted(p, d, node.fields["flags"]))
    && ("input" in node.fields ==> BatchPermitted(p, d, node.fields["input"]))
  }

  /** Its batch, if it has one, is an array of such objects, none of them a recording. */
  ghost predicate BatchPermitted(p: Policy, d: Device, part: Json)
    decreases part, 1
  {
    part.Obj? && "batchSteps" in part.fields ==>
      && part.fields["batchSteps"].Arr?
      && var steps := part.fields["batchSteps"].items;
      forall k | 0 <= k < |steps| :: StepPermitted(p, d, steps[k])
  }

  lemma CalledOnce(params: Fields, command: string, positionals: seq<Json>)
    ensures IsCalled(params, command, positionals) <==>
              command == CommandOf(params) && positionals == PositionalsOf(params)
  {
  }

  lemma PartExactly(p: Policy, d: Device, params: Fields, fields: Fields)
    ensures InspectPart(p, d, params, Some(fields)).None? <==>
              PartPermitted(p, d, CommandOf(params), PositionalsOf(params), fields)
  {
    HostExactly(p, params, fields);
    UnknownExactly(p, CommandOf(params), fields);
  }

  lemma HostExactly(p: Policy, params: Fields, fields: Fields)
    ensures TakesHostInput(p, params, fields) <==> AsksHost(p, CommandOf(params), PositionalsOf(params), fields)
  {
    assert "out" in HOST_INPUTS;
    if TakesHostInput(p, params, fields) {
      var k :| k in HOST_INPUTS && k in fields && fields[k] != Bool(false)
               && !(CommandOf(params) == "screenshot" && k == "out" && p.remoteScreenshot(fields[k]))
               && !(RecordStart(params) && k == "out");
      assert k in fields;
    }
  }

  lemma UnknownExactly(p: Policy, command: string, fields: Fields)
    ensures (exists key <- fields :: !Allowed(p, command, key)) <==> AsksUnknown(p, command, fields)
  {
    if exists key <- fields :: !Allowed(p, command, key) {
      var key :| key in fields && !Allowed(p, command, key);
      assert key in fields && key !in AMBIENT + SELECTORS + SESSION_INPUTS;
    }
    if AsksUnknown(p, command, fields) {
      var k :| k in fields && k !in AMBIENT + SELECTORS + SESSION_INPUTS
               && (p.keys(command).None? || k !in p.keys(command).value);
      assert !Allowed(p, command, k);
    }
  }

  lemma HeadExactly(p: Policy, d: Device, params: Fields)
    ensures InspectHead(p, d, params).None? <==> HeadPermitted(p, d, params, CommandOf(params), PositionalsOf(params))
  {
    CalledOnce(params, CommandOf(params), PositionalsOf(params));
    if "flags" in params && params["flags"].Obj? {
      PartExactly(p, d, params, params["flags"].fields);
      assert HasPart(params, params["flags"]);
    }
    if "input" in params && params["input"].Obj? {
      PartExactly(p, d, params, params["input"].fields);
      assert HasPart(params, params["input"]);
    }
  }

  lemma OneHead(p: Policy, d: Device, params: Fields)
    ensures (exists command, positionals :: HeadPermitted(p, d, params, command, positionals)) <==>
              HeadPermitted(p, d, params, CommandOf(params), PositionalsOf(params))
  {
    if command: string, positionals: seq<Json> :| HeadPermitted(p, d, params, command, positionals) {
      CalledOnce(params, command, positionals);
    }
  }

  /**
   For every rule table and every tree: it is accepted if and only if at every depth the command is known
   and its positionals pass, it names no other device, has an empty runtime, only allowed keys, no host
   input and no shutdown, and its batches are arrays of objects with no recording among them.
   */
  lemma {:induction false} AcceptedExactly(p: Policy, d: Device, node: Json)
    ensures Accepts(p, d, node) <==> Permitted(p, d, node)
    decreases node, 2
  {
    if node.Obj? {
      HeadExactly(p, d, node.fields);
      OneHead(p, d, node.fields);
      if "flags" in node.fields { BatchExactly(p, d, node.fields["flags"]); }
      if "input" in node.fields { BatchExactly(p, d, node.fields["input"]); }
    }
  }

  lemma {:induction false} BatchExactly(p: Policy, d: Device, part: Json)
    ensures InspectBatch(p, d, part).None? <==> BatchPermitted(p, d, part)
    decreases part, 1
  {
    if part.Obj? && "batchSteps" in part.fields && part.fields["batchSteps"].Arr? {
      StepsExactly(p, d, part.fields["batchSteps"], 0);
    }
  }

  ghost predicate StepPermitted(p: Policy, d: Device, step: Json)
    decreases step, 3
  {
    step.Obj? && Permitted(p, d, step) && !("command" in step.fields && step.fields["command"] == Str("record"))
  }

  lemma {:induction false} StepsExactly(p: Policy, d: Device, steps: Json, i: nat)
    requires steps.Arr? && i <= |steps.items|
    ensures InspectSteps(p, d, steps, i).None? <==>
              forall k | i <= k < |steps.items| :: StepPermitted(p, d, steps.items[k])
    decreases steps, |steps.items| - i
  {
    if i < |steps.items| {
      AcceptedExactly(p, d, steps.items[i]);
      StepsExactly(p, d, steps, i + 1);
      assert StepPermitted(p, d, steps.items[i]) <==>
             steps.items[i].Obj? && Accepts(p, d, steps.items[i])
             && !("command" in steps.items[i].fields && steps.items[i].fields["command"] == Str("record"));
    }
  }

  // ---------------------------------------------------------------- a refusal is true

  ghost predicate HeadOffends(p: Policy, d: Device, params: Fields, command: string, positionals: seq<Json>,
                              rule: Rule) {
    || p.positionals(command, positionals, params) == Some(rule)
    || match rule
       case Command => p.keys(command).None? || exists part :: HasPart(params, part) && AsksShutdown(part.fields)
       case AnotherDevice =>
         || (d.android && "serial" in params && params["serial"] != Str(d.id))
         || exists part :: HasPart(params, part) && AsksAnother(p, d, part.fields)
       case HostPath =>
         || ("runtime" in params && params["runtime"].Obj? && params["runtime"].fields != map[])
         || exists part :: HasPart(params, part) && AsksHost(p, command, positionals, part.fields)
       case Request => exists part :: HasPart(params, part) && AsksUnknown(p, command, part.fields)
  }

  /** Some command of the tree breaks this rule. */
  ghost predicate Offends(p: Policy, d: Device, node: Json, rule: Rule)
    decreases node, 2
  {
    && node.Obj?
    && (|| (exists command, positionals ::
              IsCalled(node.fields, command, positionals) && HeadOffends(p, d, node.fields, command, positionals, rule))
        || ("flags" in node.fields && BatchOffends(p, d, node.fields["flags"], rule))
        || ("input" in node.fields && BatchOffends(p, d, node.fields["input"], rule)))
  }

  ghost predicate BatchOffends(p: Policy, d: Device, part: Json, rule: Rule)
    decreases part, 1
  {
    && part.Obj? && "batchSteps" in part.fields
    && var steps := part.fields["batchSteps"];
    if !steps.Arr? then rule == Request
    else exists k :: 0 <= k < |steps.items| && StepOffends(p, d, steps.items[k], rule)
  }

  ghost predicate StepOffends(p: Policy, d: Device, step: Json, rule: Rule)
    decreases step, 3
  {
    || (!step.Obj? && rule == Request)
    || (step.Obj? && "command" in step.fields && step.fields["command"] == Str("record") && rule == Command)
    || Offends(p, d, step, rule)
  }

  lemma HeadTrue(p: Policy, d: Device, params: Fields)
    requires InspectHead(p, d, params).Some?
    ensures HeadOffends(p, d, params, CommandOf(params), PositionalsOf(params), InspectHead(p, d, params).value)
  {
    var command, positionals := CommandOf(params), PositionalsOf(params);
    forall name | name in {"flags", "input"} && name in params && params[name].Obj?
      ensures HasPart(params, params[name]) && PartTrue(p, d, params, params[name].fields)
    {
      PartIsTrue(p, d, params, params[name].fields);
    }
  }

  /** What the checks on one object of flags or inputs found. */
  ghost predicate PartTrue(p: Policy, d: Device, params: Fields, fields: Fields) {
    match InspectPart(p, d, params, Some(fields))
    case None => true
    case Some(Command) => AsksShutdown(fields)
    case Some(AnotherDevice) => AsksAnother(p, d, fields)
    case Some(HostPath) => AsksHost(p, CommandOf(params), PositionalsOf(params), fields)
    case Some(Request) => AsksUnknown(p, CommandOf(params), fields)
  }

  lemma PartIsTrue(p: Policy, d: Device, params: Fields, fields: Fields)
    ensures PartTrue(p, d, params, fields)
  {
    HostExactly(p, params, fields);
    UnknownExactly(p, CommandOf(params), fields);
  }

  /** A refusal names a rule that some command of the tree does break. */
  lemma {:induction false} RefusalIsTrue(p: Policy, d: Device, node: Json)
    requires node.Obj? && Inspect(p, d, node).Some?
    ensures Offends(p, d, node, Inspect(p, d, node).value)
    decreases node, 2
  {
    var params := node.fields;
    CalledOnce(params, CommandOf(params), PositionalsOf(params));
    if InspectHead(p, d, params).Some? {
      HeadTrue(p, d, params);
    } else if "flags" in params && InspectBatch(p, d, params["flags"]).Some? {
      BatchIsTrue(p, d, params["flags"]);
    } else {
      BatchIsTrue(p, d, params["input"]);
    }
  }

  lemma {:induction false} BatchIsTrue(p: Policy, d: Device, part: Json)
    requires InspectBatch(p, d, part).Some?
    ensures BatchOffends(p, d, part, InspectBatch(p, d, part).value)
    decreases part, 1
  {
    if part.fields["batchSteps"].Arr? { var k := StepsTrue(p, d, part.fields["batchSteps"], 0); }
  }

  lemma {:induction false} StepsTrue(p: Policy, d: Device, steps: Json, i: nat) returns (k: nat)
    requires steps.Arr? && i <= |steps.items| && InspectSteps(p, d, steps, i).Some?
    ensures k < |steps.items| && StepOffends(p, d, steps.items[k], InspectSteps(p, d, steps, i).value)
    decreases steps, |steps.items| - i
  {
    var step := steps.items[i];
    k := i;
    if step.Obj? && !("command" in step.fields && step.fields["command"] == Str("record")) {
      if Inspect(p, d, step).Some? {
        RefusalIsTrue(p, d, step);
      } else {
        k := StepsTrue(p, d, steps, i + 1);
      }
    }
  }

  // ---------------------------------------------------------------- every node is confined

  /**
   One object of flags or inputs of a command: it names the leased device and no other, holds only keys
   the command may use, and asks for no host path and no shutdown.
   */
  ghost predicate ConfinedFields(p: Policy, d: Device, params: Fields, fields: Fields) {
    && "platform" in fields && fields["platform"] == d.Platform()
    && d.Selector() in fields && fields[d.Selector()] == Str(d.id)
    && (forall k | k in fields ::
          && k !in AMBIENT
          && (k in SELECTORS ==> k == d.Selector())
          && (k == d.Selector() || k in SESSION_INPUTS
              || (p.keys(CommandOf(params)).Some? && k in p.keys(CommandOf(params)).value)))
    && !TakesHostInput(p, params, fields) && !("shutdown" in fields && fields["shutdown"] == Bool(true))
  }

  /** A command of a tree, and all below it. `top` tells the outermost one, which alone may be a recording. */
  ghost predicate Confined(p: Policy, d: Device, node: Json, top: bool)
    decreases node, 0
  {
    && node.Obj? && p.keys(CommandOf(node.fields)).Some? && (top || CommandOf(node.fields) != "record")
    && node.fields.Keys <= {"command", "session", "positionals", "flags", "input"}
    && "flags" in node.fields && ConfinedPart(p, d, node.fields, node.fields["flags"])
    && ("input" in node.fields ==> ConfinedPart(p, d, node.fields, node.fields["input"]))
  }

  ghost predicate ConfinedPart(p: Policy, d: Device, params: Fields, part: Json)
    decreases part, 0
  {
    && part.Obj? && ConfinedFields(p, d, params, part.fields)
    && ("batchSteps" in part.fields ==>
          part.fields["batchSteps"].Arr? && ConfinedSteps(p, d, part.fields["batchSteps"]))
  }

  ghost predicate ConfinedSteps(p: Policy, d: Device, steps: Json)
    requires steps.Arr?
    decreases steps, 1
  {
    forall k | 0 <= k < |steps.items| :: Confined(p, d, steps.items[k], false)
  }

  /** Two parameter objects of one command: its name and positionals. */
  ghost predicate SameCommand(a: Fields, b: Fields) {
    CommandOf(a) == CommandOf(b) && PositionalsOf(a) == PositionalsOf(b)
  }

  /** Fields that only add keys that are no inputs take no input that was not taken. */
  lemma TakesNoMore(p: Policy, inputs: set<string>, params: Fields, pinned: Fields, fields: Fields, out: Fields)
    requires SameCommand(params, pinned) && !Takes(p, inputs, params, fields)
    requires forall k | k in out && k in inputs :: k in fields && out[k] == fields[k]
    ensures !Takes(p, inputs, pinned, out)
  {
  }

  lemma OwnKeys()
    ensures forall k | k in {"platform", "udid", "serial", "batchSteps"} ::
              k !in HOST_INPUTS && k !in AMBIENT && k != "shutdown"
    ensures "shutdown" !in SELECTORS && "shutdown" !in AMBIENT
  {
  }

  lemma OutFrom(d: Device, part: Json, k: string)
    requires k in PinPart(d, part).fields && k !in {"platform", "udid", "serial", "batchSteps"}
    ensures part.Obj? && k in part.fields && PinPart(d, part).fields[k] == part.fields[k]
  {
    PartShape(d, part);
  }

  lemma NoHostInput(p: Policy, d: Device, params: Fields, pinned: Fields, part: Json)
    requires SameCommand(params, pinned) && (part.Obj? ==> InspectPart(p, d, params, Some(part.fields)).None?)
    ensures var out := PinPart(d, part).fields;
            !TakesHostInput(p, pinned, out) && !("shutdown" in out && out["shutdown"] == Bool(true))
  {
    var out, fields := PinPart(d, part).fields, if part.Obj? then part.fields else map[];
    OwnKeys();
    forall k | k in out && (k in HOST_INPUTS || k == "shutdown") ensures k in fields && out[k] == fields[k] {
      OutFrom(d, part, k);
    }
    TakesNoMore(p, HOST_INPUTS, params, pinned, fields, out);
  }

  lemma KeysConfined(p: Policy, d: Device, params: Fields, part: Json, k: string)
    requires p.keys(CommandOf(params)).Some? && (part.Obj? ==> InspectPart(p, d, params, Some(part.fields)).None?)
    requires k in PinPart(d, part).fields
    ensures k !in AMBIENT && (k in SELECTORS ==> k == d.Selector())
    ensures k == d.Selector() || k in SESSION_INPUTS || k in p.keys(CommandOf(params)).value
  {
    PartShape(d, part);
    if k in Kept(part) { assert Allowed(p, CommandOf(params), k); }
  }

  lemma PartFieldsConfined(p: Policy, d: Device, params: Fields, pinned: Fields, part: Json)
    requires p.keys(CommandOf(params)).Some? && (part.Obj? ==> InspectPart(p, d, params, Some(part.fields)).None?)
    requires SameCommand(params, pinned)
    ensures ConfinedFields(p, d, pinned, PinPart(d, part).fields)
  {
    PartShape(d, part);
    NoHostInput(p, d, params, pinned, part);
    var out := PinPart(d, part).fields;
    forall k | k in out
      ensures k !in AMBIENT && (k in SELECTORS ==> k == d.Selector())
      ensures k == d.Selector() || k in SESSION_INPUTS || k in p.keys(CommandOf(params)).value
    {
      KeysConfined(p, d, params, part, k);
    }
  }

  lemma NamedConfined(p: Policy, d: Device, params: Fields)
    ensures ConfinedPart(p, d, params, Obj(Named(d, map[])))
  {
    assert Named(d, map[]).Keys == {"platform", d.Selector()};
    NamedKeys(d);
  }

  lemma NamedKeys(d: Device)
    ensures "platform" !in AMBIENT && "platform" !in SELECTORS && "platform" in SESSION_INPUTS
            && "platform" !in HOST_INPUTS
    ensures d.Selector() !in AMBIENT && d.Selector() !in HOST_INPUTS
    ensures "batchSteps" !in {"platform", d.Selector()} && "shutdown" !in {"platform", d.Selector()}
  {
  }

  lemma PinKeepsCommand(d: Device, node: Json)
    requires node.Obj?
    ensures SameCommand(node.fields, Pin(d, node).fields)
  {
    PinShape(d, node);
    OnlySame(Pin(d, node).fields, node.fields, "command");
    OnlySame(Pin(d, node).fields, node.fields, "positionals");
  }

  lemma OnlySame(a: Fields, b: Fields, key: string)
    requires Only(a, key) == Only(b, key)
    ensures (key in a <==> key in b) && (key in a ==> a[key] == b[key])
  {
    assert key in a <==> key in Only(a, key);
    assert key in b <==> key in Only(b, key);
    if key in a { assert Only(a, key)[key] == Only(b, key)[key]; }
  }

  lemma {:induction false} NodeConfined(p: Policy, d: Device, node: Json, top: bool)
    requires Accepts(p, d, node) && (top || CommandOf(node.fields) != "record")
    ensures Confined(p, d, Pin(d, node), top)
    decreases node, 0
  {
    var pinned := Pin(d, node).fields;
    PinShape(d, node);
    PinKeepsCommand(d, node);
    HeadAccepted(p, d, node);
    if "flags" in node.fields {
      PartConfined(p, d, node.fields, pinned, node.fields["flags"]);
    } else {
      NamedConfined(p, d, pinned);
    }
    if "input" in node.fields && node.fields["input"].Obj? {
      PartConfined(p, d, node.fields, pinned, node.fields["input"]);
    }
  }

  lemma {:induction false} PartConfined(p: Policy, d: Device, params: Fields, pinned: Fields, part: Json)
    requires p.keys(CommandOf(params)).Some? && InspectBatch(p, d, part).None? && SameCommand(params, pinned)
    requires part.Obj? ==> InspectPart(p, d, params, Some(part.fields)).None?
    ensures ConfinedPart(p, d, pinned, PinPart(d, part))
    decreases part, 1
  {
    PartShape(d, part);
    PartFieldsConfined(p, d, params, pinned, part);
    if part.Obj? {
      BatchKept(part);
      if "batchSteps" in part.fields { StepsConfined(p, d, part.fields["batchSteps"]); }
    }
  }

  lemma {:induction false} StepsConfined(p: Policy, d: Device, steps: Json)
    requires steps.Arr? && InspectSteps(p, d, steps, 0).None?
    ensures ConfinedSteps(p, d, PinSteps(d, steps))
    decreases steps, 1
  {
    forall k | 0 <= k < |steps.items| ensures Confined(p, d, Pin(d, steps.items[k]), false) {
      StepsAccepted(p, d, steps, 0, k);
      NodeConfined(p, d, steps.items[k], false);
    }
  }

  // ---------------------------------------------------------------- pinning twice

  lemma KeptAgain(d: Device, part: Json)
    ensures var once := PinPart(d, part); Kept(once) == map k | k in once.fields && k != d.Selector() :: once.fields[k]
  {
    PartShape(d, part);
  }

  lemma NamedTwice(d: Device)
    ensures PinPart(d, Obj(Named(d, map[]))) == Obj(Named(d, map[]))
  {
    var once := Named(d, map[]);
    assert Kept(Obj(once)) == map["platform" := d.Platform()];
    assert Named(d, Kept(Obj(once))) == once;
  }

  lemma {:induction false} NodeTwice(d: Device, node: Json)
    ensures Pin(d, Pin(d, node)) == Pin(d, node)
    decreases node, 0
  {
    if node.Obj? {
      var once := Pin(d, node);
      PinShape(d, node);
      PinShape(d, once);
      if "flags" in node.fields {
        PartTwice(d, node.fields["flags"]);
      } else {
        NamedTwice(d);
      }
      if "input" in node.fields && node.fields["input"].Obj? { PartTwice(d, node.fields["input"]); }
      SameFields(once.fields, Pin(d, once).fields);
    }
  }

  /** Two commands with the same five parts are one. */
  lemma SameFields(a: Fields, b: Fields)
    requires a.Keys <= {"command", "session", "positionals", "flags", "input"}
             && b.Keys <= {"command", "session", "positionals", "flags", "input"}
    requires Only(a, "command") == Only(b, "command") && Only(a, "session") == Only(b, "session")
             && Only(a, "positionals") == Only(b, "positionals")
    requires "flags" in a && "flags" in b && a["flags"] == b["flags"]
    requires ("input" in a <==> "input" in b) && ("input" in a ==> a["input"] == b["input"])
    ensures a == b
  {
    forall k | k in {"command", "session", "positionals"} ensures (k in a <==> k in b) && (k in a ==> a[k] == b[k]) {
      OnlySame(a, b, k);
    }
  }

  lemma {:induction false} PartTwice(d: Device, part: Json)
    ensures PinPart(d, PinPart(d, part)) == PinPart(d, part)
    decreases part, 1
  {
    var once := PinPart(d, part);
    var twice := PinPart(d, once);
    PartShape(d, part);
    PartShape(d, once);
    KeptAgain(d, part);
    if "batchSteps" in once.fields && part.Obj? && "batchSteps" in part.fields && part.fields["batchSteps"].Arr? {
      BatchKept(part);
      StepsTwice(d, part.fields["batchSteps"]);
    }
    assert twice.fields.Keys == once.fields.Keys;
    forall k | k in once.fields ensures twice.fields[k] == once.fields[k] {
      if k != "platform" && k != d.Selector() { assert k in Kept(once) && Kept(once)[k] == once.fields[k]; }
    }
    assert twice.fields == once.fields;
  }

  lemma {:induction false} StepsTwice(d: Device, steps: Json)
    requires steps.Arr?
    ensures PinSteps(d, PinSteps(d, steps)) == PinSteps(d, steps)
    decreases steps, 1
  {
    forall i | 0 <= i < |steps.items| ensures Pin(d, Pin(d, steps.items[i])) == Pin(d, steps.items[i]) {
      NodeTwice(d, steps.items[i]);
    }
  }

  /**
   For every tree that inspection accepts, under every rule table: the pinned tree runs the same
   commands, depth first, with the same sessions and positionals; every command at every depth
   names the leased device and no other, with no key of the client's own, only keys its command may
   use, no host path and no shutdown; nothing below the top is a recording; and pinning it again
   changes nothing.
   */
  lemma PinnedTree(p: Policy, d: Device, node: Json)
    requires Accepts(p, d, node)
    ensures Trace(Pin(d, node)) == Trace(node)
    ensures Confined(p, d, Pin(d, node), true)
    ensures Pin(d, Pin(d, node)) == Pin(d, node)
  {
    TraceKept(d, node);
    NodeConfined(p, d, node, true);
    NodeTwice(d, node);
  }
}
