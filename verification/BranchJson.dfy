// Application JSON carried by messages and provider records, and the two ways a branch
// treats it: opaque data is only checked, a coding tool's own payload has its spill
// reference renamed (branch-messages.ts).
module BranchJson {
  import opened Prelude
  import opened BranchRenaming

  datatype Json =
    | Null
    | Bool(flag: bool)
    | Num(number: real)
    | Str(text: string)
    | Arr(items: seq<Json>)
    | Obj(fields: map<string, Json>)

  const RESERVED: set<string> := {
    "reference", "conversationId", "runId", "messageId", "callId",
    "toolCallId", "approvalId", "operationId", "artifactId"
  }

  /** Opaque JSON is accepted only while no object in it uses a runtime reference key. */
  predicate Opaque(value: Json) {
    match value
    case Arr(items) => forall item | item in items :: Opaque(item)
    case Obj(fields) =>
      && (forall key | key in RESERVED :: key !in fields)
      && (forall key | key in fields :: Opaque(fields[key]))
    case _ => true
  }

  predicate OpaqueIfAny(value: Option<Json>) {
    value.Some? ==> Opaque(value.value)
  }

  // ---- the strict schemas of the coding tools' own payloads -------------------------

  const MAX_SAFE: real := 9007199254740991.0

  predicate IsInt(value: Json) {
    value.Num? && value.number == value.number.Floor as real && -MAX_SAFE <= value.number <= MAX_SAFE
  }

  predicate IsNonNegative(value: Json) {
    IsInt(value) && value.number >= 0.0
  }

  predicate IsPositive(value: Json) {
    IsInt(value) && value.number > 0.0
  }

  predicate IsText(value: Json) {
    value.Str?
  }

  predicate Has(fields: map<string, Json>, key: string, check: Json -> bool) {
    key in fields && check(fields[key])
  }

  predicate MayHave(fields: map<string, Json>, key: string, check: Json -> bool) {
    key in fields ==> check(fields[key])
  }

  predicate Strict(fields: map<string, Json>, allowed: set<string>) {
    forall key | key in fields :: key in allowed
  }

  predicate IsMatch(value: Json) {
    && value.Obj?
    && Strict(value.fields, {"line", "text"})
    && Has(value.fields, "line", IsPositive)
    && Has(value.fields, "text", IsText)
  }

  predicate IsMatches(value: Json) {
    value.Arr? && forall item | item in value.items :: IsMatch(item)
  }

  predicate IsNullableInt(value: Json) {
    value.Null? || IsInt(value)
  }

  predicate IsNullableText(value: Json) {
    value.Null? || value.Str?
  }

  predicate IsNonEmptyText(value: Json) {
    value.Str? && value.text != ""
  }

  predicate IsBool(value: Json) {
    value.Bool?
  }

  predicate IsOutcome(value: Json) {
    value.Str? && value.text in {"exited", "timeout", "output-limit", "cancelled"}
  }

  predicate IsArtifact(value: Json) {
    && value.Obj?
    && Strict(value.fields, {"reference", "bytes", "truncated", "headBytes", "tailBytes", "omittedBytes"})
    && Has(value.fields, "reference", IsNonEmptyText)
    && Has(value.fields, "bytes", IsNonNegative)
    && Has(value.fields, "truncated", IsBool)
    && Has(value.fields, "headBytes", IsNonNegative)
    && Has(value.fields, "tailBytes", IsNonNegative)
    && Has(value.fields, "omittedBytes", IsNonNegative)
  }

  datatype ToolShape = ReadCall | SearchCall | ReadResult | SearchResult | ShellResult | Application

  /** Which schema a tool payload is read with: only the coding tools have one. */
  function ShapeOf(tool: string, output: bool): ToolShape {
    if tool == "read_output" then (if output then ReadResult else ReadCall)
    else if tool == "search_output" then (if output then SearchResult else SearchCall)
    else if output && tool == "run_command" then ShellResult
    else Application
  }

  predicate Parses(shape: ToolShape, value: Json) {
    match shape
    case Application => true
    case ReadCall =>
      && value.Obj?
      && Strict(value.fields, {"reference", "offset", "maxBytes"})
      && Has(value.fields, "reference", IsText)
      && Has(value.fields, "offset", IsNonNegative)
      && MayHave(value.fields, "maxBytes", IsPositive)
    case SearchCall =>
      && value.Obj?
      && Strict(value.fields, {"reference", "query", "maxMatches"})
      && Has(value.fields, "reference", IsText)
      && Has(value.fields, "query", IsText)
      && MayHave(value.fields, "maxMatches", IsPositive)
    case ReadResult =>
      && value.Obj?
      && Strict(value.fields, {"reference", "offset", "text", "bytes", "totalBytes"})
      && Has(value.fields, "reference", IsText)
      && Has(value.fields, "offset", IsNonNegative)
      && Has(value.fields, "text", IsText)
      && Has(value.fields, "bytes", IsNonNegative)
      && MayHave(value.fields, "totalBytes", IsNonNegative)
    case SearchResult =>
      && value.Obj?
      && Strict(value.fields, {"reference", "matches"})
      && Has(value.fields, "reference", IsText)
      && Has(value.fields, "matches", IsMatches)
    case ShellResult =>
      && value.Obj?
      && Strict(value.fields, {"executable", "exitCode", "signal", "stdout", "stderr", "outcome", "artifact"})
      && Has(value.fields, "executable", IsNonEmptyText)
      && Has(value.fields, "exitCode", IsNullableInt)
      && Has(value.fields, "signal", IsNullableText)
      && Has(value.fields, "stdout", IsText)
      && Has(value.fields, "stderr", IsText)
      && Has(value.fields, "outcome", IsOutcome)
      && MayHave(value.fields, "artifact", IsArtifact)
  }

  /** The spill reference a parsed payload carries, if any. */
  function SpillOf(shape: ToolShape, value: Json): Option<string>
    requires Parses(shape, value)
  {
    match shape
    case Application => None
    case ShellResult =>
      if "artifact" in value.fields then Some(value.fields["artifact"].fields["reference"].text) else None
    case _ => Some(value.fields["reference"].text)
  }

  function WithSpill(shape: ToolShape, value: Json, target: string): Json
    requires Parses(shape, value) && SpillOf(shape, value).Some?
  {
    if shape.ShellResult? then
      var artifact := value.fields["artifact"];
      Obj(value.fields["artifact" := Obj(artifact.fields["reference" := Str(target)])])
    else
      Obj(value.fields["reference" := Str(target)])
  }

  /** `branchToolJson` */
  function BranchToolJson(ids: Renaming, tool: string, value: Json, output: bool): Result<Json, Reason> {
    var shape := ShapeOf(tool, output);
    if shape.Application? then
      if Opaque(value) then Success(value) else Failure(OpaquePayload)
    else if !Parses(shape, value) then Failure(MalformedToolPayload)
    else match SpillOf(shape, value)
      case None => Success(value)
      case Some(spill) =>
        var target :- ids.Reference(SpillKind, spill);
        Success(WithSpill(shape, value, target))
  }

  /** What a tool payload must satisfy before any identity is looked up. */
  predicate ToolJsonAccepted(tool: string, value: Json, output: bool) {
    var shape := ShapeOf(tool, output);
    if shape.Application? then Opaque(value) else Parses(shape, value)
  }

  function ToolJsonIds(tool: string, value: Json, output: bool): set<Identity> {
    var shape := ShapeOf(tool, output);
    if Parses(shape, value) then IdIfAny(SpillKind, SpillOf(shape, value)) else {}
  }

  lemma WithSpillParses(shape: ToolShape, value: Json, target: string)
    requires Parses(shape, value) && SpillOf(shape, value).Some? && target != ""
    ensures Parses(shape, WithSpill(shape, value, target))
    ensures SpillOf(shape, WithSpill(shape, value, target)) == Some(target)
  {
    var after := WithSpill(shape, value, target);
    assert after.fields.Keys == value.fields.Keys;
    if shape.ShellResult? {
      var artifact := value.fields["artifact"];
      assert after.fields["artifact"].fields.Keys == artifact.fields.Keys;
    }
  }

  /** A tool payload is rewritten exactly when it is well formed and its spill was collected. */
  lemma ToolJsonResolves(ids: Renaming, tool: string, value: Json, output: bool)
    ensures BranchToolJson(ids, tool, value, output).Success? <==>
              ToolJsonAccepted(tool, value, output) && ToolJsonIds(tool, value, output) <= ids.defined
    ensures BranchToolJson(ids, tool, value, output).Success? ==>
              var after := BranchToolJson(ids, tool, value, output).value;
              ToolJsonAccepted(tool, after, output)
              && ToolJsonIds(tool, after, output) == ids.Images(ToolJsonIds(tool, value, output))
  {
    var shape := ShapeOf(tool, output);
    if BranchToolJson(ids, tool, value, output).Success? && !shape.Application? && SpillOf(shape, value).Some? {
      WithSpillParses(shape, value, ids.mint(SpillKind, SpillOf(shape, value).value));
    }
  }

  lemma WithSpillTwice(shape: ToolShape, value: Json, once: string, twice: string)
    requires !shape.Application? && Parses(shape, value) && SpillOf(shape, value).Some?
    requires Parses(shape, WithSpill(shape, value, once)) && SpillOf(shape, WithSpill(shape, value, once)).Some?
    ensures WithSpill(shape, WithSpill(shape, value, once), twice) == WithSpill(shape, value, twice)
  {
    var left := WithSpill(shape, WithSpill(shape, value, once), twice);
    var right := WithSpill(shape, value, twice);
    if shape.ShellResult? {
      assert left.fields["artifact"] == right.fields["artifact"];
    }
    assert left.fields == right.fields;
  }

  lemma ToolJsonCompose(outer: Renaming, inner: Renaming, tool: string, value: Json, output: bool)
    requires BranchToolJson(inner, tool, value, output).Success?
    ensures Agree(BranchToolJson(outer, tool, BranchToolJson(inner, tool, value, output).value, output),
                  BranchToolJson(Compose(outer, inner), tool, value, output))
  {
    var shape := ShapeOf(tool, output);
    if !shape.Application? && SpillOf(shape, value).Some? {
      var spill := SpillOf(shape, value).value;
      var once := inner.mint(SpillKind, spill);
      WithSpillParses(shape, value, once);
      WithSpillTwice(shape, value, once, outer.mint(SpillKind, once));
    }
  }
}
