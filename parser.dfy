/**
 * The schema-level decoder of a task-configuration document: an abstract JSON value
 * becomes a TaskConfiguration, the way the decoders that serde derives for the parser
 * crate's structs and enums do it. Every task field falls back to its default when its
 * key is absent, `group` accepts either a shorthand string or a full object, and the
 * enum fields accept only their lowercase names.
 *
 * JSON objects are maps, so the model decides exactly WHICH documents decode and to
 * WHAT; when a document has several faults, the error reported is the one for the
 * first field in declaration order.
 */
module Parser {
  import opened Wrappers
  import opened Json

  // ---------------------------------------------------------------- task model

  datatype TaskType = Shell | Process

  datatype GroupKind = Build | Test

  datatype Group = Group(kind: GroupKind, isDefault: bool)

  datatype CommandOptions = CommandOptions(cwd: string)

  /** Reserved structs that carry no data. */
  datatype PresentationOptions = PresentationOptions

  datatype ProblemMatcher = ProblemMatcher

  datatype BaseTaskConfiguration = BaseTaskConfiguration(
    taskType: TaskType,
    group: Group,
    taskLabel: string,
    command: string,
    isBackground: bool,
    options: CommandOptions,
    args: seq<string>,
    presentation: PresentationOptions,
    problemMatcher: ProblemMatcher)

  datatype Version = Version(value: string)

  datatype TaskConfiguration = TaskConfiguration(version: Version, tasks: seq<BaseTaskConfiguration>)

  datatype DecodeError =
    | MissingField(field: string)
    | InvalidType(expected: string)
    | UnknownVariant(variant: string)

  type Decoded<T> = Result<T, DecodeError>

  // ---------------------------------------------------------------- defaults

  const DefaultVersion: Version := Version("2.0.0")

  const DefaultCommandOptions: CommandOptions := CommandOptions("")

  const DefaultGroup: Group := Group(Build, false)

  const DefaultTask: BaseTaskConfiguration :=
    BaseTaskConfiguration(Shell, DefaultGroup, "", "", false, DefaultCommandOptions, [],
                          PresentationOptions, ProblemMatcher)

  /** The Default impl of the top-level struct. The decoder never uses it: only `version`
      has a field default, so a document without `tasks` is refused rather than read as
      this value. */
  const DefaultTaskConfiguration: TaskConfiguration := TaskConfiguration(DefaultVersion, [])

  // ---------------------------------------------------------------- enum names

  /** The serialized names: the variant names lower-cased. */
  function TaskTypeName(t: TaskType): string {
    match t
    case Shell => "shell"
    case Process => "process"
  }

  function GroupKindName(k: GroupKind): string {
    match k
    case Build => "build"
    case Test => "test"
  }

  function TaskTypeFromName(s: string): Option<TaskType> {
    if s == "shell" then Some(Shell)
    else if s == "process" then Some(Process)
    else None
  }

  function GroupKindFromName(s: string): Option<GroupKind> {
    if s == "build" then Some(Build)
    else if s == "test" then Some(Test)
    else None
  }

  /** `j` is one of the two forms in which serde_json accepts the unit variant `name`:
      the bare string, or a map whose only entry is that name bound to null. */
  predicate NamesVariant(j: Json, name: string) {
    j == JString(name) || j == JObject(map[name := JNull])
  }

  // ---------------------------------------------------------------- primitive decoders

  function DecodeString(j: Json): Decoded<string> {
    if j.JString? then Success(j.str) else Failure(InvalidType("a string"))
  }

  function DecodeBool(j: Json): Decoded<bool> {
    if j.JBool? then Success(j.b) else Failure(InvalidType("a boolean"))
  }

  /** The elements of a JSON array of strings, in order; the first non-string is the error. */
  function DecodeStrings(items: seq<Json>): (r: Decoded<seq<string>>)
    ensures r.Success? <==> forall i :: 0 <= i < |items| ==> items[i].JString?
    ensures r.Success? ==> StringsDenote(items, r.value)
  {
    if items == [] then Success([])
    else
      var first :- DecodeString(items[0]);
      var rest :- DecodeStrings(items[1..]);
      Success([first] + rest)
  }

  /** `items` is the JSON array form of `ss`, element by element and in order. */
  predicate StringsDenote(items: seq<Json>, ss: seq<string>) {
    |items| == |ss| && forall i :: 0 <= i < |items| ==> items[i] == JString(ss[i])
  }

  function DecodeArgs(j: Json): Decoded<seq<string>> {
    if j.JArray? then DecodeStrings(j.items) else Failure(InvalidType("a sequence"))
  }

  lemma SingletonKeys(m: map<string, Json>)
    requires |m| == 1
    ensures exists k :: k in m && m.Keys == {k}
  {
    var k :| k in m.Keys;
    assert |m.Keys - {k}| == 0;
    assert m.Keys == {k};
  }

  /** The key of a one-entry map. */
  function OnlyKey(m: map<string, Json>): (k: string)
    requires |m| == 1
    ensures k in m && m == map[k := m[k]]
  {
    SingletonKeys(m);
    var k :| k in m && m.Keys == {k};
    assert m == map[k := m[k]];
    k
  }

  /** serde_json's enum reading for a unit variant: a string names the variant; a map
      must have exactly one entry, whose key names the variant and whose value is null.
      `lookup` is the derived match on the (lowercase) variant names. */
  function DecodeUnitVariant<T>(j: Json, lookup: string -> Option<T>): (r: Decoded<T>)
    ensures r.Success? ==> exists name :: NamesVariant(j, name) && lookup(name) == Some(r.value)
    ensures forall name :: NamesVariant(j, name) && lookup(name).Some? ==> r == Success(lookup(name).value)
  {
    match j
    case JString(s) =>
      (match lookup(s)
       case Some(v) => Success(v)
       case None => Failure(UnknownVariant(s)))
    case JObject(m) =>
      if |m| != 1 then Failure(InvalidType("a map with a single key"))
      else
        var k := OnlyKey(m);
        (match lookup(k)
         case None => Failure(UnknownVariant(k))
         case Some(v) => if m[k] == JNull then Success(v) else Failure(InvalidType("unit variant")))
    case _ => Failure(InvalidType("a string or a map naming a variant"))
  }

  /** `type` accepts exactly the names "shell" and "process" (in either enum form). */
  function DecodeTaskType(j: Json): (r: Decoded<TaskType>)
    ensures r.Success? ==> NamesVariant(j, TaskTypeName(r.value))
    ensures forall t :: NamesVariant(j, TaskTypeName(t)) ==> r == Success(t)
  {
    DecodeUnitVariant(j, TaskTypeFromName)
  }

  /** `kind` accepts exactly the names "build" and "test" (in either enum form). */
  function DecodeGroupKind(j: Json): (r: Decoded<GroupKind>)
    ensures r.Success? ==> NamesVariant(j, GroupKindName(r.value))
    ensures forall k :: NamesVariant(j, GroupKindName(k)) ==> r == Success(k)
  {
    DecodeUnitVariant(j, GroupKindFromName)
  }

  // ---------------------------------------------------------------- struct fields

  /** A field with a default: an absent key yields the default, a present one must decode. */
  function Optional<T>(m: map<string, Json>, key: string, default: T, decode: Json -> Decoded<T>): Decoded<T> {
    if key in m then decode(m[key]) else Success(default)
  }

  /** A field without a default: an absent key is a missing-field error. */
  function Required<T>(m: map<string, Json>, key: string, decode: Json -> Decoded<T>): Decoded<T> {
    if key in m then decode(m[key]) else Failure(MissingField(key))
  }

  // ---------------------------------------------------------------- group

  /** Group::from_str: never fails, never marks the group as the default one. */
  function GroupFromStr(s: string): (g: Group)
    ensures !g.isDefault
    ensures g.kind == Test <==> s == "test"
  {
    Group(
      if s == "build" then Build
      else if s == "test" then Test
      else Build,
      false)
  }

  /** The derived decoder of Group: camelCase keys, no field defaults. */
  function DecodeGroupFields(m: map<string, Json>): Decoded<Group> {
    var kind :- Required(m, "kind", DecodeGroupKind);
    var isDefault :- Required(m, "isDefault", DecodeBool);
    Success(Group(kind, isDefault))
  }

  /** string_or_struct: a string goes to `fromStr` (which cannot fail), a map to the
      derived struct decoder `fromMap`, and every other JSON value is refused. */
  function StringOrStruct<T>(j: Json, fromStr: string -> T, fromMap: map<string, Json> -> Decoded<T>): Decoded<T> {
    match j
    case JString(s) => Success(fromStr(s))
    case JObject(m) => fromMap(m)
    case _ => Failure(InvalidType("string or map"))
  }

  predicate GroupFieldsWellTyped(m: map<string, Json>) {
    && "kind" in m && (NamesVariant(m["kind"], "build") || NamesVariant(m["kind"], "test"))
    && "isDefault" in m && m["isDefault"].JBool?
  }

  predicate GroupFieldsDenote(m: map<string, Json>, g: Group) {
    && "kind" in m && NamesVariant(m["kind"], GroupKindName(g.kind))
    && "isDefault" in m && m["isDefault"] == JBool(g.isDefault)
  }

  /** The `group` field: shorthand strings never fail, maps must carry both keys, and
      every other JSON value is an error. */
  function DecodeGroup(j: Json): (r: Decoded<Group>)
    ensures j.JString? ==> r.Success? && !r.value.isDefault && (r.value.kind == Test <==> j.str == "test")
    ensures j.JObject? ==> (r.Success? <==> GroupFieldsWellTyped(j.fields))
    ensures j.JObject? && r.Success? ==> GroupFieldsDenote(j.fields, r.value)
    ensures !j.JString? && !j.JObject? ==> r.Failure?
  {
    StringOrStruct(j, GroupFromStr, DecodeGroupFields)
  }

  predicate GroupDenotes(j: Json, g: Group) {
    || (j.JString? && g == GroupFromStr(j.str))
    || (j.JObject? && GroupFieldsDenote(j.fields, g))
  }

  // ---------------------------------------------------------------- other nested structs

  /** CommandOptions has a struct-wide default: an absent `cwd` is the empty string. */
  function DecodeCommandOptions(j: Json): (r: Decoded<CommandOptions>)
    ensures r.Success? <==> j.JObject? && ("cwd" in j.fields ==> j.fields["cwd"].JString?)
    ensures r.Success? ==> OptionsDenote(j.fields, r.value)
  {
    match j
    case JObject(m) =>
      var cwd :- Optional(m, "cwd", DefaultCommandOptions.cwd, DecodeString);
      Success(CommandOptions(cwd))
    case _ => Failure(InvalidType("struct CommandOptions"))
  }

  predicate OptionsDenote(m: map<string, Json>, o: CommandOptions) {
    if "cwd" in m then m["cwd"] == JString(o.cwd) else o == DefaultCommandOptions
  }

  /** A struct without fields accepts any map (unknown keys are ignored). */
  function DecodePresentation(j: Json): Decoded<PresentationOptions> {
    if j.JObject? then Success(PresentationOptions) else Failure(InvalidType("struct PresentationOptions"))
  }

  function DecodeProblemMatcher(j: Json): Decoded<ProblemMatcher> {
    if j.JObject? then Success(ProblemMatcher) else Failure(InvalidType("struct ProblemMatcher"))
  }

  // ---------------------------------------------------------------- task

  /** Which task objects decode: every key that is present has a value of the right shape.
      Absent keys and keys the schema does not know never cause a failure. */
  predicate TaskFieldsWellTyped(m: map<string, Json>) {
    && ("type" in m ==> NamesVariant(m["type"], "shell") || NamesVariant(m["type"], "process"))
    && ("group" in m ==> m["group"].JString? || (m["group"].JObject? && GroupFieldsWellTyped(m["group"].fields)))
    && ("label" in m ==> m["label"].JString?)
    && ("command" in m ==> m["command"].JString?)
    && ("isBackground" in m ==> m["isBackground"].JBool?)
    && ("options" in m ==> m["options"].JObject? && ("cwd" in m["options"].fields ==> m["options"].fields["cwd"].JString?))
    && ("args" in m ==> m["args"].JArray? && forall i :: 0 <= i < |m["args"].items| ==> m["args"].items[i].JString?)
    && ("presentation" in m ==> m["presentation"].JObject?)
    && ("problemMatcher" in m ==> m["problemMatcher"].JObject?)
  }

  /** What a task object decodes to: each field is read from its camelCase key when that
      key is present and is the field's default otherwise. */
  predicate TaskFieldsDenote(m: map<string, Json>, t: BaseTaskConfiguration) {
    && (if "type" in m then NamesVariant(m["type"], TaskTypeName(t.taskType)) else t.taskType == Shell)
    && (if "group" in m then GroupDenotes(m["group"], t.group) else t.group == Group(Build, false))
    && (if "label" in m then m["label"] == JString(t.taskLabel) else t.taskLabel == "")
    && (if "command" in m then m["command"] == JString(t.command) else t.command == "")
    && (if "isBackground" in m then m["isBackground"] == JBool(t.isBackground) else !t.isBackground)
    && (if "options" in m then m["options"].JObject? && OptionsDenote(m["options"].fields, t.options)
        else t.options == CommandOptions(""))
    && (if "args" in m then m["args"].JArray? && StringsDenote(m["args"].items, t.args) else t.args == [])
  }

  /** The derived decoder of BaseTaskConfiguration, with its struct-wide default. */
  function DecodeTask(j: Json): (r: Decoded<BaseTaskConfiguration>)
    ensures r.Success? <==> j.JObject? && TaskFieldsWellTyped(j.fields)
    ensures r.Success? ==> TaskFieldsDenote(j.fields, r.value)
  {
    match j
    case JObject(m) =>
      var taskType :- Optional(m, "type", DefaultTask.taskType, DecodeTaskType);
      var group :- Optional(m, "group", DefaultTask.group, DecodeGroup);
      var taskLabel :- Optional(m, "label", DefaultTask.taskLabel, DecodeString);
      var command :- Optional(m, "command", DefaultTask.command, DecodeString);
      var isBackground :- Optional(m, "isBackground", DefaultTask.isBackground, DecodeBool);
      var options :- Optional(m, "options", DefaultTask.options, DecodeCommandOptions);
      var args :- Optional(m, "args", DefaultTask.args, DecodeArgs);
      var presentation :- Optional(m, "presentation", DefaultTask.presentation, DecodePresentation);
      var problemMatcher :- Optional(m, "problemMatcher", DefaultTask.problemMatcher, DecodeProblemMatcher);
      Success(BaseTaskConfiguration(taskType, group, taskLabel, command, isBackground, options, args,
                                    presentation, problemMatcher))
    case _ => Failure(InvalidType("struct BaseTaskConfiguration"))
  }

  /** The `tasks` array, element by element and in document order; the first task that
      fails to decode is the error. */
  function DecodeTaskList(items: seq<Json>): (r: Decoded<seq<BaseTaskConfiguration>>)
    ensures r.Success? <==> forall i :: 0 <= i < |items| ==> DecodeTask(items[i]).Success?
    ensures r.Success? ==> |r.value| == |items|
    ensures r.Success? ==> forall i :: 0 <= i < |items| ==> DecodeTask(items[i]) == Success(r.value[i])
  {
    if items == [] then Success([])
    else
      var first :- DecodeTask(items[0]);
      var rest :- DecodeTaskList(items[1..]);
      Success([first] + rest)
  }

  function DecodeTasks(j: Json): Decoded<seq<BaseTaskConfiguration>> {
    if j.JArray? then DecodeTaskList(j.items) else Failure(InvalidType("a sequence"))
  }

  /** Version is a newtype over a string. */
  function DecodeVersion(j: Json): Decoded<Version> {
    var s :- DecodeString(j);
    Success(Version(s))
  }

  // ---------------------------------------------------------------- document

  /** The decode of a whole document: `version` is optional and defaults to "2.0.0",
      `tasks` is required, and every task decodes in document order. */
  function Decode(j: Json): (r: Decoded<TaskConfiguration>)
    ensures r.Success? <==>
      && j.JObject?
      && ("version" in j.fields ==> j.fields["version"].JString?)
      && "tasks" in j.fields && j.fields["tasks"].JArray?
      && forall i :: 0 <= i < |j.fields["tasks"].items| ==> DecodeTask(j.fields["tasks"].items[i]).Success?
    ensures r.Success? ==>
      r.value.version == (if "version" in j.fields then Version(j.fields["version"].str) else Version("2.0.0"))
    ensures r.Success? ==>
      && |r.value.tasks| == |j.fields["tasks"].items|
      && forall i :: 0 <= i < |r.value.tasks| ==> DecodeTask(j.fields["tasks"].items[i]) == Success(r.value.tasks[i])
    ensures j.JObject? && "tasks" !in j.fields && ("version" in j.fields ==> j.fields["version"].JString?) ==>
      r == Failure(MissingField("tasks"))
  {
    match j
    case JObject(m) =>
      var version :- Optional(m, "version", DefaultVersion, DecodeVersion);
      var tasks :- Required(m, "tasks", DecodeTasks);
      Success(TaskConfiguration(version, tasks))
    case _ => Failure(InvalidType("struct TaskConfiguration"))
  }

  // ---------------------------------------------------------------- serializer

  /** The derived serializer: every field under its camelCase key, enums by name. A group
      is written as a map holding exactly its two keys, in the form its decoder reads back. */
  function EncodeGroup(g: Group): (r: Json)
    ensures r.JObject? && r.fields.Keys == {"kind", "isDefault"}
    ensures GroupFieldsWellTyped(r.fields) && GroupFieldsDenote(r.fields, g)
  {
    JObject(map["kind" := JString(GroupKindName(g.kind)), "isDefault" := JBool(g.isDefault)])
  }

  function EncodeStrings(ss: seq<string>): (items: seq<Json>)
    ensures StringsDenote(items, ss)
  {
    seq(|ss|, i requires 0 <= i < |ss| => JString(ss[i]))
  }

  /** A task is written with all nine keys present, none left to its default, and every
      entry of the shape the decoder accepts and reads back as the task's field. */
  function EncodeTask(t: BaseTaskConfiguration): (r: Json)
    ensures r.JObject?
    ensures r.fields.Keys == {"type", "group", "label", "command", "isBackground", "options",
                              "args", "presentation", "problemMatcher"}
    ensures TaskFieldsWellTyped(r.fields) && TaskFieldsDenote(r.fields, t)
  {
    JObject(map[
      "type" := JString(TaskTypeName(t.taskType)),
      "group" := EncodeGroup(t.group),
      "label" := JString(t.taskLabel),
      "command" := JString(t.command),
      "isBackground" := JBool(t.isBackground),
      "options" := JObject(map["cwd" := JString(t.options.cwd)]),
      "args" := JArray(EncodeStrings(t.args)),
      "presentation" := JObject(map[]),
      "problemMatcher" := JObject(map[])])
  }

  /** A configuration is written with an explicit `version`, so the default is never
      needed on re-reading, and with one encoded task per task, in order. */
  function Encode(tc: TaskConfiguration): (r: Json)
    ensures r.JObject? && r.fields.Keys == {"version", "tasks"}
    ensures r.fields["version"] == JString(tc.version.value)
    ensures r.fields["tasks"].JArray? && |r.fields["tasks"].items| == |tc.tasks|
    ensures forall i :: 0 <= i < |tc.tasks| ==>
      r.fields["tasks"].items[i].JObject? &&
      TaskFieldsDenote(r.fields["tasks"].items[i].fields, tc.tasks[i])
  {
    JObject(map[
      "version" := JString(tc.version.value),
      "tasks" := JArray(seq(|tc.tasks|, i requires 0 <= i < |tc.tasks| => EncodeTask(tc.tasks[i])))])
  }
}
