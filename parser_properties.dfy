/** Properties of the configuration decoder: defaults, the two shapes of `group`, strict
    enum names, order preservation, the documented example and the serializer round trip. */
module ParserProperties {
  import opened Wrappers
  import opened Json
  import opened Parser

  // ---------------------------------------------------------------- group

  /** The shorthand names "build" and "test" select their kind; every other string,
      including differently-cased ones, falls back to Build. Never a default group. */
  lemma GroupShorthand(s: string)
    ensures DecodeGroup(JString("build")) == Success(Group(Build, false))
    ensures DecodeGroup(JString("test")) == Success(Group(Test, false))
    ensures s != "test" ==> DecodeGroup(JString(s)) == Success(Group(Build, false))
  {
  }

  /** The object form of `group` has no field defaults: both keys are required. */
  lemma GroupObjectNeedsBothKeys(m: map<string, Json>)
    requires "kind" !in m || "isDefault" !in m
    ensures DecodeGroup(JObject(m)).Failure?
    ensures DecodeGroup(JObject(map[])) == Failure(MissingField("kind"))
  {
  }

  /** Only strings and maps are accepted for `group`. */
  lemma GroupRejectsOtherJson(b: bool, n: int, items: seq<Json>)
    ensures DecodeGroup(JNull).Failure?
    ensures DecodeGroup(JBool(b)).Failure?
    ensures DecodeGroup(JNumber(n)).Failure?
    ensures DecodeGroup(JArray(items)).Failure?
  {
  }

  /** Serializing a group in its object form and decoding it gives the group back. */
  lemma GroupRoundTrip(g: Group)
    ensures DecodeGroup(EncodeGroup(g)) == Success(g)
  {
    var m := EncodeGroup(g).fields;
    assert GroupFieldsWellTyped(m) by {
      assert g.kind == Build ==> NamesVariant(m["kind"], "build");
      assert g.kind == Test ==> NamesVariant(m["kind"], "test");
    }
    var r := DecodeGroup(EncodeGroup(g));
    assert GroupFieldsDenote(m, r.value);
    assert NamesVariant(m["kind"], GroupKindName(r.value.kind));
  }

  // ---------------------------------------------------------------- enums

  /** `type` accepts exactly the lowercase names, unlike the lenient group shorthand. */
  lemma TaskTypeIsStrict(s: string)
    ensures DecodeTaskType(JString(s)).Success? <==> s == "shell" || s == "process"
    ensures DecodeTaskType(JString("shell")) == Success(Shell)
    ensures DecodeTaskType(JString("process")) == Success(Process)
  {
    assert NamesVariant(JString("shell"), TaskTypeName(Shell));
    assert NamesVariant(JString("process"), TaskTypeName(Process));
    var r := DecodeTaskType(JString(s));
    if r.Success? {
      assert NamesVariant(JString(s), TaskTypeName(r.value));
    }
  }

  /** `kind` accepts exactly the lowercase names. */
  lemma GroupKindIsStrict(s: string)
    ensures DecodeGroupKind(JString(s)).Success? <==> s == "build" || s == "test"
    ensures DecodeGroupKind(JString("build")) == Success(Build)
    ensures DecodeGroupKind(JString("test")) == Success(Test)
  {
    assert NamesVariant(JString("build"), GroupKindName(Build));
    assert NamesVariant(JString("test"), GroupKindName(Test));
    var r := DecodeGroupKind(JString(s));
    if r.Success? {
      assert NamesVariant(JString(s), GroupKindName(r.value));
    }
  }

  /** "Test" is a valid group shorthand (meaning Build) but not a valid `kind`. */
  lemma ShorthandLenientKindStrict()
    ensures DecodeGroup(JString("Test")) == Success(Group(Build, false))
    ensures DecodeGroup(JObject(map["kind" := JString("Test"), "isDefault" := JBool(false)])).Failure?
  {
    GroupKindIsStrict("Test");
  }

  // ---------------------------------------------------------------- task defaults

  /** A task object without any key decodes to the Default impl of the task. */
  lemma EmptyTaskIsDefault()
    ensures DecodeTask(JObject(map[])) == Success(DefaultTask)
  {
  }

  /** A task with only a label and a command gets every other field's default. */
  lemma LabelAndCommandOnly(name: string, command: string)
    ensures DecodeTask(JObject(map["label" := JString(name), "command" := JString(command)]))
         == Success(BaseTaskConfiguration(Shell, Group(Build, false), name, command, false,
                                          CommandOptions(""), [], PresentationOptions, ProblemMatcher))
  {
  }

  /** A defaulted field depends only on its own key. */
  lemma OptionalReadsOnlyItsKey<T>(m: map<string, Json>, m': map<string, Json>, key: string, default: T,
                                   decode: Json -> Decoded<T>)
    requires key in m <==> key in m'
    requires key in m ==> m[key] == m'[key]
    ensures Optional(m, key, default, decode) == Optional(m', key, default, decode)
  {
  }

  /** Keys the schema does not know (a snake_case `is_background`, say) are ignored. */
  lemma UnknownTaskKeyIgnored(m: map<string, Json>, key: string, v: Json)
    requires key !in {"type", "group", "label", "command", "isBackground", "options", "args",
                      "presentation", "problemMatcher"}
    ensures DecodeTask(JObject(m[key := v])) == DecodeTask(JObject(m))
  {
    var m' := m[key := v];
    OptionalReadsOnlyItsKey(m', m, "type", DefaultTask.taskType, DecodeTaskType);
    OptionalReadsOnlyItsKey(m', m, "group", DefaultTask.group, DecodeGroup);
    OptionalReadsOnlyItsKey(m', m, "label", DefaultTask.taskLabel, DecodeString);
    OptionalReadsOnlyItsKey(m', m, "command", DefaultTask.command, DecodeString);
    OptionalReadsOnlyItsKey(m', m, "isBackground", DefaultTask.isBackground, DecodeBool);
    OptionalReadsOnlyItsKey(m', m, "options", DefaultTask.options, DecodeCommandOptions);
    OptionalReadsOnlyItsKey(m', m, "args", DefaultTask.args, DecodeArgs);
    OptionalReadsOnlyItsKey(m', m, "presentation", DefaultTask.presentation, DecodePresentation);
    OptionalReadsOnlyItsKey(m', m, "problemMatcher", DefaultTask.problemMatcher, DecodeProblemMatcher);
  }

  // ---------------------------------------------------------------- document

  /** A document without `version` gets "2.0.0"; one without `tasks` is refused, and is
      not read as the `Default` configuration (version "2.0.0", no tasks). */
  lemma VersionDefaultTasksRequired(tasks: seq<Json>)
    requires forall i :: 0 <= i < |tasks| ==> DecodeTask(tasks[i]).Success?
    ensures Decode(JObject(map["tasks" := JArray(tasks)])).Success?
    ensures Decode(JObject(map["tasks" := JArray(tasks)])).value.version == Version("2.0.0")
    ensures Decode(JObject(map[])) == Failure(MissingField("tasks"))
    ensures Decode(JObject(map[])) != Success(DefaultTaskConfiguration)
    ensures Decode(JObject(map["version" := JString("2.0.0")])) == Failure(MissingField("tasks"))
  {
  }

  /** An empty task list is a valid document. */
  lemma EmptyTaskListAccepted()
    ensures Decode(JObject(map["tasks" := JArray([])])) == Success(TaskConfiguration(Version("2.0.0"), []))
  {
  }

  /** The document of the crate's own example. */
  function ExampleDocument(): Json {
    JObject(map[
      "version" := JString("2.0.0"),
      "tasks" := JArray([
        JObject(map[
          "label" := JString("Emit Greeting"),
          "group" := JString("build"),
          "type" := JString("process"),
          "command" := JString("/bin/echo"),
          "isBackground" := JBool(false),
          "options" := JObject(map["cwd" := JString("/tmp")]),
          "args" := JArray([JString("Hello,"), JString("world!")]),
          "presentation" := JObject(map[]),
          "problemMatcher" := JObject(map[])])])])
  }

  function ExampleConfiguration(): TaskConfiguration {
    TaskConfiguration(Version("2.0.0"), [
      BaseTaskConfiguration(
        Process, Group(Build, false), "Emit Greeting", "/bin/echo", false,
        CommandOptions("/tmp"), ["Hello,", "world!"], PresentationOptions, ProblemMatcher)])
  }

  /** The entries of the example's task object. */
  lemma ExampleTaskEntries()
    ensures var m := ExampleDocument().fields["tasks"].items[0].fields;
      && "type" in m && m["type"] == JString("process")
      && "group" in m && m["group"] == JString("build")
      && "label" in m && m["label"] == JString("Emit Greeting")
      && "command" in m && m["command"] == JString("/bin/echo")
      && "isBackground" in m && m["isBackground"] == JBool(false)
      && "options" in m && m["options"] == JObject(map["cwd" := JString("/tmp")])
      && "args" in m && m["args"] == JArray([JString("Hello,"), JString("world!")])
      && "presentation" in m && m["presentation"].JObject?
      && "problemMatcher" in m && m["problemMatcher"].JObject?
  {
  }

  /** The documented example decodes to exactly the documented struct. */
  lemma ExampleDecodes()
    ensures Decode(ExampleDocument()) == Success(ExampleConfiguration())
  {
    var task := ExampleDocument().fields["tasks"].items[0];
    var expected := ExampleConfiguration().tasks[0];
    ExampleTaskEntries();
    assert EncodeStrings(expected.args) == [JString("Hello,"), JString("world!")];
    DecodeFullTask(task.fields, expected);
    var doc := ExampleDocument();
    assert doc.fields["version"] == JString("2.0.0");
    assert doc.fields["tasks"].items == [task];
    var r := Decode(doc);
    assert r.Success?;
    assert r.value.tasks == [expected];
  }

  // ---------------------------------------------------------------- round trip

  /** The entries of a serialized task, one per field. */
  lemma EncodeTaskEntries(t: BaseTaskConfiguration)
    ensures var m := EncodeTask(t).fields;
      && "type" in m && m["type"] == JString(TaskTypeName(t.taskType))
      && "group" in m && m["group"] == EncodeGroup(t.group)
      && "label" in m && m["label"] == JString(t.taskLabel)
      && "command" in m && m["command"] == JString(t.command)
      && "isBackground" in m && m["isBackground"] == JBool(t.isBackground)
      && "options" in m && m["options"] == JObject(map["cwd" := JString(t.options.cwd)])
      && "args" in m && m["args"] == JArray(EncodeStrings(t.args))
      && "presentation" in m && m["presentation"].JObject?
      && "problemMatcher" in m && m["problemMatcher"].JObject?
  {
  }

  /** A task object holding every field in its serialized form decodes to that task. */
  lemma DecodeFullTask(m: map<string, Json>, t: BaseTaskConfiguration)
    requires && "type" in m && m["type"] == JString(TaskTypeName(t.taskType))
             && "group" in m && DecodeGroup(m["group"]) == Success(t.group)
             && "label" in m && m["label"] == JString(t.taskLabel)
             && "command" in m && m["command"] == JString(t.command)
             && "isBackground" in m && m["isBackground"] == JBool(t.isBackground)
             && "options" in m && m["options"] == JObject(map["cwd" := JString(t.options.cwd)])
             && "args" in m && m["args"] == JArray(EncodeStrings(t.args))
             && "presentation" in m && m["presentation"].JObject?
             && "problemMatcher" in m && m["problemMatcher"].JObject?
    ensures DecodeTask(JObject(m)) == Success(t)
  {
    assert t.taskType == Shell ==> NamesVariant(m["type"], "shell");
    assert t.taskType == Process ==> NamesVariant(m["type"], "process");
    assert TaskFieldsWellTyped(m);
    var d := DecodeTask(JObject(m)).value;
    assert NamesVariant(m["type"], TaskTypeName(d.taskType));
    assert d.taskType == t.taskType;
    assert GroupDenotes(m["group"], d.group);
    assert d.group == t.group;
    assert StringsDenote(m["args"].items, d.args);
    assert d.args == t.args;
    assert OptionsDenote(m["options"].fields, d.options);
    assert d.options == t.options;
    assert d.taskLabel == t.taskLabel && d.command == t.command && d.isBackground == t.isBackground;
    assert d.presentation == t.presentation && d.problemMatcher == t.problemMatcher;
    assert d == t;
  }

  /** A task serialized with all its fields decodes back to itself. */
  lemma TaskRoundTrip(t: BaseTaskConfiguration)
    ensures DecodeTask(EncodeTask(t)) == Success(t)
  {
    EncodeTaskEntries(t);
    GroupRoundTrip(t.group);
    DecodeFullTask(EncodeTask(t).fields, t);
  }

  /** Decoding the serialized form of any configuration gives it back: the defaults the
      decoder fills in are stable under a write and a re-read. */
  lemma {:induction false} RoundTrip(tc: TaskConfiguration)
    ensures Decode(Encode(tc)) == Success(tc)
  {
    var items := Encode(tc).fields["tasks"].items;
    forall i | 0 <= i < |items|
      ensures DecodeTask(items[i]) == Success(tc.tasks[i])
    {
      TaskRoundTrip(tc.tasks[i]);
    }
    var r := Decode(Encode(tc));
    assert r.Success?;
    assert r.value.tasks == tc.tasks;
  }
}
