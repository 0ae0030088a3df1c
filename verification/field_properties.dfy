/**
  Properties of whole editing sessions on one default value field, and
  worked examples of editing one field.
 */
module FieldProperties {
  import opened Wrappers
  import opened DefaultValues
  import opened SettingsStore
  import opened DefaultValueField

  /**
    Text edits alone never clean a slot up: after a session of text edits on
    a field whose record is not detached, the record is stored, keeps the
    type it started with, and holds the last text typed.
   */
  lemma {:induction false} TextEditsKeepRecordStored(ctx: Context, st: FieldState, edits: seq<Edit>)
    requires Coherent(ctx, st) && !Detached(st)
    requires 0 < |edits| && forall i :: 0 <= i < |edits| ==> edits[i].EditText?
    requires ProducibleSession(ctx, st, edits)
    ensures var r := Run(ctx, st, edits);
      && r.attached
      && Read(r.settings, ctx.scope, ctx.variableId) == Some(Config(Working(st).kind, edits[|edits| - 1].text))
    decreases |edits|
  {
    var next := Apply(ctx, st, edits[0]);
    assert next.attached && next.handle.value.kind == Working(st).kind;
    if |edits| > 1 {
      TextEditsKeepRecordStored(ctx, next, edits[1..]);
      assert Working(next).kind == Working(st).kind;
    }
  }

  /** A whole session leaves every other variable's and every other target's configuration as it was. */
  lemma SessionTouchesOnlyItsSlot(ctx: Context, st: FieldState, edits: seq<Edit>)
    requires Coherent(ctx, st)
    requires ProducibleSession(ctx, st, edits)
    ensures forall other, otherId :: (other, otherId) != (ctx.scope, ctx.variableId) ==>
      Read(Run(ctx, st, edits).settings, other, otherId) == Read(st.settings, other, otherId)
  {
    OtherSlotsUnchanged(st.settings, Run(ctx, st, edits).settings, ctx.scope, ctx.variableId);
  }

  /**
    Selecting the implicit default with an empty value cleans the slot up and
    detaches the field's record: every later edit of the same field, text
    or type, is lost to the settings.
   */
  lemma EditsAfterCleanupAreLost(ctx: Context, st: FieldState, newType: DefaultValueType, edits: seq<Edit>)
    requires Coherent(ctx, st) && newType in OfferedTypes(ctx.scope, ctx.keyring)
    requires newType == ImplicitDefault(ctx.scope) && ChangeType(ctx, st, newType).handle.value.value == ""
    requires ProducibleSession(ctx, ChangeType(ctx, st, newType), edits)
    ensures var cleaned := ChangeType(ctx, st, newType);
      && Read(cleaned.settings, ctx.scope, ctx.variableId) == None
      && Run(ctx, cleaned, edits).settings == cleaned.settings
  {
  }

  const clipboard := Variable(BuiltinVariable, "clipboard")
  const noSettings := Settings(map[], map[], map[])

  /**
    A built-in variable with nothing stored: choosing "value" stores
    `{value, ""}`, typing "/tmp" stores `{value, "/tmp"}`, and going back to
    "show-errors" keeps the typed text, so the record stays stored.
   */
  lemma BuiltinValueScenario()
    ensures var first := OpenField(noSettings, clipboard, None, true, true);
      && first.Success?
      && var ctx := first.value.context;
      && ctx.scope == BuiltinVar
      && var s1 := ChangeType(ctx, first.value.state, Value);
      && Read(s1.settings, BuiltinVar, "clipboard") == Some(Config(Value, ""))
      && var s2 := ChangeValue(ctx, s1, "/tmp");
      && Read(s2.settings, BuiltinVar, "clipboard") == Some(Config(Value, "/tmp"))
      && var s3 := ChangeType(ctx, s2, ShowErrors);
      && Read(s3.settings, BuiltinVar, "clipboard") == Some(Config(ShowErrors, "/tmp"))
  {
  }

  /**
    With the keyring available a chosen secret is stored as
    `{from-keyring, "db-pass"}`. Opened again without the keyring, the field
    does not offer `from-keyring`, selects "show-errors", and the stored
    record is left as it is.
   */
  lemma KeyringScenario()
    ensures var first := OpenField(noSettings, clipboard, None, true, true);
      && first.Success?
      && var s1 := ChangeKeyringValue(first.value.context, first.value.state, "db-pass");
      && Read(s1.settings, BuiltinVar, "clipboard") == Some(Config(FromKeyring, "db-pass"))
      && var again := OpenField(s1.settings, clipboard, None, true, false);
      && again.Success?
      && FromKeyring !in OfferedTypes(again.value.context.scope, again.value.context.keyring)
      && again.value.selected == ShowErrors
      && again.value.state.settings == s1.settings
  {
    var first := OpenField(noSettings, clipboard, None, true, true);
    var s1 := ChangeKeyringValue(first.value.context, first.value.state, "db-pass");
    var again := OpenField(s1.settings, clipboard, None, true, false);
    assert again.value.state.handle == Some(Config(FromKeyring, "db-pass"));
  }

  /**
    A shell command with no override, whose variable's global configuration
    is `{value, "X"}`: the field selects "inherit", and the inherit option
    reads "Inherit: Execute with value: X".
   */
  lemma InheritLabelScenario()
    ensures inheritField.Success?
    ensures inheritField.value.selected == Inherit
    ensures inheritField.value.options[0].kind == Inherit
    ensures inheritField.value.options[0].caption == "Inherit: Execute with value: X"
  {
    var global := Some(Config(Value, "X"));
    assert Read(inheritField.value.state.settings, CustomVar, "cv1") == global;
    InheritLabelOfValueX();
  }

  /** The inherit option spells a global literal out after the "value" label. */
  lemma InheritLabelOfValueX()
    ensures InheritLabel(Some(Config(Value, "X")), false) == "Inherit: Execute with value: X"
  {
    assert InheritLabel(Some(Config(Value, "X")), false) == InheritPrefix + TypeLabel(Value) + " " + "X";
  }

  /** The field of custom variable `cv1` on shell command `sc1`, where `cv1`'s own configuration is `{value, "X"}`. */
  const inheritField := OpenField(Settings(map[], map["cv1" := Config(Value, "X")], map[]),
                                  Variable(CustomVariable, "cv1"), Some(ShellCommandTarget("sc1")), false, false)

  /** A custom variable's field may not be opened on another variable's configuration. */
  lemma ForeignTargetScenario()
    ensures OpenField(noSettings, Variable(CustomVariable, "cv1"), Some(VariableTarget(clipboard)), true, true)
      == Failure(InvalidScopeTarget)
  {
  }

  /**
    On a shell command with nothing stored, choosing "value", typing "a" and
    going back to "inherit" keeps `{inherit, "a"}` stored. The text area is
    then hidden, so emptying it is not an edit the field can produce, and
    `{inherit, ""}` never gets stored.
   */
  lemma HiddenTextAreaScenario()
    ensures var ctx := Context(ShellCommand("sc"), "v", false);
      var st := FieldState(noSettings, None, false);
      var edits := [SelectType(Value), EditText("a"), SelectType(Inherit)];
      && ProducibleSession(ctx, st, edits)
      && Read(Run(ctx, st, edits).settings, ShellCommand("sc"), "v") == Some(Config(Inherit, "a"))
      && !ProducibleSession(ctx, st, edits + [EditText("")])
  {
    var ctx := Context(ShellCommand("sc"), "v", false);
    var st := FieldState(noSettings, None, false);
    var s1 := Apply(ctx, st, SelectType(Value));
    var s2 := Apply(ctx, s1, EditText("a"));
    var s3 := Apply(ctx, s2, SelectType(Inherit));
    assert s3.handle == Some(Config(Inherit, "a"));
    var full := [SelectType(Value), EditText("a"), SelectType(Inherit)] + [EditText("")];
    assert full[1..][1..][1..] == [EditText("")];
    assert !ProducibleSession(ctx, s3, full[1..][1..][1..]);
    assert !ProducibleSession(ctx, s2, full[1..][1..]);
    assert !ProducibleSession(ctx, s1, full[1..]);
  }
}
