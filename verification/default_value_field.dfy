/**
  The state logic of the settings field that configures one variable's
  default value for one target: opening the field (the target check, the
  stored configuration it picks up, the offered options and the initial
  selection) and the three edits the field reacts to (dropdown, text area,
  keyring secret picker).

  The field keeps a handle on the configuration record. While the record is
  the one stored in the settings the handle is `attached`, and mutating it
  mutates the settings. Cleaning the slot up detaches the record; the handle
  keeps it, so later edits of the same field change the detached record only
  and never store it again.
 */
module DefaultValueField {
  import opened Wrappers
  import opened DefaultValues
  import opened SettingsStore

  datatype VariableKind = BuiltinVariable | CustomVariable

  /** A variable, identified by its id (custom variables) or name (built-in ones). */
  datatype Variable = Variable(kind: VariableKind, identifier: VariableId)

  /** The object whose configuration the field edits. */
  datatype Target = ShellCommandTarget(shellCommandId: ShellCommandId) | VariableTarget(variable: Variable)

  datatype Error = InvalidScopeTarget

  /** What a field fixes when it opens: where it stores, for which variable, and the keyring gate. */
  datatype Context = Context(scope: Scope, variableId: VariableId, keyring: bool)

  /** The settings, the field's handle on a configuration record, and whether that record is the stored one. */
  datatype FieldState = FieldState(settings: Settings, handle: Option<Config>, attached: bool)

  datatype DropdownOption = DropdownOption(kind: DefaultValueType, caption: string)

  datatype Field = Field(context: Context, options: seq<DropdownOption>, selected: DefaultValueType, state: FieldState)

  /** An edit of the field: a dropdown selection, a text area change, or a keyring secret choice. */
  datatype Edit = SelectType(newType: DefaultValueType) | EditText(text: string) | PickSecret(key: string)

  /** Where a variable's own (global) configuration is stored. */
  function GlobalScope(v: Variable): Scope
  {
    if v.kind == CustomVariable then CustomVar else BuiltinVar
  }

  /** The handle holds a record that cleanup has taken out of the settings. */
  predicate Detached(st: FieldState)
  {
    st.handle.Some? && !st.attached
  }

  /**
    The state invariant: an attached handle is exactly what the slot stores,
    otherwise the slot is empty; and a built-in variable whose field holds a
    record has its record in `builtin_variables`.
   */
  predicate Coherent(ctx: Context, st: FieldState)
  {
    && (st.attached ==> st.handle.Some?)
    && Read(st.settings, ctx.scope, ctx.variableId) == (if st.attached then st.handle else None)
    && (st.handle.Some? && ctx.scope.BuiltinVar? ==> ctx.variableId in st.settings.builtinVariables)
  }

  /** The record an edit starts from: the handle's, or the one the first edit creates. */
  function Working(st: FieldState): Config
  {
    if st.handle.Some? then st.handle.value else Config(ShowErrors, "")
  }

  /** The handle holds nothing `Inherit` outside a shell command. */
  predicate HandleAllowed(scope: Scope, handle: Option<Config>)
  {
    handle.Some? ==> AllowedInScope(scope, handle.value.kind)
  }

  predicate NotFromKeyring(handle: Option<Config>)
  {
    handle.Some? ==> handle.value.kind != FromKeyring
  }

  /** The dropdown's options: the offered types with their labels, the inherit one derived from `global`. */
  function Options(scope: Scope, global: Option<Config>, keyring: bool): (r: seq<DropdownOption>)
    ensures |r| == |OfferedTypes(scope, keyring)|
    ensures forall i :: 0 <= i < |r| ==> r[i].kind == OfferedTypes(scope, keyring)[i]
    ensures forall i :: 0 <= i < |r| && r[i].kind == Inherit ==> r[i].caption == InheritLabel(global, keyring)
    ensures forall i :: 0 <= i < |r| && r[i].kind != Inherit ==> Some(r[i].caption) == OptionLabel(r[i].kind, keyring)
  {
    var types := OfferedTypes(scope, keyring);
    seq(|types|, i requires 0 <= i < |types| =>
      DropdownOption(types[i], if types[i] == Inherit then InheritLabel(global, keyring) else TypeLabel(types[i])))
  }

  /**
    Opens the field for `variable` on `target` (the variable itself when no
    target is given). A variable target other than `variable` is rejected
    before anything is read. Otherwise the field picks up the stored record
    without writing anything, offers the scope's types, labels "inherit"
    from the variable's global configuration, and selects the initial type.
   */
  function OpenField(settings: Settings, variable: Variable, target: Option<Target>,
                     apiVersionAtLeast: bool, getSecretIsFunction: bool): (r: Result<Field, Error>)
    ensures r.Failure? <==> target.Some? && target.value.VariableTarget? && target.value.variable != variable
    ensures r.Failure? ==> r.error == InvalidScopeTarget
    ensures r.Success? ==>
      var f := r.value;
      && f.context.scope == (if target.Some? && target.value.ShellCommandTarget?
                             then ShellCommand(target.value.shellCommandId) else GlobalScope(variable))
      && f.context.variableId == variable.identifier
      && (f.context.keyring <==> apiVersionAtLeast && getSecretIsFunction)
      && f.state.settings == settings
      && Coherent(f.context, f.state)
      && !Detached(f.state)
      && |f.options| == |OfferedTypes(f.context.scope, f.context.keyring)|
      && (forall i :: 0 <= i < |f.options| ==> f.options[i].kind == OfferedTypes(f.context.scope, f.context.keyring)[i])
      && (f.selected == FromKeyring ==> f.context.keyring)
      && (HandleAllowed(f.context.scope, f.state.handle) ==> f.selected in OfferedTypes(f.context.scope, f.context.keyring))
      && f.selected == InitialSelection(f.context.scope, f.state.handle, f.context.keyring)
      && f.options == Options(f.context.scope, Read(settings, GlobalScope(variable), variable.identifier), f.context.keyring)
  {
    var target := target.GetOr(VariableTarget(variable));
    if target.VariableTarget? && target.variable != variable then
      Failure(InvalidScopeTarget)
    else
      var scope := match target
        case ShellCommandTarget(sh) => ShellCommand(sh)
        case VariableTarget(v) => if v.kind == CustomVariable then CustomVar else BuiltinVar;
      var stored := Read(settings, scope, variable.identifier);
      var keyring := HasSecretStorage(apiVersionAtLeast, getSecretIsFunction);
      var global := Read(settings, GlobalScope(variable), variable.identifier);
      Success(Field(
        Context(scope, variable.identifier, keyring),
        Options(scope, global, keyring),
        InitialSelection(scope, stored, keyring),
        FieldState(settings, stored, stored.Some?)))
  }

  /**
    An edit on a field that holds no record first creates
    `{type: show-errors, value: ""}` and stores it in the slot, attached.
   */
  function EnsureHandle(ctx: Context, st: FieldState): (r: FieldState)
    requires Coherent(ctx, st)
    ensures Coherent(ctx, r) && r.handle == Some(Working(st))
    ensures st.handle.Some? ==> r == st
    ensures st.handle.None? ==> r.attached && Read(r.settings, ctx.scope, ctx.variableId) == Some(Config(ShowErrors, ""))
    ensures OnlySlotChanged(st.settings, r.settings, ctx.scope, ctx.variableId)
  {
    if st.handle.Some? then st
    else
      var created := Config(ShowErrors, "");
      FieldState(Put(st.settings, ctx.scope, ctx.variableId, created), Some(created), true)
  }

  /** Replaces the handle's record by `c`; an attached record is the stored one, so the slot follows. */
  function Mutate(ctx: Context, st: FieldState, c: Config): (r: FieldState)
    requires Coherent(ctx, st) && st.handle.Some?
    ensures Coherent(ctx, r) && r.handle == Some(c) && r.attached == st.attached
    ensures Read(r.settings, ctx.scope, ctx.variableId) == (if st.attached then Some(c) else None)
    ensures OnlySlotChanged(st.settings, r.settings, ctx.scope, ctx.variableId)
    ensures !st.attached ==> r.settings == st.settings
  {
    var settings := if st.attached then Put(st.settings, ctx.scope, ctx.variableId, c) else st.settings;
    FieldState(settings, Some(c), st.attached)
  }

  /**
    A dropdown selection. The record takes the new type; its value is
    cleared only when going from `from-keyring` to `value`. When the new type
    is the scope's implicit default and the value is empty, the slot is
    cleaned up and the record detached; otherwise a stored record stays
    stored with the new type. A record that was already detached stays out
    of the settings.
   */
  function ChangeType(ctx: Context, st: FieldState, newType: DefaultValueType): (r: FieldState)
    requires Coherent(ctx, st)
    requires newType in OfferedTypes(ctx.scope, ctx.keyring)
    ensures Coherent(ctx, r)
    ensures r.handle.Some? && r.handle.value.kind == newType
    ensures r.handle.value.value == (if newType == Value && Working(st).kind == FromKeyring then "" else Working(st).value)
    ensures var cleanedUp := newType == ImplicitDefault(ctx.scope) && r.handle.value.value == "";
      && Read(r.settings, ctx.scope, ctx.variableId) == (if cleanedUp || Detached(st) then None else r.handle)
      && (r.attached <==> !cleanedUp && !Detached(st))
    ensures Read(r.settings, ctx.scope, ctx.variableId) != Some(Config(ImplicitDefault(ctx.scope), ""))
    ensures OnlySlotChanged(st.settings, r.settings, ctx.scope, ctx.variableId)
    ensures Detached(st) ==> Detached(r) && r.settings == st.settings
  {
    var st1 := EnsureHandle(ctx, st);
    var previousType := st1.handle.value.kind;
    var value := if newType == Value && previousType == FromKeyring then "" else st1.handle.value.value;
    var st2 := Mutate(ctx, st1, Config(newType, value));
    OnlySlotChangedTransitive(st.settings, st1.settings, st2.settings, ctx.scope, ctx.variableId);
    var cleanUp := match ctx.scope
      case ShellCommand(_) => newType == Inherit && value == ""
      case _ => newType == ShowErrors && value == "";
    if cleanUp then
      var settings := Clear(st2.settings, ctx.scope, ctx.variableId);
      OnlySlotChangedTransitive(st.settings, st2.settings, settings, ctx.scope, ctx.variableId);
      FieldState(settings, st2.handle, false)
    else
      st2
  }

  /** A text area change: only the record's value changes, and the slot is never cleaned up. */
  function ChangeValue(ctx: Context, st: FieldState, text: string): (r: FieldState)
    requires Coherent(ctx, st)
    ensures Coherent(ctx, r)
    ensures r.handle == Some(Config(Working(st).kind, text))
    ensures Read(r.settings, ctx.scope, ctx.variableId) == (if Detached(st) then None else r.handle)
    ensures OnlySlotChanged(st.settings, r.settings, ctx.scope, ctx.variableId)
    ensures Detached(st) ==> Detached(r) && r.settings == st.settings
  {
    var st1 := EnsureHandle(ctx, st);
    var st2 := Mutate(ctx, st1, st1.handle.value.(value := text));
    OnlySlotChangedTransitive(st.settings, st1.settings, st2.settings, ctx.scope, ctx.variableId);
    st2
  }

  /**
    A keyring secret choice, possible only while the keyring is available:
    the record becomes `from-keyring` with the chosen secret id as its value.
   */
  function ChangeKeyringValue(ctx: Context, st: FieldState, key: string): (r: FieldState)
    requires Coherent(ctx, st)
    requires ctx.keyring
    ensures Coherent(ctx, r)
    ensures r.handle == Some(Config(FromKeyring, key))
    ensures Read(r.settings, ctx.scope, ctx.variableId) == (if Detached(st) then None else r.handle)
    ensures OnlySlotChanged(st.settings, r.settings, ctx.scope, ctx.variableId)
    ensures Detached(st) ==> Detached(r) && r.settings == st.settings
  {
    var st1 := EnsureHandle(ctx, st);
    var st2 := Mutate(ctx, st1, st1.handle.value.(kind := FromKeyring).(value := key));
    OnlySlotChangedTransitive(st.settings, st1.settings, st2.settings, ctx.scope, ctx.variableId);
    st2
  }

  /** A slot that stores the scope's implicit default with an empty value, i.e. a record that changes nothing. */
  predicate StoresNoOp(ctx: Context, settings: Settings)
  {
    Read(settings, ctx.scope, ctx.variableId) == Some(Config(ImplicitDefault(ctx.scope), ""))
  }

  /**
    Whether the field's controls can produce `e` in state `st`. The dropdown
    emits offered types only. The text area is shown only while the type
    last set on the field is `value`, and the secret picker only while it is
    `from-keyring` and the keyring is available. That type is the working
    record's: it is set by every dropdown edit and by the secret picker, and
    when the field opens with no record it is neither of the two.
   */
  predicate Producible(ctx: Context, st: FieldState, e: Edit)
  {
    match e
    case SelectType(t) => t in OfferedTypes(ctx.scope, ctx.keyring)
    case EditText(_) => Working(st).kind == Value
    case PickSecret(_) => ctx.keyring && Working(st).kind == FromKeyring
  }

  /** One edit, dispatched to its handler. */
  function Apply(ctx: Context, st: FieldState, e: Edit): (r: FieldState)
    requires Coherent(ctx, st) && Producible(ctx, st, e)
    ensures Coherent(ctx, r)
    ensures OnlySlotChanged(st.settings, r.settings, ctx.scope, ctx.variableId)
    ensures Detached(st) ==> Detached(r) && r.settings == st.settings
    ensures HandleAllowed(ctx.scope, st.handle) ==> HandleAllowed(ctx.scope, r.handle)
    ensures !ctx.keyring && NotFromKeyring(st.handle) ==> NotFromKeyring(r.handle)
    ensures !StoresNoOp(ctx, r.settings)
  {
    match e
    case SelectType(t) => ChangeType(ctx, st, t)
    case EditText(text) => ChangeValue(ctx, st, text)
    case PickSecret(key) => ChangeKeyringValue(ctx, st, key)
  }

  /** Every edit of `edits`, applied in turn from `st`, is one the controls can produce at that point. */
  predicate ProducibleSession(ctx: Context, st: FieldState, edits: seq<Edit>)
    requires Coherent(ctx, st)
    decreases |edits|
  {
    edits == [] || (Producible(ctx, st, edits[0]) && ProducibleSession(ctx, Apply(ctx, st, edits[0]), edits[1..]))
  }

  /**
    A session of edits on one field. Whatever the edits, the state stays
    coherent, nothing outside the field's slot changes, a detached field never
    reaches the settings again, `inherit` never enters a variable's own
    configuration, and without the keyring no `from-keyring` record appears.
    After at least one edit the slot never holds a no-op record.
   */
  function Run(ctx: Context, st: FieldState, edits: seq<Edit>): (r: FieldState)
    requires Coherent(ctx, st)
    requires ProducibleSession(ctx, st, edits)
    ensures Coherent(ctx, r)
    ensures OnlySlotChanged(st.settings, r.settings, ctx.scope, ctx.variableId)
    ensures Detached(st) ==> Detached(r) && r.settings == st.settings
    ensures HandleAllowed(ctx.scope, st.handle) ==> HandleAllowed(ctx.scope, r.handle)
    ensures !ctx.keyring && NotFromKeyring(st.handle) ==> NotFromKeyring(r.handle)
    ensures 0 < |edits| ==> !StoresNoOp(ctx, r.settings)
    ensures !StoresNoOp(ctx, st.settings) ==> !StoresNoOp(ctx, r.settings)
    decreases |edits|
  {
    if edits == [] then
      st
    else
      var next := Apply(ctx, st, edits[0]);
      var r := Run(ctx, next, edits[1..]);
      OnlySlotChangedTransitive(st.settings, next.settings, r.settings, ctx.scope, ctx.variableId);
      r
  }
}
