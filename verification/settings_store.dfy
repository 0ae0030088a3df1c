/**
  The part of the persisted settings tree that holds default value
  configurations, with the three slot operations the settings field performs:
  read a variable's configuration in a scope, store one (creating the
  built-in variable's record on the way), and clean the slot up.
 */
module SettingsStore {
  import opened Wrappers
  import opened DefaultValues

  /** A built-in variable's record in `builtin_variables`: `{default_value: config | null}`. */
  datatype BuiltinVariableConfig = BuiltinVariableConfig(defaultValue: Option<Config>)

  /**
    `builtinVariables` is the global `builtin_variables` map. Every custom
    variable's own configuration carries a `default_value`; the map
    `customVariableDefaults` holds the non-null ones, so a missing key means
    `null`. `shellCommandDefaults` holds each shell command's
    `variable_default_values` map; a shell command missing from it has an
    empty map.
   */
  datatype Settings = Settings(
    builtinVariables: map<VariableId, BuiltinVariableConfig>,
    customVariableDefaults: map<VariableId, Config>,
    shellCommandDefaults: map<ShellCommandId, map<VariableId, Config>>)

  /** A shell command's `variable_default_values` map. */
  function VariableDefaultValues(s: Settings, sh: ShellCommandId): map<VariableId, Config>
  {
    if sh in s.shellCommandDefaults then s.shellCommandDefaults[sh] else map[]
  }

  /** The configuration stored for variable `id` in `scope`, if any. */
  function Read(s: Settings, scope: Scope, id: VariableId): Option<Config>
  {
    match scope
    case ShellCommand(sh) =>
      var defaults := VariableDefaultValues(s, sh);
      if id in defaults then Some(defaults[id]) else None
    case CustomVar =>
      if id in s.customVariableDefaults then Some(s.customVariableDefaults[id]) else None
    case BuiltinVar =>
      if id in s.builtinVariables then s.builtinVariables[id].defaultValue else None
  }

  /**
    Everything outside the slot of variable `id` in `scope` is the same in
    `s` and `s2`. For a built-in variable this allows the variable's record
    to appear; it forbids any other record to change, appear or vanish.
   */
  predicate OnlySlotChanged(s: Settings, s2: Settings, scope: Scope, id: VariableId)
  {
    match scope
    case ShellCommand(sh) =>
      && s2.builtinVariables == s.builtinVariables
      && s2.customVariableDefaults == s.customVariableDefaults
      && s2.shellCommandDefaults - {sh} == s.shellCommandDefaults - {sh}
      && VariableDefaultValues(s2, sh) - {id} == VariableDefaultValues(s, sh) - {id}
    case CustomVar =>
      && s2.builtinVariables == s.builtinVariables
      && s2.shellCommandDefaults == s.shellCommandDefaults
      && s2.customVariableDefaults - {id} == s.customVariableDefaults - {id}
    case BuiltinVar =>
      && s2.customVariableDefaults == s.customVariableDefaults
      && s2.shellCommandDefaults == s.shellCommandDefaults
      && s2.builtinVariables - {id} == s.builtinVariables - {id}
  }

  /**
    Stores `c` in the slot; for a built-in variable the record
    `{default_value: null}` is created first when the variable has none.
    Reading the slot back gives `c`, and nothing else changes.
   */
  function Put(s: Settings, scope: Scope, id: VariableId, c: Config): (r: Settings)
    ensures Read(r, scope, id) == Some(c)
    ensures OnlySlotChanged(s, r, scope, id)
    ensures scope.BuiltinVar? ==> id in r.builtinVariables
  {
    match scope
    case ShellCommand(sh) =>
      s.(shellCommandDefaults := s.shellCommandDefaults[sh := VariableDefaultValues(s, sh)[id := c]])
    case CustomVar =>
      s.(customVariableDefaults := s.customVariableDefaults[id := c])
    case BuiltinVar =>
      var record := if id in s.builtinVariables then s.builtinVariables[id] else BuiltinVariableConfig(None);
      s.(builtinVariables := s.builtinVariables[id := record.(defaultValue := Some(c))])
  }

  /**
    Cleans the slot up: a shell command's map entry is deleted, a variable's
    `default_value` becomes null. Writing null needs the built-in variable's
    record to exist (the assignment would fail on a missing record). The slot
    reads as empty afterwards, the built-in record survives, nothing else
    changes, and an already empty slot leaves the settings as they were.
   */
  function Clear(s: Settings, scope: Scope, id: VariableId): (r: Settings)
    requires scope.BuiltinVar? ==> id in s.builtinVariables
    ensures Read(r, scope, id) == None
    ensures OnlySlotChanged(s, r, scope, id)
    ensures scope.BuiltinVar? ==> id in r.builtinVariables
    ensures Read(s, scope, id) == None ==> r == s
  {
    match scope
    case ShellCommand(sh) =>
      if sh in s.shellCommandDefaults then
        var kept := s.shellCommandDefaults[sh] - {id};
        assert id !in s.shellCommandDefaults[sh] ==> kept == s.shellCommandDefaults[sh];
        s.(shellCommandDefaults := s.shellCommandDefaults[sh := kept])
      else
        s
    case CustomVar =>
      s.(customVariableDefaults := s.customVariableDefaults - {id})
    case BuiltinVar =>
      s.(builtinVariables := s.builtinVariables[id := BuiltinVariableConfig(None)])
  }

  /** The frame means what it says: every other slot reads the same. */
  lemma OtherSlotsUnchanged(s: Settings, s2: Settings, scope: Scope, id: VariableId)
    requires OnlySlotChanged(s, s2, scope, id)
    ensures forall other, otherId :: (other, otherId) != (scope, id) ==> Read(s2, other, otherId) == Read(s, other, otherId)
  {
    forall other, otherId | (other, otherId) != (scope, id)
      ensures Read(s2, other, otherId) == Read(s, other, otherId)
    {
      match scope
      case ShellCommand(sh) =>
        if other == scope {
          assert otherId in VariableDefaultValues(s2, sh) - {id} <==> otherId in VariableDefaultValues(s, sh) - {id};
        } else if other.ShellCommand? {
          var sh2 := other.shellCommandId;
          assert sh2 in s2.shellCommandDefaults - {sh} <==> sh2 in s.shellCommandDefaults - {sh};
        }
      case CustomVar =>
        if other == scope {
          assert otherId in s2.customVariableDefaults - {id} <==> otherId in s.customVariableDefaults - {id};
        }
      case BuiltinVar =>
        if other == scope {
          assert otherId in s2.builtinVariables - {id} <==> otherId in s.builtinVariables - {id};
        }
    }
  }

  /** Two edits of the same slot change nothing outside it. */
  lemma OnlySlotChangedTransitive(s1: Settings, s2: Settings, s3: Settings, scope: Scope, id: VariableId)
    requires OnlySlotChanged(s1, s2, scope, id) && OnlySlotChanged(s2, s3, scope, id)
    ensures OnlySlotChanged(s1, s3, scope, id)
  {
  }
}
