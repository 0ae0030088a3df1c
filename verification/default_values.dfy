/**
  The vocabulary of a variable's "if not available, then" policy: the policy
  types, the configuration record, the three places a record can be stored,
  and the pure rules the settings field derives from them (which types the
  dropdown offers, how the "Inherit: ..." option is labelled, and which type
  is selected when the field is opened).
 */
module DefaultValues {
  import opened Wrappers

  type VariableId = string
  type ShellCommandId = string

  /** The policy types; `Inherit` is meaningful for shell commands only. */
  datatype DefaultValueType = Inherit | ShowErrors | CancelSilently | Value | FromKeyring

  /**
    A stored default value configuration `{type, value}`. `value` is the
    literal for `Value`, the keyring secret id for `FromKeyring`, and is kept
    but unused for the other types.
   */
  datatype Config = Config(kind: DefaultValueType, value: string)

  /**
    Where the configuration of one variable is stored: in a shell command's
    per-variable map, on a custom variable's own record, or in the global
    map of built-in variables.
   */
  datatype Scope = ShellCommand(shellCommandId: ShellCommandId) | CustomVar | BuiltinVar

  /** The policy that applies when a scope stores nothing for a variable. */
  function ImplicitDefault(scope: Scope): DefaultValueType
  {
    if scope.ShellCommand? then Inherit else ShowErrors
  }

  /** `Inherit` belongs to shell commands only; the variables' own configurations are global. */
  predicate AllowedInScope(scope: Scope, t: DefaultValueType)
  {
    t == Inherit ==> scope.ShellCommand?
  }

  /** Reference definition of the dropdown's choices: a type is offered when
      it is allowed in the scope and, for `FromKeyring`, when the keyring is available. */
  predicate IsOffered(scope: Scope, keyring: bool, t: DefaultValueType)
  {
    AllowedInScope(scope, t) && (t == FromKeyring ==> keyring)
  }

  /** The serialized name of a type. */
  function TypeName(t: DefaultValueType): string
  {
    match t
    case Inherit => "inherit"
    case ShowErrors => "show-errors"
    case CancelSilently => "cancel-silently"
    case Value => "value"
    case FromKeyring => "from-keyring"
  }

  /** Position of a type in the option record's declaration order. */
  function Rank(t: DefaultValueType): nat
  {
    match t
    case Inherit => 0
    case ShowErrors => 1
    case CancelSilently => 2
    case Value => 3
    case FromKeyring => 4
  }

  /** The label the option record is declared with; the `Inherit` entry starts empty. */
  function TypeLabel(t: DefaultValueType): string
  {
    match t
    case Inherit => ""
    case ShowErrors => "Cancel execution and show errors"
    case CancelSilently => "Cancel execution silently"
    case Value => "Execute with value:"
    case FromKeyring => "Execute with value from Keyring"
  }

  /** Looks a type up in the option record as first declared: the keyring
      entry is only spread into the record when the keyring is available. */
  function OptionLabel(t: DefaultValueType, keyring: bool): Option<string>
  {
    if t == FromKeyring && !keyring then None else Some(TypeLabel(t))
  }

  /**
    Whether the keyring policy may be offered: the host API is at least
    1.11.4 and the host's secret storage exposes a `getSecret` function.
   */
  function HasSecretStorage(apiVersionAtLeast: bool, getSecretIsFunction: bool): bool
  {
    apiVersionAtLeast && getSecretIsFunction
  }

  /**
    The types the dropdown offers, in order: the option record lists
    `inherit`, `show-errors`, `cancel-silently`, `value` and, with the
    keyring, `from-keyring`; for a variable scope the `inherit` entry is
    then deleted.
   */
  function OfferedTypes(scope: Scope, keyring: bool): (r: seq<DefaultValueType>)
    ensures forall t :: t in r <==> IsOffered(scope, keyring, t)
    ensures forall i, j :: 0 <= i < j < |r| ==> Rank(r[i]) < Rank(r[j])
    ensures 0 < |r| && (r[0] == Inherit <==> scope.ShellCommand?)
    ensures ShowErrors in r && CancelSilently in r && Value in r
  {
    var declared := [Inherit, ShowErrors, CancelSilently, Value] + (if keyring then [FromKeyring] else []);
    assert declared[1..] == [ShowErrors, CancelSilently, Value] + (if keyring then [FromKeyring] else []);
    if scope.ShellCommand? then declared else declared[1..]
  }

  /** Every inherit label but the keyring one starts with this. */
  const InheritPrefix := "Inherit: "

  /**
    The label of a shell command's "inherit" option, derived from the
    variable's global configuration (absent means `show-errors`): the global
    type's label, followed by the literal for `value`; exactly
    "Inherit: From Keyring" for `from-keyring`.
   */
  function InheritLabel(global: Option<Config>, keyring: bool): (r: string)
    ensures global.None? ==> r == InheritPrefix + TypeLabel(ShowErrors)
    ensures global.Some? && global.value.kind in {Inherit, ShowErrors, CancelSilently} ==>
      r == InheritPrefix + TypeLabel(global.value.kind)
    ensures global.Some? && global.value.kind == Value ==>
      r == InheritPrefix + TypeLabel(Value) + " " + global.value.value
    ensures global.Some? && global.value.kind == FromKeyring ==> r == "Inherit: From Keyring"
  {
    var globalType := if global.Some? then global.value.kind else ShowErrors;
    var described := InheritPrefix + OptionLabel(globalType, keyring).GetOr(TypeName(globalType));
    if globalType == Value then
      described + " " + global.value.value
    else if globalType == FromKeyring then
      "Inherit: From Keyring"
    else
      described
  }

  /**
    The type selected when the field opens: the stored type, or the scope's
    implicit default when nothing is stored; a stored `from-keyring` is shown
    as the implicit default while the keyring is unavailable.
   */
  function InitialSelection(scope: Scope, stored: Option<Config>, keyring: bool): (r: DefaultValueType)
    ensures stored.None? ==> r == ImplicitDefault(scope)
    ensures stored.Some? && (stored.value.kind != FromKeyring || keyring) ==> r == stored.value.kind
    ensures stored.Some? && stored.value.kind == FromKeyring && !keyring ==> r == ImplicitDefault(scope)
    ensures (stored.None? || AllowedInScope(scope, stored.value.kind)) ==> r in OfferedTypes(scope, keyring)
  {
    var raw := if stored.Some? then stored.value.kind else if scope.ShellCommand? then Inherit else ShowErrors;
    var fallback := if scope.ShellCommand? then Inherit else ShowErrors;
    if raw == FromKeyring && !keyring then fallback else raw
  }
}
