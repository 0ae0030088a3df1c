# Default value configuration of a variable, in Dafny

This project models the logic behind the "If not available, then:" setting of the
Shell commands plugin for Obsidian. A variable whose value can be missing at
execution time carries a policy for that case:

- `show-errors`: cancel and show errors;
- `cancel-silently`: cancel silently;
- `value`: execute with a literal;
- `from-keyring`: execute with a secret from the host's keyring.

The policy is stored in one of three places:

- a shell command's `variable_default_values` map. Only this place may say `inherit`.
- a custom variable's own configuration.
- the built-in variables' `builtin_variables` map.

The settings field that edits one policy is modelled without its widgets. It has four parts:

- **Opening.** The field resolves its target. A variable target must be the variable itself.
  It reads the stored record and decides whether the keyring may be offered. It lists the
  offered types, labels the "Inherit: …" option from the variable's global record, and picks
  the initially selected type.
- **Dropdown edit.** Changes the type, with two rules. Going from `from-keyring` to `value`
  clears the value. Returning to the scope's implicit default with an empty value cleans the
  slot up.
- **Text area edit.** Changes the value only.
- **Keyring secret edit.** Sets the type to `from-keyring` and the value to the secret id.

The first edit of a field with no stored record creates `{show-errors, ""}` in its slot. For
a built-in variable it first creates the `{default_value: null}` record if the variable has
none; an existing record is reused.

A session of edits is limited to what the controls can produce. The dropdown emits only
offered types. The text area is shown only while the field's type is `value`. The secret
picker is shown only while it is `from-keyring` and the keyring is available
(`DefaultValueField.Producible`).

The field keeps a handle on the record it edits. The model state is therefore
`FieldState(settings, handle, attached)`. Cleanup takes the record out of the settings, but
the handle still holds it. Every later edit of the same field changes the detached record
and is never stored again (`FieldProperties.EditsAfterCleanupAreLost`). The model keeps this
behaviour of the code as written. It differs from a reading in which a field can move from
any state to any other.

Modules:

- `Wrappers` (`wrappers.dfy`): `Option` and `Result`.
- `DefaultValues` (`default_values.dfy`): the types, the record, the scopes, the offered
  types, the labels and the initial selection.
- `SettingsStore` (`settings_store.dfy`): the settings tree and the slot operations: read,
  store and clean up. Also `OnlySlotChanged`, the frame predicate saying nothing outside
  one slot changed.
- `DefaultValueField` (`default_value_field.dfy`): opening a field, the three edits, and
  `Run` over a whole session of edits.
- `FieldProperties` (`field_properties.dfy`): session lemmas and worked scenarios.

`Coherent(ctx, st)` is the state invariant. An attached handle is exactly what the slot
stores; otherwise the slot is empty. A built-in variable whose field holds a record has a
record in `builtin_variables`. `OpenField` establishes it and every edit preserves it, so
the edits take it as a precondition.

## Model

| member | source | states |
|---|---|---|
| DefaultValueField.OpenField | src/settings/setting_elements/createVariableDefaultValueFields.ts:86-152 | Fails with `InvalidScopeTarget` exactly when the target is a variable other than `variable`, with no state produced. Otherwise the scope follows the target, the settings are unchanged, the state is coherent and not detached, and the keyring gate is the conjunction of the version check and `getSecret` being a function. The options follow the offered types, a selected `from-keyring` implies the keyring, and the selection is offered whenever the stored type is allowed in the scope. The selection is the one `InitialSelection` gives for the stored record, and the options are those `Options` builds from the variable's global record. |
| DefaultValues.OfferedTypes | src/settings/setting_elements/createVariableDefaultValueFields.ts:168-195 | A type is offered iff `IsOffered`: `inherit` only for a shell command, `from-keyring` only with the keyring, the other three always. The order is strictly increasing in declaration order, and the first entry is `inherit` iff the scope is a shell command. |
| DefaultValues.InheritLabel | src/settings/setting_elements/createVariableDefaultValueFields.ts:179-186 | The inherit label for each global record. No record gives the `show-errors` label after "Inherit: ". `value` gives the value label, a space and the literal. `from-keyring` gives exactly "Inherit: From Keyring". Any other type gives its own label after "Inherit: ". |
| DefaultValues.InitialSelection | src/settings/setting_elements/createVariableDefaultValueFields.ts:205-210 | With nothing stored, the selection is the scope's implicit default. A stored type is selected unless it is `from-keyring` without the keyring, which shows the implicit default. The selection is always an offered type when the stored type is allowed in the scope. |
| DefaultValueField.Options | src/settings/setting_elements/createVariableDefaultValueFields.ts:169-195 | One option per offered type, in order. The `inherit` option carries the inherit label; every other option carries the label it is declared with. |
| SettingsStore.Put | src/settings/setting_elements/createVariableDefaultValueFields.ts:127-142 | After storing, the slot reads back the stored record. A built-in variable's record exists afterwards, and nothing outside the slot changes. |
| SettingsStore.Clear | src/settings/setting_elements/createVariableDefaultValueFields.ts:224-245 | After cleanup the slot reads as empty. The built-in record survives, nothing outside the slot changes, and an empty slot leaves the settings identical. |
| SettingsStore.OtherSlotsUnchanged | src/settings/setting_elements/createVariableDefaultValueFields.ts:128-142 | When only one slot changed, every other (scope, variable) pair reads the same. |
| DefaultValueField.EnsureHandle | src/settings/setting_elements/createVariableDefaultValueFields.ts:121-144 | A field without a record creates `{show-errors, ""}`, stores it in its slot and holds it attached. A field with a record is left as it is. Nothing outside the slot changes. |
| DefaultValueField.ChangeType | src/settings/setting_elements/createVariableDefaultValueFields.ts:212-245 | The record gets the new type. The value is cleared only from `from-keyring` to `value`, and kept otherwise. The slot is cleaned up and the record detached iff the new type is the implicit default and the value is empty; otherwise an attached record stays stored. A detached record never reaches the settings. A no-op record `{implicit default, ""}` is never left stored. The state stays coherent. |
| DefaultValueField.ChangeValue | src/settings/setting_elements/createVariableDefaultValueFields.ts:264-270 | Only the value changes, and the type is kept. The slot stores the record unless it was detached, so a text edit never deletes. |
| DefaultValueField.ChangeKeyringValue | src/settings/setting_elements/createVariableDefaultValueFields.ts:298-303 | Only with the keyring. The record becomes `{from-keyring, key}` and the slot stores it unless the record was detached. |
| DefaultValueField.Run | src/settings/setting_elements/createVariableDefaultValueFields.ts:155-303 | Over any session of edits the controls can produce (text only while the type is `value`, secrets only while it is `from-keyring` with the keyring), the state stays coherent and nothing outside the slot changes. A detached field never changes the settings again. `inherit` never enters a variable's own configuration. Without the keyring no `from-keyring` record appears. After at least one edit the slot never holds a no-op record `{implicit default, ""}`, and a session never introduces one. |
| FieldProperties.TextEditsKeepRecordStored | src/settings/setting_elements/createVariableDefaultValueFields.ts:264-270 | After a session of text edits on a field that is not detached, the record is stored and attached, keeps its starting type, and holds the last text. |
| FieldProperties.SessionTouchesOnlyItsSlot | src/settings/setting_elements/createVariableDefaultValueFields.ts:121-144 | After any session, every other variable's and target's configuration reads as before. |
| FieldProperties.EditsAfterCleanupAreLost | src/settings/setting_elements/createVariableDefaultValueFields.ts:213-245 | Choosing the implicit default with an empty value empties the slot. Any later session on the same field leaves the settings identical. |
| FieldProperties.BuiltinValueScenario | src/settings/setting_elements/createVariableDefaultValueFields.ts:212-270 | Built-in variable, nothing stored. Choosing `value` stores `{value, ""}`. Typing "/tmp" stores `{value, "/tmp"}`. Going back to `show-errors` keeps `{show-errors, "/tmp"}` stored. |
| FieldProperties.KeyringScenario | src/settings/setting_elements/createVariableDefaultValueFields.ts:298-303 | With the keyring, a picked secret "db-pass" is stored as `{from-keyring, "db-pass"}`. Reopened without the keyring, the field hides `from-keyring`, selects `show-errors`, and leaves the stored record unchanged. |
| FieldProperties.InheritLabelScenario | src/settings/setting_elements/createVariableDefaultValueFields.ts:176-187 | Shell command with no override, where the variable's global record is `{value, "X"}`. The field selects `inherit`, and its first option reads "Inherit: Execute with value: X". |
| FieldProperties.HiddenTextAreaScenario | src/settings/setting_elements/createVariableDefaultValueFields.ts:155-165 | Shell command, nothing stored. Choosing `value`, typing "a" and choosing `inherit` keeps `{inherit, "a"}` stored. Emptying the text area afterwards is not a producible edit, because the text area is hidden. |
| FieldProperties.ForeignTargetScenario | src/settings/setting_elements/createVariableDefaultValueFields.ts:99-103 | Opening a custom variable's field on another variable's configuration fails with `InvalidScopeTarget`. |

## Left out

- Widget construction: the `Setting`, dropdown, text area and secret component, CSS visibility
  toggling (`updateTextareaComponentVisibility`, and the `initialType` computed for it at
  line 313), focusing the text area, and autocomplete. All of these are display concerns.
- The initial contents of the text area (line 263) and of the secret component (line 295).
  They are display values and change no state.
- The loop over the plugin's variables and the documentation buttons (lines 40-66). This is
  widget wiring over the plugin's variable list.
- `isApiVersionAtLeast` and `apiVersion` live in files that are not part of this model. The
  keyring gate takes the version check and the `getSecret` probe as two booleans.
- `plugin.saveSettings()`, the `onChange` hook and the keyring backend are external
  asynchronous calls. Saving is a no-op in the model, and each edit is one atomic transition.
- `TShellCommand`, `Variable` and `CustomVariable` are not part of this model. The model
  assumes the following reads:
  - a shell command's configuration for a variable is its `variable_default_values` entry;
  - a custom variable's global configuration is its own `default_value`;
  - a built-in variable's global configuration is the `default_value` of its
    `builtin_variables` record, or null when there is no record.
- Object identity in the target check (`targetObject !== variable`) is modelled as equality
  of a variable's kind and identifier.
- DefaultValueField.ChangeKeyringValue: requires only the keyring gate. The code also needs
  the host to export a secret component class before the handler exists at all (lines
  293-294).
- DefaultValueField.ChangeType: requires a coherent state. In a coherent state the built-in
  record always exists, so the code's failure on writing null into a missing built-in
  record (line 238) cannot happen and is not modelled. It also requires the new type to be
  offered, because the dropdown only emits its own options.
- DefaultValueField.ChangeValue: requires a coherent state, like every edit. `OpenField`
  establishes it and every edit preserves it.
- DefaultValueField.Run: requires a coherent state, and only edits the field's controls can
  produce. Text area visibility is taken from the working record's type. This agrees with the
  code's visibility calls at lines 248 and 314. When no record exists, the type line 313
  passes is `show-errors` or `inherit`, and both hide the text area and the secret picker.
- Stored type strings outside the five known types cannot be represented. A stored `inherit`
  in a variable's own configuration can be represented and is labelled as the code does.
