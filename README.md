# Component configuration store of Util.Ui, in Dafny

This project models the configuration layer that every Util.Ui component builds on:

- `Config`: one component's configuration. It holds two attribute lists: `Attributes`, the component's own, and `OtherAttributes`, free-form attributes passed through to the output. It also holds a de-duplicated CSS class list kept in insertion order, and scalar fields (`Name`, `Value`, `Type`, `Placeholder`, `Required`, `RequiredMessage`, `MinLength`, `MinLengthMessage`, `Model`).
- The fluent extension methods (`Attribute`, `Class`, `Style`, `Id`, `Name`, `Text`, `Placeholder`, `Value`, `Disable`, and the icon setters `FontAwesome`, `Material`, `Size`, `Spin`, `Rotate`, `Child`). Each one runs one closure against a component's configuration.
- `OptionBase`: the component base. It creates its configuration lazily on first use, reuses it afterwards, and runs every configuration action through its single `Config` entry point. That entry point rejects a null action.

Layout, one module per file:

- `nullable.dfy` (`Nullable`): `Option`, where `None` stands for a C# null.
- `attribute_lists.dfy` (`AttributeLists`): the host framework's tag-helper attribute list, a library type that is not part of this model. It is modelled as a sequence of `Attribute(name, value)` with the behaviour the configuration relies on:
  - `Add` appends, even when the name is already present.
  - `SetAttribute` replaces the first entry with the name and drops the later ones. When there is none, it appends. `SetAttributeInPlace` and `SetAttributeAbsent` state these two cases.
  - `RemoveAll` drops every entry with the name.
  - `ContainsName` and the indexer `Lookup` find the first match.
  - `Named(s, n)` is the sub-list of entries named `n`. The lemmas state each operation's effect through it.
- `ui_const.dfy` (`UiConst`, `Enums`): the attribute keys, and the enumerations the icon setters take.
- `config.dfy` (`Configs`): the class list rules, the state value `ConfigState`, and `class Config`.
- `config_actions.dfy` (`ConfigActions`): one `ConfigAction` per extension closure, plus two members for it:
  - `Step`, the specification of what an action does to a `ConfigState`.
  - `Run`, the closure body performed on a live `Config` and proved to agree with `Step`.
  - The lemmas beside them state each extension's promised effect.
- `option_base.dfy` (`Components`): `class OptionBase`, with its lazy `config` field, `GetConfig`, `OptionConfig` and `Config`.
- `extensions.dfy` (`Extensions`): the fluent methods. Each hands its action to `OptionBase.Config` and returns the component.

Design points:

- The attribute lists are not name-unique. `Id` and `Disable(true)` append with `Add`, so repeated calls leave repeated entries. `Text` and the icon setters replace with `SetAttribute`.
- Attribute names are matched ignoring case, as the attribute list does. Class tokens are matched exactly.

## Model

| member | source | states |
|---|---|---|
| AttributeLists.ContainsName | src/Util.Ui.Core/Configs/Config.cs:99 | `ContainsName(s, n)` holds exactly when some entry's name equals `n` up to case |
| AttributeLists.Lookup | src/Util.Ui.Core/Configs/Config.cs:107 | the indexer yields null exactly when the name is absent; otherwise it yields an entry of the list carrying that name |
| AttributeLists.LookupIsFirstNamed | src/Util.Ui.Core/Configs/Config.cs:107 | the indexer yields the first of the entries that carry the name |
| AttributeLists.NamedMembers | src/Util.Ui.Core/Configs/Config.cs:99 | the entries named `n` are exactly the list's entries whose name equals `n` up to case |
| AttributeLists.RemoveAll | src/Util.Ui.Core/Configs/Config.cs:133 | the result keeps exactly the entries whose name differs from `n`, so `n` is no longer contained, and it is never longer than the input |
| AttributeLists.Add | src/Util.Ui.Core/Extensions/Extensions.Component.cs:22 | the result is the old list followed by exactly one more entry, the new attribute |
| AttributeLists.SetAttribute | src/Util.Ui.Core/Configs/Config.cs:125 | the result holds at least one entry and at most one more than the input |
| AttributeLists.SetAttributeAbsent | src/Util.Ui.Core/Configs/Config.cs:125 | setting a name the list does not hold appends the attribute at the end |
| AttributeLists.SetAttributeInPlace | src/Util.Ui.Core/Configs/Config.cs:125 | when position `k` holds the first entry with the name, the attribute takes position `k`, the entries before it stay, and later entries with the name are dropped |
| AttributeLists.RemoveAllKeepsOthers | src/Util.Ui.Core/Configs/Config.cs:132-134 | removing `n` leaves the entries of every other name as they were, in order |
| AttributeLists.RemoveAllAbsent | src/Util.Ui.Core/Configs/Config.cs:132-134 | removing a name that is absent changes nothing |
| AttributeLists.SetAttributeNamed | src/Util.Ui.Core/Configs/Config.cs:124-126 | after setting attribute `a`, `a` is the one and only entry with its name |
| AttributeLists.SetAttributeKeepsOthers | src/Util.Ui.Core/Configs/Config.cs:124-126 | setting an attribute leaves the entries of every other name as they were |
| AttributeLists.SetAttributeRemoveAll | src/Util.Ui.Core/Configs/Config.cs:124-126 | apart from the entries with the set name, the list is unchanged, in order |
| AttributeLists.SetAttributeTwice | src/Util.Ui.Core/Configs/Config.cs:124-126 | setting the same name twice equals setting it once to the latest value |
| AttributeLists.AddNamed | src/Util.Ui.Core/Extensions/Extensions.Component.cs:78 | `Add` gives the name one more entry, at the end of its entries: duplicates accumulate |
| AttributeLists.AddKeepsOthers | src/Util.Ui.Core/Extensions/Extensions.Component.cs:78 | `Add` leaves the entries of every other name as they were |
| UiConst.IconKeysDistinct | src/Util.Ui.Core/Extensions/Extensions.Component.Icon.cs:21-35 | the keys written by the icon setters name different attributes, even ignoring case |
| Configs.WithClass | src/Util.Ui.Core/Configs/Config.cs:139-145 | adding a class token keeps earlier tokens in order and adds at most one at the end; the tokens afterwards are the old ones plus the argument if it is not blank; a null or blank token, or one already present, changes nothing; a list without duplicates or blank tokens stays so |
| Configs.IsNullOrWhiteSpace | src/Util.Ui.Core/Configs/Config.cs:140 | null and the empty string count as blank; a blank string holds only white space; a string holding any other character is not blank |
| Configs.WithClassIdempotent | src/Util.Ui.Core/Configs/Config.cs:142-143 | adding the same token twice equals adding it once |
| Configs.Config.constructor | src/Util.Ui.Core/Configs/Config.cs:18-19 | a new configuration has empty `Attributes`, `OtherAttributes` and class list, and every scalar field at its default |
| Configs.Config.WithLists | src/Util.Ui.Core/Configs/Config.cs:27-32 | a configuration over given attribute lists starts with an empty class list and default scalars |
| Configs.Config.Contains | src/Util.Ui.Core/Configs/Config.cs:98-100 | true exactly when the component's own attributes, and not the pass-through ones, hold an entry with the name |
| Configs.ValueOf | src/Util.Ui.Core/Configs/Config.cs:106-108 | the empty string when the name is absent; otherwise the string form of the first matching entry's value |
| Configs.Config.GetValue | src/Util.Ui.Core/Configs/Config.cs:106-108 | reads `ValueOf` over the component's own attributes, never the pass-through ones, and never fails |
| Configs.Config.SetAttribute | src/Util.Ui.Core/Configs/Config.cs:124-126 | the attributes become the old list with `n` set to the new value, `Contains(n)` holds afterwards, and no other field changes |
| Configs.SetThenGet | src/Util.Ui.Core/Configs/Config.cs:106-126 | after setting `n` to `v`, exactly one entry is named `n` and reading `n` yields the string form of `v` |
| Configs.Config.Remove | src/Util.Ui.Core/Configs/Config.cs:132-134 | afterwards `Contains(n)` is false; an absent name leaves the list unchanged; other names and all other fields are unchanged |
| Configs.Config.AddClass | src/Util.Ui.Core/Configs/Config.cs:139-145 | the class list becomes `WithClass` of the old one, keeps holding no duplicate or blank token, and nothing else changes |
| Configs.Config.GetClassList | src/Util.Ui.Core/Configs/Config.cs:150-152 | yields the current class list in insertion order, which holds no duplicate or blank token |
| ConfigActions.Run | src/Util.Ui.Core/Extensions/Extensions.Component.cs:19-154 | running an extension's closure on a live configuration changes its state exactly as `Step` says and keeps the class-list invariant |
| ConfigActions.Step | src/Util.Ui.Core/Extensions/Extensions.Component.cs:19-154 | only the class action changes the class list, and every action keeps a list without duplicate or blank tokens so |
| ConfigActions.RunIcon | src/Util.Ui.Core/Extensions/Extensions.Component.Icon.cs:18-97 | running an icon extension's closure changes the state exactly as `Step` says and keeps the class-list invariant |
| ConfigActions.RunChild | src/Util.Ui.Core/Extensions/Extensions.Component.Icon.cs:89-97 | the child-icon closure sets the child, then the child class only when it is not blank, as `Step` says |
| ConfigActions.AttributeAppends | src/Util.Ui.Core/Extensions/Extensions.Component.cs:19-25 | `Attribute(name, value)` appends one pass-through entry, so repeated calls accumulate, and leaves `Attributes` and the class list unchanged |
| ConfigActions.ValuelessAttributeAppends | src/Util.Ui.Core/Extensions/Extensions.Component.cs:33-39 | `Attribute(value)` appends a value-less pass-through entry named `value`, leaving `Attributes` and the class list unchanged |
| ConfigActions.ClassIdempotent | src/Util.Ui.Core/Extensions/Extensions.Component.cs:47-53 | `Class(c)` is `AddClass(c)`, and calling it twice with one token equals calling it once |
| ConfigActions.StyleAppends | src/Util.Ui.Core/Extensions/Extensions.Component.cs:61-67 | `Style(s)` appends a style entry to the pass-through attributes and leaves `Attributes` unchanged |
| ConfigActions.IdTwiceAccumulates | src/Util.Ui.Core/Extensions/Extensions.Component.cs:75-81 | two `Id` calls leave two more id entries in `Attributes`, in call order |
| ConfigActions.NameLastWins | src/Util.Ui.Core/Extensions/Extensions.Component.cs:89-95 | after two `Name` calls the name field holds the latest value and nothing else has changed |
| ConfigActions.TextLastWins | src/Util.Ui.Core/Extensions/Extensions.Component.cs:103-109 | after two `Text` calls exactly one text entry remains, holding the latest value; the other entries are unchanged; the state equals that of the second call alone |
| ConfigActions.PlaceholderLastWins | src/Util.Ui.Core/Extensions/Extensions.Component.cs:117-123 | after two `Placeholder` calls the field holds the latest value and nothing else has changed |
| ConfigActions.ValueLastWins | src/Util.Ui.Core/Extensions/Extensions.Component.cs:131-137 | after two `Value` calls the field holds the latest value and nothing else has changed |
| ConfigActions.DisableEffect | src/Util.Ui.Core/Extensions/Extensions.Component.cs:145-154 | `Disable(true)` appends `disabled="disabled"`; `Disable(false)` leaves no disabled entry, is a no-op when there was none, and keeps other names' entries |
| ConfigActions.FontAwesomeReplaces | src/Util.Ui.Core/Extensions/Extensions.Component.Icon.cs:18-24 | `FontAwesome(icon)` leaves one Font Awesome entry, holding the icon's name; every other entry is kept in order |
| ConfigActions.MaterialReplaces | src/Util.Ui.Core/Extensions/Extensions.Component.Icon.cs:32-38 | `Material(icon)` leaves one Material entry, holding the icon's name; every other entry is kept in order |
| ConfigActions.FontAwesomeAndMaterialCoexist | src/Util.Ui.Core/Extensions/Extensions.Component.Icon.cs:18-38 | after `FontAwesome` then `Material`, both icons are present, each under its own key |
| ConfigActions.FontAwesomeAndMaterialIndependent | src/Util.Ui.Core/Extensions/Extensions.Component.Icon.cs:18-38 | setting the Material icon leaves the Font Awesome entries as they were, and the reverse |
| ConfigActions.SizeLastWins | src/Util.Ui.Core/Extensions/Extensions.Component.Icon.cs:46-52 | repeated `Size` calls equal the last one alone, which leaves one size entry holding its token |
| ConfigActions.SpinFalseIsWritten | src/Util.Ui.Core/Extensions/Extensions.Component.Icon.cs:60-66 | `Spin(false)` writes the spin attribute with the value `false` rather than removing it |
| ConfigActions.RotateLastWins | src/Util.Ui.Core/Extensions/Extensions.Component.Icon.cs:74-80 | repeated `Rotate` calls equal the last one alone, which leaves one rotate entry holding its token |
| ConfigActions.ChildEffect | src/Util.Ui.Core/Extensions/Extensions.Component.Icon.cs:89-97 | `Child` always leaves one child entry holding the icon; the child class is set only for a non-blank class, and a blank one leaves earlier child-class entries untouched |
| ConfigActions.IconSettersTouchOnlyAttributes | src/Util.Ui.Core/Extensions/Extensions.Component.Icon.cs:18-97 | the icon setters change neither the pass-through attributes nor the class list nor any scalar field |
| Components.OptionBase.GetConfig | src/Util.Ui.Core/Components/OptionBase.cs:30-32 | the default factory yields a fresh, empty configuration |
| Components.OptionBase.OptionConfig | src/Util.Ui.Core/Components/OptionBase.cs:25 | the first access creates the configuration with `GetConfig` and stores it; every later access yields that same object, unchanged |
| Components.OptionBase.Config | src/Util.Ui.Core/Components/OptionBase.cs:39-44 | a null action fails with an argument-null outcome naming `configAction`, before any configuration is created or touched; otherwise the action is applied exactly once to the one shared configuration |
| Components.ConfigTwice | src/Util.Ui.Core/Components/OptionBase.cs:42-43 | two successive `Config` calls act on the same configuration and their effects compose in call order |
| Extensions.Attribute | src/Util.Ui.Core/Extensions/Extensions.Component.cs:19-25 | returns the component after applying `AddAttribute(name, value)` once to its shared configuration |
| Extensions.ValuelessAttribute | src/Util.Ui.Core/Extensions/Extensions.Component.cs:33-39 | returns the component after applying `AddValuelessAttribute(value)` once |
| Extensions.Class | src/Util.Ui.Core/Extensions/Extensions.Component.cs:47-53 | returns the component after applying `AddCssClass(class)` once |
| Extensions.Style | src/Util.Ui.Core/Extensions/Extensions.Component.cs:61-67 | returns the component after applying `AddStyle(style)` once |
| Extensions.Id | src/Util.Ui.Core/Extensions/Extensions.Component.cs:75-81 | returns the component after applying `AddId(id)` once |
| Extensions.Name | src/Util.Ui.Core/Extensions/Extensions.Component.cs:89-95 | returns the component after applying `SetName(name)` once |
| Extensions.Text | src/Util.Ui.Core/Extensions/Extensions.Component.cs:103-109 | returns the component after applying `SetText(text)` once |
| Extensions.Placeholder | src/Util.Ui.Core/Extensions/Extensions.Component.cs:117-123 | returns the component after applying `SetPlaceholder(text)` once |
| Extensions.Value | src/Util.Ui.Core/Extensions/Extensions.Component.cs:131-137 | returns the component after applying `SetValue(value)` once |
| Extensions.Disable | src/Util.Ui.Core/Extensions/Extensions.Component.cs:145-154 | returns the component after applying `SetDisabled(disabled)` once; `disabled` defaults to true |
| Extensions.FontAwesome | src/Util.Ui.Core/Extensions/Extensions.Component.Icon.cs:18-24 | returns the component after applying `SetFontAwesome(icon)` once |
| Extensions.Material | src/Util.Ui.Core/Extensions/Extensions.Component.Icon.cs:32-38 | returns the component after applying `SetMaterial(icon)` once |
| Extensions.Size | src/Util.Ui.Core/Extensions/Extensions.Component.Icon.cs:46-52 | returns the component after applying `SetSize(size)` once |
| Extensions.Spin | src/Util.Ui.Core/Extensions/Extensions.Component.Icon.cs:60-66 | returns the component after applying `SetSpin(isSpin)` once; `isSpin` defaults to true |
| Extensions.Rotate | src/Util.Ui.Core/Extensions/Extensions.Component.Icon.cs:74-80 | returns the component after applying `SetRotate(type)` once |
| Extensions.Child | src/Util.Ui.Core/Extensions/Extensions.Component.Icon.cs:89-97 | returns the component after applying `SetChild(childIcon, class)` once; the class defaults to null |

## Left out

- Name matching: the attribute list compares names ignoring case. The model folds ASCII letters only, so the Unicode case mappings beyond ASCII are not modelled.
- Attribute list sharing: `Config`'s attribute lists are value fields. Sharing a list object between two configurations, or between `Attributes` and `OtherAttributes` through the three-argument constructor, is not modelled. Neither is a caller changing a list after handing it over.
- The live class list: `GetClassList` returns the list object itself, so a caller could change it and bypass `AddClass`. The model returns its current contents.
- Null names: the attribute type rejects a null name with an exception. Attribute names are non-null strings here, so `Attribute(value)` with a null `value` is not modelled.
- Configs.ValueOf: like `GetValue`, it reads a stored value through the stand-in for `SafeString` described on the next line.
- Configs.Config.GetValue: the value-to-string helper `SafeString` is not part of this model. Null reads as "", a string as itself and a boolean as `True`/`False`. Any further normalisation the helper applies, such as trimming, is not modelled.
- `GetValue<T>`: left out, because it delegates to a conversion helper that is not part of this model.
- `Content`: left out, because it is opaque host content with no logic.
- Logging: `WriteLog`/`GetLog` and the tag-helper base are tracing and host I/O, and are left out.
- Components.OptionBase.GetConfig: models only the default factory. Subclasses may override it; those overrides are not part of this model.
- The `(TConfig)` downcast in `OptionBase.Config` and the `component as IOptionConfig` test in the extensions are runtime type checks. Every component is taken as configurable with a `Config`, and the closures are a closed set of actions, one per extension method.
- UiConst.IconKeysDistinct: it holds because the stand-in keys were chosen to differ. It records the modelling assumption that the real keys are pairwise different ignoring case. It is not a fact proved about the program.
- `UiConst` is not part of this model. Its keys are stand-in strings, and the proofs rely only on them being pairwise different ignoring case. The enumerations are known only by the member names their `ToString()` yields.
- `MinLength` is a 32-bit field in the source. No operation computes with it, so it is an unbounded `int` here.
- The icon renderer, the tag helpers and the expected HTML in the icon tests are not part of this model.
