# schema_builder_demo in Dafny

A model of the core of a JSON Schema builder. The builder takes a JSON Schema,
expands its local `$ref`s against `definitions`, generates a UI schema (widgets,
titles, help texts, placeholders, field order, nested item and property
schemas), merges it over a UI schema that was imported with the schema, and
lets the user edit widgets node by node, reorder entries by drag and drop, and
export the pair. Before rendering the form, the editor's bookkeeping is cleaned
out of the UI schema, and the path of the field being edited is mapped to the
DOM id the editor scrolls to.

JSON values are the datatype `Json.Json` (`undefined`, `null`, booleans,
integral numbers, strings, arrays, objects as ordered entry lists). JavaScript
semantics the code relies on are written out: truthiness, `||`, reading a
member of `undefined`/`null` (a `TypeError`), property assignment on primitives,
the `JSON.parse(JSON.stringify(x))` deep copy, `Number` conversion of
integer numerals, the spread of an object literal, string splitting and
trimming. Deep recursion that would overflow the engine's stack is bounded by a
fuel parameter and reported as `RangeError`.

Module layout, following the source:

- `Wrappers`, `Strings`, `Json`: shared values, string helpers, JSON values and
  object operations.
- `FieldType`, `Cleaner`, `Generator`, `GeneratorImpl`, `GeneratorNodes`,
  `GeneratorProps`, `GeneratorShape`, `Merge`, `Canonical`, `ResolveSchema`,
  `ResolveRefs`: `src/utils/uiSchemaHelpers.ts`. The generator is imperative in
  the source (a UI node is built by successive writes), so `GeneratorImpl.UiNode`
  is a class whose methods are proved against the specification functions of
  `Generator`; the facts about the generated tree are in `GeneratorNodes`,
  `GeneratorProps` and `GeneratorShape`. `resolveRefs` overwrites the members
  of the object it walks in place (only a `$ref` target is deep-copied), so
  `ResolveRefs.ResolveRefsMethod` is a method proved against the function
  `ResolveRefs.Resolve`.
- `PathHelpers`: `src/utils/pathHelpers.ts`.
- `PathSetter`, `SchemaEditor`: `src/components/UISchemaEditorForm.tsx` (the
  widget editor, a class `SchemaEditor.Editor` holding the component state).
- `SortableList`: `src/components/SortableList.tsx` (the reorder, done in place
  on an array).
- `ScrollToField`: `src/components/useScrollToField.tsx`.
- `SchemaBuilder`: `src/components/SchemaBuilder.tsx` (the builder's state as a
  class `SchemaBuilder.Builder`, the import pipeline and the export).

## Model

| member | source | states |
|---|---|---|
| FieldType.EffectiveType | src/utils/uiSchemaHelpers.ts:7-9 | for a `type` list the type is its first non-"null" string, otherwise `type` itself |
| FieldType.DetermineFieldType | src/utils/uiSchemaHelpers.ts:1-22 | throws exactly for `undefined`/`null`; otherwise the class is a keyword name or the effective type itself |
| FieldType.Precedence | src/utils/uiSchemaHelpers.ts:2-5 | anyOf, allOf, oneOf and enum win over `type`, in that order |
| FieldType.ByType | src/utils/uiSchemaHelpers.ts:7-21 | without keywords: integer/number give "number", boolean "bool", string "string", another truthy type is returned, a falsy one gives "unknown" |
| FieldType.NullableType | src/utils/uiSchemaHelpers.ts:7-9 | a nullable `[T, "null"]` or `["null", T]` type is classified as T |
| Cleaner.Clean | src/utils/uiSchemaHelpers.ts:25-48 | cleaning keeps the kind of value: arrays stay arrays, objects stay objects, `undefined` stays `undefined` |
| Cleaner.CleanElems | src/utils/uiSchemaHelpers.ts:26-27 | the cleaned array is never longer than the original |
| Cleaner.CleanFields | src/utils/uiSchemaHelpers.ts:28-45 | the cleaned object has distinct keys, no `ui:fieldType`, and no empty, false, "off" or "false" value, nor an empty object |
| Cleaner.CleanFieldsLookup | src/utils/uiSchemaHelpers.ts:30-44 | a key survives exactly when it is not `ui:fieldType`, was present, and its cleaned value is not dropped; it then holds its cleaned value |
| Cleaner.CleanIsClean | src/utils/uiSchemaHelpers.ts:25-48 | the result has nothing left to remove at any depth and has distinct keys |
| Cleaner.CleanOfClean | src/utils/uiSchemaHelpers.ts:25-48 | a clean tree is its own cleaning |
| Cleaner.Idempotent | src/utils/uiSchemaHelpers.ts:25-48 | cleaning twice equals cleaning once |
| PathHelpers.GetNodeByPath | src/utils/pathHelpers.ts:1-2 | the empty path gives the tree itself |
| PathHelpers.NeverThrows | src/utils/pathHelpers.ts:1-2 | the guarded reduce never throws, whatever the tree and path, and yields the lookup |
| PathHelpers.SnocPath | src/utils/pathHelpers.ts:2 | one more segment reads one more property of a truthy node and gives `undefined` after a falsy one |
| PathHelpers.FalsyStops | src/utils/pathHelpers.ts:2 | once a node on the way is falsy, any longer path gives `undefined` |
| PathHelpers.ConsPath | src/utils/pathHelpers.ts:1-2 | the path can be read from the front: first segment, then the rest from the node it reaches |
| Generator.DefaultOptions | src/utils/uiSchemaHelpers.ts:70-81 | the options are an object; every option the caller does not give takes the built-in default (wrapper on, text/updown/checkbox widgets, empty global options) |
| Generator.AddToUIOptionsLookup | src/utils/uiSchemaHelpers.ts:311-320 | wrapped, the option lands in a copy of the bag that keeps the other options; flattened, on `ui:<key>`; no other key of the node changes |
| Generator.FillLookup | src/utils/uiSchemaHelpers.ts:53-62 | a key that is already set keeps its value; an `undefined` one takes the default |
| Generator.WidgetDefaultsLookup | src/utils/uiSchemaHelpers.ts:50-67 | a key the node has keeps its value, a missing one takes the widget's default |
| Generator.DefaultWidget | src/utils/uiSchemaHelpers.ts:206-207 | reading the default widget table throws exactly when the table is `undefined` or `null` |
| Generator.PlaceholderSubject | src/utils/uiSchemaHelpers.ts:227 | the placeholder subject can be computed exactly when the title is absent, `null` or a string; any other title throws |
| Generator.EnumLabels | src/utils/uiSchemaHelpers.ts:283-287 | one label per enum value: a string capitalised, anything else "Enum <position from 1>" |
| Generator.EnumNames | src/utils/uiSchemaHelpers.ts:279-288 | the labels are an array, and they can be computed exactly when `enumNames` or `enum` is an array |
| Generator.PropertyResults | src/utils/uiSchemaHelpers.ts:269-271 | one node per property entry |
| Generator.SubResults | src/utils/uiSchemaHelpers.ts:147-152 | one node per sub-schema of a composition keyword |
| Generator.ApplyWidgetDefaults | src/utils/uiSchemaHelpers.ts:50-67 | defines `applyWidgetDefaults` on a node's entries; `Generator.WidgetDefaultsLookup` states that set keys keep their value and missing ones take the widget's default, `GeneratorShape.WidgetDefaultsFrame` that only textarea, file and text add keys, and only their own |
| Generator.AddToUIOptions | src/utils/uiSchemaHelpers.ts:311-320 | defines `addToUIOptions`; `Generator.AddToUIOptionsLookup`, `GeneratorShape.OptionValueAdd` and `GeneratorShape.OptionValueKept` state where the option lands in each mode and that nothing else changes |
| Generator.HandleString | src/utils/uiSchemaHelpers.ts:204-231 | defines `handleStringType`; its widget, placeholder, textarea options, input type and autofocus are stated by the `GeneratorNodes.HandleString*` lemmas, and when it throws by `GeneratorProps.HandleStringOk` |
| Generator.ClampRows | src/utils/uiSchemaHelpers.ts:304 | `Math.min(Math.max(m, 3), 10)`: a number in 3..10 exactly when `m` converts to a number (below 3 gives 3, above 10 gives 10, in range is kept), and `null` (NaN) otherwise |
| Generator.ClampRowsConverts | src/utils/uiSchemaHelpers.ts:304 | numeric text and arrays are converted: "7" gives 7 rows, blank text and `[]` give 3, `[12]` gives 10, "wide" gives NaN |
| Generator.TextareaRows | src/utils/uiSchemaHelpers.ts:300-305 | with `minLength` or `maxLength` set the rows are NaN or within 3..10, and 3 when only `maxLength` is set; with neither bound and no `rows`, 5 |
| Generator.TextareaOptions | src/utils/uiSchemaHelpers.ts:296-309 | defines `handleTextareaOptions`; `GeneratorNodes.TextareaOptionValues` states the three option values and `GeneratorNodes.TextareaWidget` that only the flattened mode moves `ui:widget` |
| Generator.HandleEnum | src/utils/uiSchemaHelpers.ts:278-294 | defines `handleEnumProperties`; `GeneratorNodes.EnumAndHiddenValues` and `GeneratorNodes.EnumNamesValues` state the labels and the forced `select`, `GeneratorProps.EnumAndHiddenOk` when it throws |
| Generator.HandleArray | src/utils/uiSchemaHelpers.ts:242-263 | defines `handleArrayType`; the `GeneratorNodes.HandleArray*` lemmas state the nested or merged items node, the array options and `filePreview`, `GeneratorProps.HandleArrayOk` when it throws |
| Generator.HandleObject | src/utils/uiSchemaHelpers.ts:266-276 | defines `handleObjectType`; `GeneratorNodes.HandleObjectOrder`, `HandleObjectChild` and `HandleObjectSeparator` state the order, the children and the separator, `GeneratorProps.HandleObjectOk` when it throws |
| Generator.ProcessSchema | src/utils/uiSchemaHelpers.ts:84-178 | defines `processSchema`; `GeneratorProps.ProcessSchemaOk` states when it succeeds, `GeneratorShape.ProcessSchemaDistinct` that keys never repeat, and `GeneratorNodes.NodeWidget`, `NodeOrder`, `NodeProperty` and `NodeAccess` what every node holds |
| Generator.GenerateUISchema | src/utils/uiSchemaHelpers.ts:70-82 | defines `generateUISchema`: the root node of the schema under the caller's options spread over the defaults; `GeneratorImpl.GenerateUISchema` builds it in place |
| GeneratorImpl.UiNode.Set | src/utils/uiSchemaHelpers.ts:208 | a property write: the node afterwards is the old one with that key set |
| GeneratorImpl.UiNode.Fill | src/utils/uiSchemaHelpers.ts:53 | a write guarded by `=== undefined` |
| GeneratorImpl.UiNode.ApplyDefaults | src/utils/uiSchemaHelpers.ts:50-67 | the in-place widget defaults leave the node the specification function gives |
| GeneratorImpl.UiNode.AddOption | src/utils/uiSchemaHelpers.ts:311-320 | the in-place option write leaves the node the specification function gives |
| GeneratorImpl.UiNode.RootDirectives | src/utils/uiSchemaHelpers.ts:88-98 | the root directives are written into the empty node, or the read of `globalOptions.copyable` throws, exactly as specified |
| GeneratorImpl.UiNode.TextareaOptions | src/utils/uiSchemaHelpers.ts:296-309 | widget, autocomplete and rows are added in that order, the rows being `Generator.TextareaRows` (a bounded `minLength` is converted with `Number` and clamped to 3..10) |
| GeneratorImpl.UiNode.HandleString | src/utils/uiSchemaHelpers.ts:204-231 | the string handler's writes, or the exception it throws, are those of the specification function |
| GeneratorImpl.UiNode.Placeholder | src/utils/uiSchemaHelpers.ts:226-230 | the placeholder "Enter <subject>" and the autofocus flag are written, or the title read throws and nothing more is done |
| GeneratorImpl.UiNode.HandleNumber | src/utils/uiSchemaHelpers.ts:233-236 | the number widget and its defaults, or the exception of an unreadable widget table |
| GeneratorImpl.UiNode.HandleBoolean | src/utils/uiSchemaHelpers.ts:238-240 | the boolean widget, or the exception of an unreadable widget table |
| GeneratorImpl.UiNode.ApplyCommon | src/utils/uiSchemaHelpers.ts:181-202 | the common properties are written as specified |
| GeneratorImpl.UiNode.HandleEnum | src/utils/uiSchemaHelpers.ts:278-294 | enum labels, the select widget and `ui:enumDisabled`, or the exception of a non-array `enum` |
| GeneratorImpl.UiNode.EnumAndHidden | src/utils/uiSchemaHelpers.ts:136-143 | the enum step and then the hidden widget |
| GeneratorImpl.UiNode.SubDefaults | src/utils/uiSchemaHelpers.ts:149-150 | a sub-node's missing title and description are filled from its sub-schema |
| GeneratorImpl.UiNode.Finish | src/utils/uiSchemaHelpers.ts:171-175 | the field type and empty value are written when the widget is truthy |
| GeneratorImpl.ProcessSchema | src/utils/uiSchemaHelpers.ts:84-178 | the node built step by step in a fresh object is the one `Generator.ProcessSchema` specifies, errors included |
| GeneratorImpl.NodeBody | src/utils/uiSchemaHelpers.ts:101-177 | reading `type` of `undefined`/`null` throws; otherwise the type switch and then the later steps |
| GeneratorImpl.AfterType | src/utils/uiSchemaHelpers.ts:133-177 | the steps after the type switch, as specified |
| GeneratorImpl.TypeStage | src/utils/uiSchemaHelpers.ts:106-130 | the type switch, as specified |
| GeneratorImpl.HandleArray | src/utils/uiSchemaHelpers.ts:242-263 | the array handler, as specified |
| GeneratorImpl.ArrayItems | src/utils/uiSchemaHelpers.ts:250-259 | an enum items node is merged in, any other is nested under `items` |
| GeneratorImpl.HandleObject | src/utils/uiSchemaHelpers.ts:266-276 | the object handler, as specified |
| GeneratorImpl.ObjectProperties | src/utils/uiSchemaHelpers.ts:267-272 | `ui:order` and then the property loop, as specified |
| GeneratorImpl.ObjectPropertiesIs | src/utils/uiSchemaHelpers.ts:267-272 | the property step is `ui:order` followed by one write per property node, and it fails with the first property that throws |
| GeneratorImpl.PropertyLoop | src/utils/uiSchemaHelpers.ts:269-271 | the loop writes every property node in entry order, or ends with the first exception a property throws |
| GeneratorImpl.PropertyStep | src/utils/uiSchemaHelpers.ts:270 | one pass of the loop extends the written prefix by one child, or stops with the failure of the whole run |
| GeneratorImpl.PropertyChild | src/utils/uiSchemaHelpers.ts:270 | the child is the `i`-th property node |
| GeneratorImpl.PutChildrenSnoc | src/utils/uiSchemaHelpers.ts:269-271 | one more child overwrites one more property key |
| GeneratorImpl.Composition | src/utils/uiSchemaHelpers.ts:146-153 | one composition block, as specified |
| GeneratorImpl.CompositionIs | src/utils/uiSchemaHelpers.ts:146-153 | a falsy keyword changes nothing, a truthy non-array throws, an array gets the list of its sub-nodes or the first exception |
| GeneratorImpl.ComposeLoop | src/utils/uiSchemaHelpers.ts:147-152 | the `map` yields every sub-node in order, or the first exception a sub-schema throws |
| GeneratorImpl.SubChild | src/utils/uiSchemaHelpers.ts:148-151 | one sub-node with its title and description defaults |
| GeneratorImpl.Compositions | src/utils/uiSchemaHelpers.ts:146-169 | anyOf, oneOf and allOf blocks, in that order |
| GeneratorImpl.GenerateUISchema | src/utils/uiSchemaHelpers.ts:70-323 | the generated UI schema is the one the specification functions define, errors included |
| GeneratorNodes.ApplyCommonFrame | src/utils/uiSchemaHelpers.ts:181-202 | the common step writes only the title slot, description, readonly, disabled and help |
| GeneratorNodes.ApplyCommonTitle | src/utils/uiSchemaHelpers.ts:182-191 | a truthy title ends up in `ui:options.title` when wrapped and in `ui:title` when flattened |
| GeneratorNodes.ApplyCommonDescription | src/utils/uiSchemaHelpers.ts:192-194 | a truthy description is copied to `ui:description` |
| GeneratorNodes.ApplyCommonHelp | src/utils/uiSchemaHelpers.ts:199-201 | a truthy help text is copied to `ui:help` |
| GeneratorNodes.ApplyCommonChild | src/utils/uiSchemaHelpers.ts:195-198 | a child node gets `readOnly` or false and `disabled` or false |
| GeneratorNodes.ApplyCommonRoot | src/utils/uiSchemaHelpers.ts:195 | the root node's access keys are left as they were |
| GeneratorNodes.EnumAndHiddenFrame | src/utils/uiSchemaHelpers.ts:136-143 | the enum and hidden steps write only the enum keys and the widget |
| GeneratorNodes.EnumAndHiddenValues | src/utils/uiSchemaHelpers.ts:136-143 | `hidden` wins the widget, an enum forces `select` and sets the labels and `ui:enumDisabled` |
| GeneratorNodes.EnumNamesValues | src/utils/uiSchemaHelpers.ts:279-288 | an `enumNames` array is used as given; otherwise one label per enum value, capitalised or "Enum <n>" |
| GeneratorNodes.CompositionFrame | src/utils/uiSchemaHelpers.ts:146-153 | a composition block writes only its own keyword |
| GeneratorNodes.CompositionsFrame | src/utils/uiSchemaHelpers.ts:146-169 | the three blocks write only `anyOf`, `oneOf` and `allOf` |
| GeneratorNodes.SubDefaultsValues | src/utils/uiSchemaHelpers.ts:149-150 | a sub-node keeps its own truthy title and description and otherwise takes the sub-schema's or "" |
| GeneratorNodes.CompositionValue | src/utils/uiSchemaHelpers.ts:146-153 | a truthy keyword holds an array with exactly one node per sub-schema, each the sub-schema's node |
| GeneratorNodes.SubNodeValue | src/utils/uiSchemaHelpers.ts:147-152 | a sub-node is the generated node of the sub-schema with the defaults added |
| GeneratorNodes.PlaceholderText | src/utils/uiSchemaHelpers.ts:227 | the subject is the lower-cased title, or "value" when that is empty or there is no string title; never empty |
| GeneratorNodes.HandleStringPlaceholder | src/utils/uiSchemaHelpers.ts:226-228 | every string field gets the "Enter ..." placeholder, wherever options go |
| GeneratorNodes.HandleStringWidget | src/utils/uiSchemaHelpers.ts:205-220 | the final widget: `textarea` when flattened textarea options overwrite it, else `file` for data URLs, else the chosen widget |
| GeneratorNodes.DefaultsKeepWidget | src/utils/uiSchemaHelpers.ts:50-67 | widget defaults never touch `ui:widget` |
| GeneratorNodes.TextareaWidget | src/utils/uiSchemaHelpers.ts:296-309 | the textarea options move the widget only when flattened |
| GeneratorNodes.HandleStringTextarea | src/utils/uiSchemaHelpers.ts:218-220 | a textarea gets the widget, `autocomplete: "on"` and its rows as options, the rows being `Generator.TextareaRows` of the schema |
| GeneratorNodes.TextareaOptionValues | src/utils/uiSchemaHelpers.ts:297-308 | the three textarea options hold their values after the three writes |
| GeneratorNodes.HandleStringInputType | src/utils/uiSchemaHelpers.ts:222-224 | a truthy `inputType` becomes an option |
| GeneratorNodes.HandleStringAutofocus | src/utils/uiSchemaHelpers.ts:230 | `ui:autofocus` is the schema's `autofocus`, or false |
| GeneratorNodes.FinishValues | src/utils/uiSchemaHelpers.ts:171-175 | a truthy widget records the classifier's result and `default`, or ""; nothing else changes, and without a widget nothing changes |
| GeneratorNodes.AfterTypeWidget | src/utils/uiSchemaHelpers.ts:133-177 | the final widget: `hidden` wins, an enum forces `select`, otherwise the type switch's widget stays |
| GeneratorNodes.AfterTypeFieldType | src/utils/uiSchemaHelpers.ts:171-175 | a node whose final widget is truthy records its field type and empty value |
| GeneratorNodes.ProcessSchemaParts | src/utils/uiSchemaHelpers.ts:84-178 | a successful node is the node base, the type switch, then the rest |
| GeneratorNodes.NodeWidget | src/utils/uiSchemaHelpers.ts:136-175 | every generated node: `hidden` wins, an enum forces `select`, a truthy widget comes with the field type |
| GeneratorNodes.HandleArrayItems | src/utils/uiSchemaHelpers.ts:250-258 | a non-enum items schema's node is nested under `items` |
| GeneratorNodes.HandleArrayOptions | src/utils/uiSchemaHelpers.ts:243-248 | add, order and remove are all on, unless a merged enum items node replaces the option |
| GeneratorNodes.HandleArrayFilePreview | src/utils/uiSchemaHelpers.ts:260-262 | a truthy `filePreview` turns the option on |
| GeneratorNodes.HandleArrayEnumItems | src/utils/uiSchemaHelpers.ts:254-255 | an enum items node's keys are merged into the array node itself |
| GeneratorNodes.PutChildrenFrame | src/utils/uiSchemaHelpers.ts:269-271 | the property loop leaves every non-property key alone |
| GeneratorNodes.PutChildrenChild | src/utils/uiSchemaHelpers.ts:269-271 | with distinct property keys, each property holds its own child |
| GeneratorNodes.ObjectParts | src/utils/uiSchemaHelpers.ts:266-276 | the object node is the property loop, then the separator option when `additionalProperties` is truthy |
| GeneratorNodes.HandleObjectOrder | src/utils/uiSchemaHelpers.ts:268 | `ui:order` lists the property keys in declared order, unless a property is itself named `ui:order` |
| GeneratorNodes.HandleObjectChild | src/utils/uiSchemaHelpers.ts:269-271 | each property holds its own generated node, unless its key is a slot of the separator option |
| GeneratorNodes.HandleObjectSeparator | src/utils/uiSchemaHelpers.ts:273-275 | `additionalProperties` records the separator, `-` by default |
| GeneratorNodes.AfterTypeKeeps | src/utils/uiSchemaHelpers.ts:133-177 | the steps after the type switch leave every key outside the common and late keys alone |
| GeneratorNodes.NodeOrder | src/utils/uiSchemaHelpers.ts:120-121 | a generated object node lists its property keys in declared order |
| GeneratorNodes.NodeProperty | src/utils/uiSchemaHelpers.ts:269-271 | in a generated object node, a property whose key is not a directive or a composition keyword holds its own generated node |
| GeneratorNodes.NodeAccess | src/utils/uiSchemaHelpers.ts:195-198 | every non-root node ends with `ui:readonly` and `ui:disabled` set, whatever type it has |
| GeneratorNodes.RootAccess | src/utils/uiSchemaHelpers.ts:88-98 | a root node that is not an array or object has neither access key |
| GeneratorNodes.RootHasNoAccess | src/utils/uiSchemaHelpers.ts:88-98 | the root directives hold neither access key |
| GeneratorProps.ProcessSchemaOk | src/utils/uiSchemaHelpers.ts:84-178 | generation succeeds exactly when the root directives can be read (at the root) and the schema is one the generator gets through; both directions |
| GeneratorProps.AfterTypeOk | src/utils/uiSchemaHelpers.ts:133-177 | the later steps succeed exactly when an enum has computable labels and every composition keyword generates |
| GeneratorProps.EnumAndHiddenOk | src/utils/uiSchemaHelpers.ts:136-143 | the enum step throws exactly when labels cannot be computed |
| GeneratorProps.CompositionsOk | src/utils/uiSchemaHelpers.ts:146-169 | the blocks succeed exactly when every truthy keyword is an array of generating sub-schemas |
| GeneratorProps.TypeStageOk | src/utils/uiSchemaHelpers.ts:106-130 | the type switch succeeds exactly when its handler's demands are met |
| GeneratorProps.HandleStringOk | src/utils/uiSchemaHelpers.ts:204-231 | a string node succeeds exactly when the widget table and the title can be read |
| GeneratorProps.HandleArrayOk | src/utils/uiSchemaHelpers.ts:242-263 | an array node succeeds exactly when its truthy items schema generates |
| GeneratorProps.HandleObjectOk | src/utils/uiSchemaHelpers.ts:266-276 | an object node succeeds exactly when every property schema generates |
| GeneratorProps.PropertyResultsOk | src/utils/uiSchemaHelpers.ts:269-271 | the first `n` passes of the loop succeed exactly when the first `n` properties generate |
| GeneratorProps.CompositionOk | src/utils/uiSchemaHelpers.ts:146-153 | a block succeeds exactly when its sub-schemas generate |
| GeneratorProps.SubResultsOk | src/utils/uiSchemaHelpers.ts:147-152 | the first `n` steps of the `map` succeed exactly when the first `n` sub-schemas generate |
| GeneratorShape.WidgetDefaultsFrame | src/utils/uiSchemaHelpers.ts:50-67 | widget defaults fill only their own keys, and only `textarea`, `file` and `text` have any |
| GeneratorShape.OptionValueAdd | src/utils/uiSchemaHelpers.ts:311-320 | after an option write, that option holds the written value and every other option its old one |
| GeneratorShape.OptionValueKept | src/utils/uiSchemaHelpers.ts:311-320 | an option is not disturbed by writes outside its slot |
| GeneratorShape.AddToUIOptionsDistinct | src/utils/uiSchemaHelpers.ts:311-320 | an option write keeps keys distinct |
| GeneratorShape.HandleStringDistinct | src/utils/uiSchemaHelpers.ts:204-231 | the string handler keeps keys distinct |
| GeneratorShape.HandleArrayDistinct | src/utils/uiSchemaHelpers.ts:242-263 | the array handler keeps keys distinct, the `Object.assign` merge included |
| GeneratorShape.HandleObjectDistinct | src/utils/uiSchemaHelpers.ts:266-276 | the object handler keeps keys distinct |
| GeneratorShape.AfterTypeDistinct | src/utils/uiSchemaHelpers.ts:133-177 | the later steps keep keys distinct |
| GeneratorShape.ProcessSchemaDistinct | src/utils/uiSchemaHelpers.ts:84-178 | a generated node never holds the same key twice |
| Merge.DeepMerge | src/utils/uiSchemaHelpers.ts:326-341 | the in-place merge leaves, or throws, what the specification `Merge.Merged` gives |
| Merge.MergeKey | src/utils/uiSchemaHelpers.ts:328-338 | one iteration of the `forEach`, as specified |
| Merge.MergeKeysStop | src/utils/uiSchemaHelpers.ts:327 | once an iteration throws, the later ones do not run and the exception is the result |
| Merge.MergedIntoObject | src/utils/uiSchemaHelpers.ts:326-341 | merging any listable source into an object or array never throws, and the target keeps its kind |
| Merge.StepFresh | src/utils/uiSchemaHelpers.ts:331-335 | an object source value over a missing or non-object target value is merged into a fresh `{}` |
| Merge.StepDeep | src/utils/uiSchemaHelpers.ts:331-335 | an object source value over an object target value is merged recursively |
| Merge.MergeKeysObject | src/utils/uiSchemaHelpers.ts:327-339 | after the first `n` source keys, those keys hold the combined value and every other key the target's |
| Merge.MergedObject | src/utils/uiSchemaHelpers.ts:326-341 | the merged object has exactly the keys of both; a key only in the target keeps its value; a source key holds the source array or scalar, or the recursive merge of two objects |
| Merge.MergeSelf | src/utils/uiSchemaHelpers.ts:326-341 | merging an object with an equal copy of itself changes nothing |
| Merge.Merged | src/utils/uiSchemaHelpers.ts:326-341 | defines `deepMerge` as a value, throws included; `Merge.MergedObject` states the key union and who wins, `Merge.MergedIntoObject` when it cannot throw, `Merge.MergeSelf` that merging with an equal copy changes nothing |
| Canonical.Canonicalize | src/utils/uiSchemaHelpers.ts:344-367 | arrays stay arrays of the same length, objects stay objects, and a value that is not an object or array is returned unchanged |
| Canonical.CanonElemsAt | src/utils/uiSchemaHelpers.ts:345-346 | each element of an array is canonicalised where it stands |
| Canonical.OptionWritesAt | src/utils/uiSchemaHelpers.ts:353-359 | the `i`-th option is written as `ui:<name>` with its raw value when it is one of the six lifted names, and otherwise under its own name, canonicalised |
| Canonical.WritesAppend | src/utils/uiSchemaHelpers.ts:350-363 | the assignments of a node split along its entries |
| Canonical.EntryWins | src/utils/uiSchemaHelpers.ts:350-364 | a key holds the last value written to it: an entry's last write stands when no later entry writes that key |
| Canonical.PlainEntry | src/utils/uiSchemaHelpers.ts:361 | an entry that is not an object-valued `ui:options` comes back under its own key, canonicalised, unless a later entry overwrites it |
| Canonical.LiftedOption | src/utils/uiSchemaHelpers.ts:354-355 | description, help, title, placeholder, readonly and disabled move out of `ui:options` to `ui:<name>` with their raw value |
| Canonical.OtherOption | src/utils/uiSchemaHelpers.ts:356-357 | any other option moves out of `ui:options` to the node itself under its own name, canonicalised |
| Canonical.OptionsRemoved | src/utils/uiSchemaHelpers.ts:351-359 | a node whose `ui:options` are objects without a nested `ui:options` comes back without `ui:options` |
| Canonical.Unchanged | src/utils/uiSchemaHelpers.ts:344-367 | a tree with distinct keys and no object-valued `ui:options` at any level comes back deep-equal |
| Canonical.NormalizeSchema | src/utils/uiSchemaHelpers.ts:369-371 | is `canonicalize`; `Canonical.OptionsRemoved`, `LiftedOption`, `OtherOption` and `Unchanged` state what it does to a node |
| ResolveSchema.ResolveSchema | src/utils/uiSchemaHelpers.ts:373-400 | `undefined`/`null` throws; a schema without truthy `definitions` is returned as it is |
| ResolveSchema.Resolve | src/utils/uiSchemaHelpers.ts:380-397 | anything that is not an object or array is returned unchanged |
| ResolveSchema.Members | src/utils/uiSchemaHelpers.ts:390-396 | mapping keeps arrays arrays and rebuilds objects as objects |
| ResolveSchema.NoRefsUnchanged | src/utils/uiSchemaHelpers.ts:380-397 | a tree without a truthy `$ref` anywhere comes back as it is |
| ResolveSchema.KnownRef | src/utils/uiSchemaHelpers.ts:383-387 | an object whose `$ref` names a definition is replaced by that definition, resolved |
| ResolveSchema.SiblingsDiscarded | src/utils/uiSchemaHelpers.ts:383-387 | the other keys next to a resolvable `$ref` are discarded: two objects with the same such `$ref` resolve alike |
| ResolveSchema.MembersObject | src/utils/uiSchemaHelpers.ts:394-396 | the members of an object resolve one by one with keys in place; the object throws exactly when a member does |
| ResolveSchema.ResolvedFields | src/utils/uiSchemaHelpers.ts:394-396 | resolving members keeps the key list and every member that is not an object |
| ResolveSchema.UnknownRef | src/utils/uiSchemaHelpers.ts:383-396 | a `$ref` naming no definition is kept as it is, with the other members resolved; it throws only when a member does |
| ResolveSchema.NoTopDefinitions | src/utils/uiSchemaHelpers.ts:376-378 | the result loses `definitions` and keeps every other top-level key |
| ResolveSchema.OnlyDefinitionsDropped | src/utils/uiSchemaHelpers.ts:374-399 | a schema without references loses `definitions` and nothing else |
| ResolveSchema.FuelMonotone | src/utils/uiSchemaHelpers.ts:380-397 | once the recursion bound suffices, a larger bound gives the same result, so the bound stands only for the engine's stack |
| ResolveSchema.ExpandRefOk | src/utils/uiSchemaHelpers.ts:383-387 | a resolvable `$ref` that succeeds spends one unit of the bound on its definition and returns a spread copy of it |
| ResolveRefs.LookupRef | src/utils/uiSchemaHelpers.ts:409-420 | the loop over the reference's parts gives what the walk specification gives |
| ResolveRefs.WalkFound | src/utils/uiSchemaHelpers.ts:413-420 | a walk that succeeds ends at the node the path lookup of `getNodeByPath` reaches |
| ResolveRefs.WalkErrors | src/utils/uiSchemaHelpers.ts:414-420 | a walk fails only with the missing-reference error or the `TypeError` of `in` on a primitive |
| ResolveRefs.WalkAppend | src/utils/uiSchemaHelpers.ts:414-420 | a walk of two joined paths walks the first, then the second from where it ended |
| ResolveRefs.WalkMissing | src/utils/uiSchemaHelpers.ts:417-418 | an object lacking the next part throws "Unable to resolve reference: " with the reference string |
| ResolveRefs.Resolve | src/utils/uiSchemaHelpers.ts:404-447 | anything that is not an object or array is returned unchanged |
| ResolveRefs.Assign | src/utils/uiSchemaHelpers.ts:431 | a shallow merge always yields a fresh object |
| ResolveRefs.Children | src/utils/uiSchemaHelpers.ts:440-444 | resolving the members keeps arrays arrays and objects objects |
| ResolveRefs.ChildrenOk | src/utils/uiSchemaHelpers.ts:440-444 | every member keeps its key and holds its own resolution |
| ResolveRefs.ResolvedRefFree | src/utils/uiSchemaHelpers.ts:404-447 | a successful resolution holds no `$ref` key at any depth |
| ResolveRefs.RefFreeUnchanged | src/utils/uiSchemaHelpers.ts:404-447 | a tree without `$ref` comes back as it is |
| ResolveRefs.ResolveIdempotent | src/utils/uiSchemaHelpers.ts:402-451 | resolving a resolved tree again, against any root, gives the same tree |
| ResolveRefs.MissingSegment | src/utils/uiSchemaHelpers.ts:414-419 | a pointer that reaches an object lacking the next segment makes the whole resolution throw the missing-reference error |
| ResolveRefs.SiblingsObject | src/utils/uiSchemaHelpers.ts:426-436 | in the copy, each non-`$ref` sibling key holds the object shallow-merged over the copy's value, or the raw value; every other key of the copy is untouched |
| ResolveRefs.ResolveRefsMethod | src/utils/uiSchemaHelpers.ts:402-451 | the in-place run gives exactly the specified resolution, errors included |
| ResolveRefs.ResolveValue | src/utils/uiSchemaHelpers.ts:404-447 | one recursive call, as specified |
| ResolveRefs.ExpandRef | src/utils/uiSchemaHelpers.ts:407-438 | a `$ref` object: walk, clone, siblings laid over, resolved again, as specified |
| ResolveRefs.MergeSiblings | src/utils/uiSchemaHelpers.ts:426-436 | the loop over the object's keys patches the copy as the specification says |
| ResolveRefs.PatchSibling | src/utils/uiSchemaHelpers.ts:427-435 | one iteration of that loop |
| ResolveRefs.SiblingsStop | src/utils/uiSchemaHelpers.ts:426-436 | once an iteration throws, the later ones do not run |
| ResolveRefs.ResolveChildren | src/utils/uiSchemaHelpers.ts:440-444 | the in-place overwrite of every member gives the specified object or array |
| ResolveRefs.ResolveMembers | src/utils/uiSchemaHelpers.ts:441-443 | the members resolved in order, or the first exception |
| ResolveRefs.ResolveRefs | src/utils/uiSchemaHelpers.ts:402-451 | resolves the schema against itself; `ResolveRefs.ResolvedRefFree` states that a success holds no `$ref`, `ResolveIdempotent` that resolving again changes nothing, `MissingSegment` that a missing segment throws |
| ResolveRefs.Walk | src/utils/uiSchemaHelpers.ts:413-420 | the segment walk; `ResolveRefs.WalkFound`, `WalkErrors`, `WalkAppend` and `WalkMissing` state where it ends and how it fails |
| ResolveRefs.Expand | src/utils/uiSchemaHelpers.ts:406-438 | walk, deep copy, sibling overlay, resolve again; `ResolveRefs.ExpandRef` builds it in place and `ResolveRefs.SiblingsObject` states the overlay |
| ResolveRefs.Sibling | src/utils/uiSchemaHelpers.ts:425-436 | one sibling key over the copy; `ResolveRefs.SiblingsObject` and `ResolveRefs.SiblingsStop` state the whole loop |
| PathSetter.SKeys | src/components/UISchemaEditorForm.tsx:24 | a path of strings as segments reads back as the same key list |
| PathSetter.Fresh | src/components/UISchemaEditorForm.tsx:38 | the created container is an empty array exactly when the next segment is a number, and an empty object otherwise |
| PathSetter.SetAt | src/components/UISchemaEditorForm.tsx:26-43 | the empty path leaves the draft as it is |
| PathSetter.Slot | src/components/UISchemaEditorForm.tsx:37-39 | a defined slot is left alone; a missing one becomes a fresh container |
| PathSetter.SetPath | src/components/UISchemaEditorForm.tsx:24-45 | the draft walk of `updateSchema`, run as a loop, gives the specified new tree or exception |
| PathSetter.StoreBack | src/components/UISchemaEditorForm.tsx:40 | storing the new children back into their parents gives the specified tree |
| PathSetter.SetAtShape | src/components/UISchemaEditorForm.tsx:26-43 | the root keeps its kind, a primitive root is untouched, and `undefined`/`null` only take the empty path |
| PathSetter.PrimitiveFails | src/components/UISchemaEditorForm.tsx:34 | writing a defined value below a primitive always throws |
| PathSetter.Descend | src/components/UISchemaEditorForm.tsx:36-41 | one level down: the set goes through the slot and its result is stored under the first key |
| PathSetter.ReadBack | src/components/UISchemaEditorForm.tsx:24-45 | after a defined write, looking the path up gives the value written (a named key written on an array reads as nothing) |
| PathSetter.DeleteBack | src/components/UISchemaEditorForm.tsx:31-32 | after a write of `undefined`, looking the path up gives `undefined` |
| PathSetter.OtherKey | src/components/UISchemaEditorForm.tsx:28-42 | another key of the root reads as before |
| PathSetter.SlotCreated | src/components/UISchemaEditorForm.tsx:37-40 | a missing slot is created with the kind the next segment asks for, an existing object is descended into, and a primitive on the way leaves the tree as it was |
| PathSetter.OffPath | src/components/UISchemaEditorForm.tsx:24-45 | every lookup that leaves the written path somewhere gives what it gave before |
| PathSetter.Beside | src/components/UISchemaEditorForm.tsx:28-42 | a lookup starting with another first key is unchanged |
| PathSetter.Below | src/components/UISchemaEditorForm.tsx:36-41 | a lookup starting with the first key continues in the slot the write went through |
| PathSetter.NodeAt | src/utils/pathHelpers.ts:1-2 | the entries of the object the path lookup finds |
| PathSetter.Graft | src/components/UISchemaEditorForm.tsx:24-45 | the tree with the object at a path given new entries keeps that object at that path |
| PathSetter.GraftSet | src/components/UISchemaEditorForm.tsx:30-35 | writing a key of the object at a path replaces that object's entries by the put or removed entries and changes nothing else |
| PathSetter.GraftGraft | src/components/UISchemaEditorForm.tsx:24-45 | a second change of the same object replaces the first |
| SchemaEditor.Apply | src/components/UISchemaEditorForm.tsx:24-45 | the state after an update is the new tree, or the old one when the recipe throws |
| SchemaEditor.ParentPath | src/components/UISchemaEditorForm.tsx:50 | a non-empty path is its parent path followed by its last segment; the empty path has the empty parent |
| SchemaEditor.ApplyGraft | src/components/UISchemaEditorForm.tsx:24-45 | a write into an object already changed at a path changes only that object again |
| SchemaEditor.RemoveAllGraft | src/components/UISchemaEditorForm.tsx:58-60 | removing the reset keys changes only the parent node, whose entries lose those keys |
| SchemaEditor.AddDefaultsGraft | src/components/UISchemaEditorForm.tsx:61-70 | re-adding the widget's defaults changes only the parent node, whose entries get those defaults |
| SchemaEditor.WidgetChangeGraft | src/components/UISchemaEditorForm.tsx:47-73 | when the widget's node is an object reached through objects, a widget change touches that node only |
| SchemaEditor.GraftSelf | src/components/UISchemaEditorForm.tsx:24-45 | putting a node's own entries back changes nothing |
| SchemaEditor.ResetFacts | src/components/UISchemaEditorForm.tsx:47-73 | after a widget change the node holds the new widget, exactly the new widget's defaults among the five reset keys, and every other key as before |
| SchemaEditor.DefaultsFacts | src/components/UISchemaEditorForm.tsx:61-70 | textarea brings rows 5 and autocomplete "off", file brings no preview and an empty accept, text brings an empty input type, nothing else changes |
| SchemaEditor.RemovedKeys | src/components/UISchemaEditorForm.tsx:51-60 | the listed keys are gone and no other key changes |
| SchemaEditor.ResetKeysPresent | src/components/UISchemaEditorForm.tsx:58-70 | a reset key is present afterwards exactly when it holds a defined value, so no key is left holding `undefined` |
| SchemaEditor.SliceTo | src/components/UISchemaEditorForm.tsx:80 | the slice is a prefix of the path |
| SchemaEditor.Breadcrumb | src/components/UISchemaEditorForm.tsx:79-81 | the new path is always a prefix of the current path |
| SchemaEditor.BreadcrumbFacts | src/components/UISchemaEditorForm.tsx:79-81 | "Root" goes to the top, a crumb keeps the path up to and including its segment, an index past the end keeps the whole path |
| SchemaEditor.AllowedWidgetsMapping | src/constants.ts:7-16 | every mapped widget list offers `hidden` |
| SchemaEditor.AllowedWidgets | src/components/UISchemaEditorForm.tsx:114-120 | the offered list is never empty and always offers `hidden` |
| SchemaEditor.AllowedWidgetsFacts | src/components/UISchemaEditorForm.tsx:114-120 | no field type gives the string widgets, a mapped type its own list, an unmapped one all widget options |
| SchemaEditor.WithoutIn | src/components/UISchemaEditorForm.tsx:188 | a value survives the filter exactly when it was there and is not the filtered one |
| SchemaEditor.Remaining | src/components/UISchemaEditorForm.tsx:183-185 | exactly the node's keys other than `ui:order` that the order does not list |
| SchemaEditor.SortedKeysFacts | src/components/UISchemaEditorForm.tsx:179-188 | `ui:order` is never listed; every other key is; with an order array its entries come first, then exactly the unlisted keys; nothing else appears |
| SchemaEditor.WidgetChanged | src/components/UISchemaEditorForm.tsx:47-73 | the tree after a widget change; `SchemaEditor.ResetFacts` states the new widget and defaults, `SchemaEditor.WidgetChangeGraft` that only the widget's node changes |
| SchemaEditor.SortedKeys | src/components/UISchemaEditorForm.tsx:179-188 | the listed keys; `SchemaEditor.SortedKeysFacts` states order entries first, then exactly the unlisted keys, never `ui:order` |
| SchemaEditor.Editor.constructor | src/components/UISchemaEditorForm.tsx:17-18 | the editor starts on the given tree at the root |
| SchemaEditor.Editor.Receive | src/components/UISchemaEditorForm.tsx:20-22 | a new prop replaces the tree and keeps the path |
| SchemaEditor.Editor.UpdateSchema | src/components/UISchemaEditorForm.tsx:24-45 | the tree becomes the updated tree (unchanged when the recipe throws); the path stays |
| SchemaEditor.Editor.HandleWidgetChange | src/components/UISchemaEditorForm.tsx:47-73 | the tree becomes the widget-changed tree; the path stays |
| SchemaEditor.Editor.RemoveEach | src/components/UISchemaEditorForm.tsx:58-60 | one update per reset key, in order |
| SchemaEditor.Editor.AddWidgetDefaults | src/components/UISchemaEditorForm.tsx:61-70 | the defaults of the new widget, as updates |
| SchemaEditor.Editor.HandleBreadcrumbClick | src/components/UISchemaEditorForm.tsx:79-81 | the path becomes the clicked prefix; the tree stays |
| SchemaEditor.Editor.CurrentNode | src/components/UISchemaEditorForm.tsx:173-177 | a truthy node on the path is shown; otherwise nothing is shown and the path goes back to the root |
| SchemaEditor.Editor.WidgetChoices | src/components/UISchemaEditorForm.tsx:114-120 | the list for the parent node always offers `hidden` |
| SortableList.SpliceOut | src/components/SortableList.tsx:11 | an index in range removes exactly that element and returns it; an index past the end removes nothing and returns `undefined` |
| SortableList.SpliceIn | src/components/SortableList.tsx:12 | the list grows by exactly one |
| SortableList.MovedAt | src/components/SortableList.tsx:9-13 | element by element, the items between the source and the landing index shift by one and the dragged item lands there |
| SortableList.MovedPermutation | src/components/SortableList.tsx:10-12 | the reorder keeps the length and is a permutation |
| SortableList.MovedOrder | src/components/SortableList.tsx:10-12 | the dragged item ends at the landing index, and without it the others keep their relative order |
| SortableList.MovedFromPastEnd | src/components/SortableList.tsx:11-12 | a source past the end inserts `undefined` and grows the list by one |
| SortableList.HandleDragEnd | src/components/SortableList.tsx:7-16 | no destination means no callback; otherwise the callback gets the moved list |
| SortableList.CopyOf | src/components/SortableList.tsx:10 | the copy is a fresh array with the same items |
| SortableList.ShiftInto | src/components/SortableList.tsx:11-12 | in place: the item lands at the landing index and everything between shifts one step toward the gap |
| SortableList.Moved | src/components/SortableList.tsx:10-12 | the two splices on a copy; `SortableList.MovedAt`, `MovedPermutation`, `MovedOrder` and `MovedFromPastEnd` state the result |
| ScrollToField.DigitRun | src/components/useScrollToField.tsx:18 | the greedy `\d+`: every character in the run is a digit and the one after it is not |
| ScrollToField.FirstBracket | src/components/useScrollToField.tsx:18 | the leftmost match of `\[(\d+)\]`: a match there and none before it, or none at all |
| ScrollToField.ReplaceIndex | src/components/useScrollToField.tsx:18 | without a bracketed index the segment is unchanged |
| ScrollToField.CleanAll | src/components/useScrollToField.tsx:17-18 | every segment cleaned where it stands |
| ScrollToField.IdShape | src/components/useScrollToField.tsx:9-33 | every id starts with `root_`; a special segment's id ends with the double underscore and its bare name |
| ScrollToField.SpecialSuffix | src/components/useScrollToField.tsx:3 | the part after the double underscore is `description`, `title` or `help` |
| ScrollToField.SpecialAlone | src/components/useScrollToField.tsx:23 | a special segment with an empty base gives `root__` and the bare suffix |
| ScrollToField.ExtendId | src/components/useScrollToField.tsx:27-32 | in the normal case one more segment appends `_` and the cleaned segment to the id |
| ScrollToField.CleanPlain | src/components/useScrollToField.tsx:30 | a segment without brackets loses only its `ui:` prefix |
| ScrollToField.CleanIndex | src/components/useScrollToField.tsx:30 | an indexed segment `name[n]` becomes `name_n` |
| ScrollToField.Candidates | src/components/useScrollToField.tsx:35-37 | one id per prefix of the path |
| ScrollToField.ScrollTarget | src/components/useScrollToField.tsx:35-45 | the chosen prefix is the longest one whose element exists; none is chosen exactly when no prefix's element exists |
| ScrollToField.LastPresent | src/components/useScrollToField.tsx:35-45 | the countdown stops at the largest index whose id is present, and finds nothing exactly when none is |
| ScrollToField.MakeId | src/components/useScrollToField.tsx:9-33 | `makeId`; `ScrollToField.IdShape`, `SpecialAlone` and `ExtendId` state the `root_` prefix, the special-suffix form and how one more segment extends the id |
| ScrollToField.Clean | src/components/useScrollToField.tsx:30-31 | one segment's cleaning; `ScrollToField.CleanPlain` and `CleanIndex` state the dropped `ui:` and the `[n]` to `_n` rewrite |
| SchemaBuilder.ImportErrors | src/components/SchemaBuilder.tsx:111-141 | the missing-fields message is shown exactly when `schema` or `ui-schema` is falsy; every other failure carries the merge-error prefix |
| SchemaBuilder.ImportStoresOriginal | src/components/SchemaBuilder.tsx:112-134 | an import succeeds exactly when both fields are truthy and the pipeline does not throw, and it stores the JSON schema as given, not its resolved copy |
| SchemaBuilder.ResolvedOnlyWithDefinitions | src/components/SchemaBuilder.tsx:116-122 | without truthy `definitions` the generator sees the schema itself (and no recursion bound matters); with them it sees a schema without `definitions` |
| SchemaBuilder.GeneratedWins | src/components/SchemaBuilder.tsx:122-128 | the stored UI schema has the keys of both; a key the generator does not produce keeps the normalised imported value, every generated key holds the generated value merged over the imported one |
| SchemaBuilder.PlainUiSchema | src/components/SchemaBuilder.tsx:122-136 | an imported UI schema with no `ui:options` object to dissolve is merged as it is |
| SchemaBuilder.ExportRoundTrip | src/components/SchemaBuilder.tsx:45-50 | the payload holds exactly `schema` and `ui-schema` (the UI schema uncleaned), and importing it again stores the same JSON schema |
| SchemaBuilder.BlankIsWhitespace | src/components/SchemaBuilder.tsx:99 | a paste is rejected as blank exactly when every character is white space |
| SchemaBuilder.Builder.constructor | src/components/SchemaBuilder.tsx:31-39 | the builder starts on the given schemas with the dialog closed, no error and no paste |
| SchemaBuilder.Builder.OpenImportModal | src/components/SchemaBuilder.tsx:65-69 | the dialog opens with an empty paste and no error; the schemas stay |
| SchemaBuilder.Builder.PasteChange | src/components/SchemaBuilder.tsx:71-73 | only the pasted text changes |
| SchemaBuilder.Builder.FilePickerClick | src/components/SchemaBuilder.tsx:75-81 | the import error is cleared; nothing else changes (opening the file dialog is DOM work) |
| SchemaBuilder.Builder.ProcessImportedData | src/components/SchemaBuilder.tsx:111-141 | on success both schemas are stored and the dialog closes; on any error only the message is set |
| SchemaBuilder.Builder.HandleImportConfirm | src/components/SchemaBuilder.tsx:98-109 | a blank paste or a parse error only sets its message; parsed text is imported |
| SchemaBuilder.Builder.HandleFileLoaded | src/components/SchemaBuilder.tsx:87-94 | a parse error only sets the invalid-file message; parsed content is imported |
| SchemaBuilder.Builder.ExportData | src/components/SchemaBuilder.tsx:47-50 | the payload carries the current JSON schema and UI schema |
| SchemaBuilder.Builder.FormUiSchema | src/components/SchemaBuilder.tsx:177 | the UI schema the form renders has nothing left to clean |
| SchemaBuilder.Pipeline | src/components/SchemaBuilder.tsx:116-128 | resolve, generate, normalise and merge, run in order, give the specified result or exception |
| SchemaBuilder.Import | src/components/SchemaBuilder.tsx:111-141 | the import outcome; `SchemaBuilder.ImportErrors`, `ImportStoresOriginal` and `ResolvedOnlyWithDefinitions` state the messages, the stored schema and when references are resolved |
| SchemaBuilder.MergedImport | src/components/SchemaBuilder.tsx:113-128 | the merged UI schema; `SchemaBuilder.GeneratedWins` and `SchemaBuilder.PlainUiSchema` state the merge precedence |
| Json.Read | src/utils/uiSchemaHelpers.ts:89 | reading a member throws exactly on `undefined` and `null` |
| Json.HasProp | src/utils/uiSchemaHelpers.ts:415 | `k in v` is defined exactly on objects and arrays, and on an object tells whether it has the key |
| Json.SetProp | src/components/UISchemaEditorForm.tsx:34 | assignment succeeds exactly on objects and arrays, keeps their kind, and the key then reads as the value |
| Json.DeleteProp | src/components/UISchemaEditorForm.tsx:32 | deletion throws on `undefined`/`null`, keeps the kind, and the key then reads as `undefined` |
| Json.Put | src/utils/uiSchemaHelpers.ts:361 | after `obj[k] = v` the key reads `v` and every other key as before |
| Json.Remove | src/components/UISchemaEditorForm.tsx:32 | after `delete obj[k]` the key is gone and every other key is as before |
| Json.PutAllLast | src/utils/uiSchemaHelpers.ts:431 | entries copied one by one: the last write to a key wins |
| Json.Clone | src/utils/uiSchemaHelpers.ts:376 | the JSON round-trip copy fails exactly on `undefined` |
| Json.ToNumber | src/utils/uiSchemaHelpers.ts:304 | `Number(v)` for JSON values: numbers are kept, text goes through `Strings.StringToNumber`, `[]` is 0, `undefined`, objects and arrays of two or more elements are NaN |
| Json.NumberOfIntText | src/utils/uiSchemaHelpers.ts:304 | the text of an integer, the one-element array of it and the one-element array of its text all convert back to it |
| Json.CloneOfParsed | src/utils/uiSchemaHelpers.ts:423 | a value without `undefined` (anything parsed from JSON) is copied exactly |
| Json.CloneFieldsLookup | src/utils/uiSchemaHelpers.ts:376 | a copied object holds a copy of each defined value and drops the `undefined` ones |
| Json.FindNotNullString | src/utils/uiSchemaHelpers.ts:101-103 | never "null": an element of the list (the first when it is not "null"), or `undefined` when every element is "null" |
| Strings.ParseNatToString | src/components/UISchemaEditorForm.tsx:38 | the decimal rendering of an index is the key of that index |
| Strings.ParseIndexCanonical | src/components/UISchemaEditorForm.tsx:34 | a canonical index key is the rendering of its own value |
| Strings.ToLower | src/utils/uiSchemaHelpers.ts:227 | lower-casing maps each character and keeps the length |
| Strings.Capitalize | src/utils/uiSchemaHelpers.ts:285 | the first character upper-cased, the rest kept |
| Strings.ReplaceFirst | src/utils/uiSchemaHelpers.ts:384 | a string without the pattern is unchanged |
| Strings.Split | src/utils/uiSchemaHelpers.ts:410 | splitting always yields at least one part |
| Strings.TrimStart | src/components/SchemaBuilder.tsx:99 | exactly the leading white space is removed |
| Strings.TrimEnd | src/components/SchemaBuilder.tsx:99 | exactly the trailing white space is removed |
| Strings.StringToNumber | src/utils/uiSchemaHelpers.ts:304 | blank text converts to 0, other text to the value of the trimmed decimal integer literal, if it is one |
| Strings.StringToNumberOfInt | src/utils/uiSchemaHelpers.ts:304 | `Number(String(i))` is `i` for every integer |
| Wrappers.CollectOk | src/utils/uiSchemaHelpers.ts:269-271 | a run of steps that may throw does not throw exactly when no step throws |
| Wrappers.CollectStop | src/utils/uiSchemaHelpers.ts:269-271 | once a step has thrown, the whole run throws the same exception |

## Left out

- `src/components/fvdfdv.js` repeats `determineFieldType`, `applyWidgetDefaults` and `generateUISchema` of `src/utils/uiSchemaHelpers.ts`; the only difference is the path labels it passes down, and those are never read. It is modelled once, through `Generator` and `GeneratorImpl`.
- The worked example call at the end of `src/components/fvdfdv.js` (the auction schema with flattened options) is not evaluated. Its facts are instances of general lemmas: `GeneratorImpl.UiNode.RootDirectives` for the root directives, `GeneratorNodes.NodeOrder` and `GeneratorNodes.NodeProperty` for the root order and children, `GeneratorNodes.HandleStringPlaceholder` and `GeneratorNodes.FinishValues` for `kernel_address`, `FieldType.NullableType` and `GeneratorNodes.HandleArrayItems`/`GeneratorNodes.HandleArrayOptions` for the nullable arrays.
- The `path` argument of `processSchema` is passed down but never read, so it is not modelled.
- Numbers are integers. Floating point and `Infinity` are not modelled. A conversion that gives `NaN` is written as `null`, which is what the exported JSON shows for it.
- Generator.ClampRows: `Number` is modelled for decimal integer text only. Fractions ("7.5"), exponents ("1e1"), hexadecimal, octal and binary literals ("0x8") and "Infinity" are read as NaN here, while JavaScript reads them as numbers.
- Objects are ordered entry lists in insertion order. JavaScript lists integer-like keys first, in ascending order; that reordering is not modelled.
- Property reads see own data only. Inherited members (`length`, `toString`, `constructor`) are not modelled.
- JSON text is not parsed or printed. `JSON.parse` of the pasted text or of the loaded file is a parameter (`parsed`) of `SchemaBuilder.Builder.HandleImportConfirm` and `SchemaBuilder.Builder.HandleFileLoaded`. `JSON.parse(JSON.stringify(x))` is the value copy `Json.Clone`.
- A thrown error shows as its name (`TypeError`, `RangeError`, `SyntaxError`) or `Error: ` and its message. The engine's own message text after a built-in error's name is not modelled.
- Browser I/O is not modelled: `FileReader`, `Blob`, `URL.createObjectURL` and the download anchor, `scrollIntoView`, and every `console.log`. `document.getElementById` is a parameter: the set of element ids on the page.
- React scheduling is not modelled. State setters are field writes done at once. The effect that reports `localSchema` through `onChange` (`src/components/UISchemaEditorForm.tsx:75-77`) is not modelled. Neither is the effect dependency of `useScrollToField`, nor the tab and "show cleaned" state of `SchemaBuilder.tsx`.
- The fixtures `defaultJsonSchema` and the initial UI schema of `src/constants.ts` are not transcribed. They are the arguments of `SchemaBuilder.Builder.constructor`. `widgetOptions` and `allowedWidgetsMapping` are transcribed.
- Immer's structural sharing and freezing are not modelled. Trees are values, so the previous state is never changed by an update.
- When an update recipe throws, `SchemaEditor.Apply` keeps the old state. In React the exception would propagate out of the state update.
- `resolveRefs` overwrites members of the schema it walks, and that schema is also the root its pointers are read from. A pointer read after such an overwrite can see the resolved member. `ResolveRefs.Resolve` always reads pointers against the original root.
- Both resolvers recurse without cycle detection. A recursion bound (`fuel`) stands in for the engine's call stack, and `RangeError` is the result when the bound is exhausted. `ResolveSchema.FuelMonotone` shows that a larger bound never changes a result that succeeded.
- Strict-mode semantics are assumed: a property write or delete on a primitive throws. A named (non-index) key written on an array is dropped, since no JSON value can hold it. A write past an array's end fills the gap with `undefined`, and deleting an element leaves `undefined` in its place.
- `SortableList.HandleDragEnd`: when the source index is past the end, the copy grows by one `undefined`. An `array` cannot grow, so that case builds the list as a sequence and not in place.
- `Strings.ToLower` and `Strings.Capitalize` map ASCII letters only. Unicode case mapping is not modelled.
- `Strings.Split`: its contract states only that there is at least one part. The parts are fixed by its definition, and the walk over them is what the `ResolveRefs` lemmas reason about.
- `Strings.ReplaceFirst`: its contract states only the case with no occurrence. The replaced text is fixed by its definition.
- `GeneratorNodes.RootAccess` is stated for roots that are not arrays or objects. An object root can hold a property named `ui:readonly`, and an array root with enum items takes over the item node's keys, which include both access keys.
- `Cleaner.CleanElems`: its own contract states only that the array does not grow. What each element becomes is stated by `Cleaner.CleanIsClean` and `Cleaner.CleanOfClean`.
- View components (`ShadcnRjsfForm.tsx`, `Field.tsx`, `EmptyValueField.tsx`, `ErrorBoundary.tsx`), the debounce hook and the lint configuration are not part of this model.
