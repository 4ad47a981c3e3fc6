# Compony standalone access, form configuration and attribute groups in Dafny

This project models three pieces of the Compony component framework for Rails.

- The **standalone mixin** of a component:
  - the request lifecycle `on_standalone_access` runs when a request enters a component. It starts with the root-component guard. It then runs load data and its global after-hook, assign attributes and its global after-hook, authorize, store data, and finally the respond block chosen by format with a `nil` fallback;
  - the authorize-only check `standalone_access_permitted_for?`;
  - render finalization `render_standalone`;
  - the `standalone` DSL, which deep-merges each declaration into the configuration stored under its symbolized name, starting from `init_standalone`'s empty map.
- The **form component's** configuration:
  - `form_fields`, `skip_cancel`, `attr_group` and `schema`;
  - the readers with defaults `attr_group_key`, `schema_wrapper_key_for` and `schema_block_for`;
  - `check_config!`;
  - `form_helper_for_attr_group_key`.
- The **model mixin's** `attr_groups` class attribute and its copy-on-write `attr_group` class method.

Modules:

- `Common`: Ruby `nil`, raising computations, String-versus-Symbol names, Symbol-or-`nil` hash keys, opaque blocks, and `blank?`.
- `ConfigTree`: nested configuration hashes and `Hash#deep_merge!`, with its laws. A later leaf wins; an untouched earlier value survives; merging commutes with descending; merging is idempotent.
- `Standalone`: root registration, the lifecycle, dispatch, the access check, render finalization and the `standalone` DSL.
- `StandaloneFacts`: properties across several operations. These cover repeated declarations, override versus inheritance of respond blocks, two roots in one request, the access check versus dispatch, and the render name lookup.
- `ModelMixin`: attribute groups along a superclass chain. A `class_attribute` is modelled as a sequence of per-class optional maps.
- `Form`: the form's DSL state, its readers and checks, and runs of DSL calls.

A block is an opaque token. The model records which block the lifecycle evaluates, in which phase, and whether it is evaluated "with backfire". The authorize block's truth value comes from the request. The request format, the root-component marker (request-local in the source) and the configuration the DSL block produces are all parameters.

## Model

| member | source | states |
|---|---|---|
| Standalone.RespondBlocksOf | lib/compony/component_mixins/default/standalone.rb:64 | The respond blocks read from a verb's configuration are exactly the blocks stored under `respond_blocks`, each under its own format key. |
| Standalone.SelectRespond | lib/compony/component_mixins/default/standalone.rb:64 | A block is selected exactly when the format or `nil` has one. The format's own block is preferred, and otherwise the `nil` block is used. |
| Standalone.RegisterRoot | lib/compony/component_mixins/default/standalone.rb:19-22 | A component without a parent raises exactly when a root is already registered, and the error carries both components. Otherwise it becomes the root. A component with a parent leaves the marker as it was. |
| Standalone.RunLifecycle | lib/compony/component_mixins/default/standalone.rb:41-65 | The evaluations follow lifecycle order, each is a block of the verb config or the hooks, and only authorize and respond run without backfire. Each phase runs exactly under its condition: an after-hook only when its step exists, store data only once authorized. A falsy authorize raises access-denied. The respond block is evaluated last and is the format's block, else the `nil` block. |
| Standalone.Dispatch | lib/compony/component_mixins/default/standalone.rb:17-66 | A root conflict raises before any block is evaluated and leaves the marker unchanged. Otherwise the marker is the registered one and the evaluations and outcome are those of the lifecycle. |
| Standalone.AccessPermitted | lib/compony/component_mixins/default/standalone.rb:74-80 | Name and verb are symbolized. A missing configuration or verb raises. The check succeeds exactly when the verb has an authorize block; it then evaluates only that block and answers its result. |
| Standalone.AccessPermittedByDefault | lib/compony/component_mixins/default/standalone.rb:74 | The default query is for the `nil` entry point and `:get`. A missing entry point raises. It succeeds exactly when that configuration, verb and authorize block exist. It then evaluates only that authorize block and answers its result. |
| Standalone.RenderStandalone | lib/compony/component_mixins/default/standalone.rb:84-97 | A blank render emits nothing. Otherwise it emits one HTML render with the named configuration's layout, and the status only when present. It raises exactly when the raw name finds no configuration. |
| Standalone.RenderStandaloneSymbolized | lib/compony/component_mixins/default/standalone.rb:84-97 | The same finalization, but the name is looked up after `&.to_sym`. It raises exactly when the symbolized name has no configuration. |
| Standalone.AccessPermittedAsWritten | lib/compony/component_mixins/default/standalone.rb:74-80 | The access check as written. A missing configuration raises an error that reports `nil`, as line 77's message does. On every other input it is the access check. |
| Standalone.InitStandalone | lib/compony/component_mixins/default/standalone.rb:111-113 | No standalone name has a configuration. |
| Standalone.BlockOf | lib/compony/component_mixins/default/standalone.rb:103 | A declaration without a block is evaluated with the empty block, otherwise with its own block. |
| Standalone.Declare | lib/compony/component_mixins/default/standalone.rb:102-107 | Only the symbolized name's entry changes. The entry becomes the old configuration, or an empty hash, deep-merged with the declaration's configuration. |
| StandaloneFacts.DeclareAllResolves | lib/compony/component_mixins/default/standalone.rb:102-107 | After a run of declarations a name has a configuration exactly when something was declared for it. That configuration is the in-order deep merge of everything declared for it. |
| StandaloneFacts.LaterDeclarationWins | lib/compony/component_mixins/default/standalone.rb:102-106 | Whatever a declaration's arguments and block put at a path is what its name's configuration holds there afterwards, so a later `path:` overrides an earlier one. |
| StandaloneFacts.InheritedRespondSurvives | lib/compony/component_mixins/default/standalone.rb:106 | An inherited respond block survives a later declaration that does not reach its path. An authorized dispatch in that format evaluates it. |
| StandaloneFacts.OverridingRespondWins | lib/compony/component_mixins/default/standalone.rb:106 | A later declaration's respond block for a verb and format replaces the inherited one. |
| StandaloneFacts.SecondRootFails | lib/compony/component_mixins/default/standalone.rb:19-22 | A second parentless dispatch in the same request raises a root conflict that carries both components. It evaluates no block and leaves the first root registered. |
| StandaloneFacts.ChildLeavesRoot | lib/compony/component_mixins/default/standalone.rb:19-22 | A component with a parent never touches the root marker and gets the lifecycle's outcome. |
| StandaloneFacts.AccessAgreesWithDispatch | lib/compony/component_mixins/default/standalone.rb:56-79 | The check evaluates the same authorize block as a dispatch of that verb. If the caller has loaded the data the block reads, so that it answers the same in both, the dispatch is denied exactly when the check answers false. |
| StandaloneFacts.AccessCanDisagreeWithDispatch | lib/compony/component_mixins/default/standalone.rb:70-79 | Without that caller duty the check may permit a verb whose dispatch, after loading data, is denied. |
| StandaloneFacts.MissingConfigMessageIgnoresName | lib/compony/component_mixins/default/standalone.rb:77 | Two different missing names give the same error from the check as written. The corrected check reports the name, so they give different errors. |
| StandaloneFacts.AccessSymbolizes | lib/compony/component_mixins/default/standalone.rb:75-76 | String and Symbol arguments with the same text evaluate the same blocks and give the same answer. |
| StandaloneFacts.RenderMissesStringName | lib/compony/component_mixins/default/standalone.rb:88 | With the lookup as written, a String name misses a configuration declared under that name and a non-blank render raises. The symbolized lookup finds it, and a Symbol name behaves like the symbolized lookup. |
| StandaloneFacts.RenderUsesDeclaredLayout | lib/compony/component_mixins/default/standalone.rb:88-106 | With the symbolized lookup, a layout given in the latest declaration for a name is the layout that name's page is rendered with. The lookup as written agrees for a Symbol name and for the unnamed entry point. |
| StandaloneFacts.RespondSelectionIsPerFormat | lib/compony/component_mixins/default/standalone.rb:64 | Adding a block for one format does not change what another format selects. A format without a block falls back to the `nil` block. |
| ConfigTree.LaterLeafWins | lib/compony/component_mixins/default/standalone.rb:106 | A scalar or block in the later configuration is the merged value at its path, whatever the earlier one held there. |
| ConfigTree.EarlierSurvives | lib/compony/component_mixins/default/standalone.rb:106 | A value of the earlier configuration at a path the later one does not reach survives the merge. |
| ConfigTree.MergeAtSharedPath | lib/compony/component_mixins/default/standalone.rb:106 | Where both configurations hold a hash at a path, the merge holds the merge of the two hashes there. |
| ConfigTree.MergeIdempotent | lib/compony/component_mixins/default/standalone.rb:106 | Merging a configuration into itself leaves it unchanged. |
| ConfigTree.DeepMerge | lib/compony/component_mixins/default/standalone.rb:106 | Merging two hashes keeps exactly the keys of both. A key only one side holds keeps that side's value. A non-hash on either side yields the later value. |
| ConfigTree.MergeIntoEmpty | lib/compony/component_mixins/default/standalone.rb:105-106 | The first declaration for a name, merged into the fresh empty hash, is taken as it is. |
| ConfigTree.MergeEmpty | lib/compony/component_mixins/default/standalone.rb:106 | Merging an empty configuration changes nothing. |
| ModelMixin.AttrGroupsAt | lib/compony/model_mixin.rb:6 | A class reads its own map if it assigned one. Otherwise it reads the map of the nearest superclass that assigned one, or the `{}` default when none did. |
| ModelMixin.Included | lib/compony/model_mixin.rb:5-7 | Before any group is defined, every class of the chain reads the empty default. |
| ModelMixin.NoOwnMapReadsDefault | lib/compony/model_mixin.rb:6 | A class none of whose ancestors assigned a map reads the `{}` default. |
| ModelMixin.DefineAttrGroup | lib/compony/model_mixin.rb:10-17 | Only the defining class's own map changes. It reads its previous map plus the new group under the symbolized name, with other groups unchanged. The group's base is the group `inherit` names in the copied map, or none when absent or given as a String. Its attributes are those the block declares on it. |
| ModelMixin.SuperclassesUnchanged | lib/compony/model_mixin.rb:12 | Copy-on-write: every superclass of the defining class reads the same map as before. |
| ModelMixin.SubclassesInherit | lib/compony/model_mixin.rb:6-16 | A subclass without a map of its own reads the defining class's new map. |
| ModelMixin.OverridingSubclassUnaffected | lib/compony/model_mixin.rb:12 | A subclass that assigned its own map earlier keeps reading it. |
| ModelMixin.InheritSelfExtendsPrevious | lib/compony/model_mixin.rb:13-16 | Redefining a group with `inherit:` set to its own name bases the new group on the previous definition, which it then replaces. No other name is added. |
| Form.FormFields | lib/compony/components/form.rb:36-39 | Without an argument it reads and changes nothing. With one it stores it and returns it. |
| Form.FormFieldsRoundTrip | lib/compony/components/form.rb:36-39 | Reading after storing returns what was stored. |
| Form.CheckConfig | lib/compony/components/form.rb:7-10 | It raises exactly when the form fields are blank (`nil` or whitespace only). |
| Form.SkipCancel | lib/compony/components/form.rb:42-44 | Sets the skip flag and nothing else. |
| Form.AttrGroupKey | lib/compony/components/form.rb:117-119 | The key set by `attr_group`, else `:default`. |
| Form.BuildsCancelButton | lib/compony/components/form.rb:16-18 | The cancel button is built unless `skip_cancel` was called. |
| Form.SetAttrGroup | lib/compony/components/form.rb:47-49 | The key reader then answers the symbolized key. Nothing else changes. |
| Form.Schema | lib/compony/components/form.rb:99-106 | It raises exactly when no block is given, and then stores nothing. Otherwise it stores the wrapper key and the block. |
| Form.SchemaWrapperKeyFor | lib/compony/components/form.rb:72-79 | A present wrapper key is answered, else the data's singular model name. |
| Form.SchemaBlockFor | lib/compony/components/form.rb:82-94 | The given schema block is answered, else one derived from the data class's group under the current key (`:default` unless set). A missing group does not raise here. |
| Form.FormHelperFor | lib/compony/components/form.rb:110-119 | It succeeds exactly when the form object's class has a group under the current key, and builds from that group. Otherwise it raises naming the key. |
| Form.ConfigureFails | lib/compony/components/form.rb:99-106 | A run of DSL calls raises exactly when some `schema` call lacked a block. |
| Form.ConfiguredFormFields | lib/compony/components/form.rb:36-39 | The stored form content is the last one given. |
| Form.ConfiguredAttrGroupKey | lib/compony/components/form.rb:117-119 | The key read is the last one selected, else `:default`. |
| Form.ConfiguredSkip | lib/compony/components/form.rb:42-44 | The cancel button is skipped exactly when some call skipped it. |
| Form.ConfiguredSchema | lib/compony/components/form.rb:99-106 | The stored wrapper key and block are those of the last `schema` call, or unset when there was none. |
| Form.ConfiguredWrapperKey | lib/compony/components/form.rb:72-79 | A configured form's wrapper key is the one from the last `schema` call when that key is present. Otherwise it is the record's singular model name, also when `schema` was never called. |
| Form.ConfiguredFormChecks | lib/compony/components/form.rb:7-10 | A configured form fails its configuration check exactly when the last form content given is blank. |
| Form.ConfiguredCancelButton | lib/compony/components/form.rb:16-18 | A configured form builds its cancel button exactly when no call skipped it. |
| Form.DerivedSchemaUsesRegisteredGroup | lib/compony/components/form.rb:82-114 | Take a form with no schema that selects a group its record's class registered with `attr_group`. It derives its schema from that group and builds its field helper from it. |
| Form.DefaultGroupRequired | lib/compony/components/form.rb:110-119 | Take a form that never selected a group. Its field helper succeeds exactly when the record's class has a `:default` group. |

## Left out

- Rendering is not modelled: `render`, HAML, simple_form, and how the submit and cancel buttons and the submit path are built. Only whether the cancel button is built is modelled.
- The `autocomplete` DSL method of the form is not modelled. It only declares a further standalone configuration, whose respond block runs a ransack query.
- `RequestContext`, CanCan and the controller are not modelled. A block is an opaque token, and what evaluating it does is not modelled. The authorize result and the request format are inputs. "With backfire" is recorded as a flag only.
- `Standalone.RunLifecycle` treats evaluating a missing authorize block, or a missing respond block, as a failure (`NilBlock`). The source does not check for either; the model assumes that evaluating a `nil` block raises.
- Standalone.AccessPermitted likewise treats a verb without an authorize block as a failure (`NilBlock`), by the same assumption that evaluating a `nil` block raises.
- Standalone.RenderStandalone passes the status on only when it is `present?`, as line 89 does, not whenever one is given. An empty Symbol status is dropped.
- `StandaloneDsl#to_conf` and `MethodAccessibleHash` are not modelled. The configuration a declaration produces is a function parameter (`ToConf`). It receives the symbolized name, the declaration's extra positional and keyword arguments (such as `path:`) as an opaque value, and its block. `verbs`, `respond_blocks`, `layout` and the `*_block` fields are read as the keys of that configuration.
- Standalone.RespondBlocksOf keeps only block values under `respond_blocks`. If a configuration held some other value under a format key, standalone.rb:64's `||` would pick it, and standalone.rb:65 would fail to evaluate it. The model falls back to the `nil` block instead. The DSL stores only blocks there, but a `ToConf` parameter can produce other values.
- The request-local store holding the root component is not modelled. The root marker is passed in and returned. Resetting it between requests is the host's job.
- Form.CheckConfig and Form.ConfiguredFormChecks do not model the call to the superclass's check at form.rb:8, which runs first and may raise on its own. The superclass component is not part of this model, so "exactly when blank" holds only for the form's own check.
- `ModelMixin.DefineAttrGroup` does not model the `AttrGroup` class. Its block is modelled as a function from the new group to the attributes it declares. A block that raises after the map was copied is not modelled. `attrs_for` and `form_helper_for` on a group are not modelled.
- `Common.BlankString` does not model Unicode whitespace. Only the ASCII characters of `[[:space:]]` make a String blank.
- Error message texts are not modelled. Each error value carries the data the model knows at the point of failure. That data is not always what the message prints. The message at standalone.rb:77 prints `nil` (see Findings).
- Standalone.RegisterRoot puts the existing root's id in the conflict error. The guard at standalone.rb:20 tests `Compony.root_comp`, but its message prints the component's own `root_comp` reader. That reader is not part of this model, so it is assumed, not shown, that the message names the registered root.
- StandaloneFacts.AccessAgreesWithDispatch depends on a caller duty. The access check (standalone.rb:79) evaluates authorize in a fresh context without the load-data and assign-attributes phases. The comment at lines 70-72 leaves loading the data beforehand to the caller. The model takes the two authorize answers as separate inputs. Agreement is proved only when they are equal, and StandaloneFacts.AccessCanDisagreeWithDispatch shows what happens otherwise.
- The comment at form.rb:108-109 says the form helper returns `nil` when `attr_group` was never called. The model follows the code instead: it looks up the `:default` group (lines 117-119) and raises when that group is missing (line 112). The template builds this helper on every render (line 25). So every record class a form edits needs a `:default` group unless the form selects another. Form.DefaultGroupRequired states this.
- `lib/compony/version.rb` is not modelled, because it only holds the gem's version constant.

## Findings

| source | as written | input that shows it | evidently intended | confidence | as-written member | corrected member |
|---|---|---|---|---|---|---|
| lib/compony/component_mixins/default/standalone.rb:88 | Looks up the standalone configuration by `standalone_name` as given. The access check (line 75) and the DSL (line 104) both apply `&.to_sym` first. | `render_standalone(controller, standalone_name: 'edit')` with a non-blank render, on a component that declared `standalone :edit`. The lookup misses and `.layout` is called on `nil`. | The name is symbolized as at lines 75 and 104, so the `:edit` configuration's layout is used. | low, not executed | Standalone.RenderStandalone (shown by StandaloneFacts.RenderMissesStringName) | Standalone.RenderStandaloneSymbolized (proved in StandaloneFacts.RenderUsesDeclaredLayout) |
| lib/compony/component_mixins/default/standalone.rb:77 | The missing-configuration message prints `standalone_config.inspect`. That is the local variable the same line is assigning, so it is still `nil` there. | `standalone_access_permitted_for?(controller, standalone_name: :edit)` on a component without `standalone :edit`. The message ends "does not provide the standalone config nil." | The message names the missing standalone name (`standalone_name.inspect`). | medium, not executed | Standalone.AccessPermittedAsWritten (shown by StandaloneFacts.MissingConfigMessageIgnoresName) | Standalone.AccessPermitted (its error carries the missing name) |
