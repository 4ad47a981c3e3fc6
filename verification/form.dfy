/** The configuration state of the form component: the DSL setters and the
    readers with defaults, the configuration check, and the lookups of the
    attribute group a form builds its schema and its field helper from. */
module Form {
  import opened Common
  import opened ModelMixin

  /** The instance variables the form DSL sets; `None` and `false` stand for
      variables never assigned. */
  datatype FormState = FormState(
    formFields: Option<string>,
    skippedCancel: bool,
    attrGroupKey: Option<string>,
    schemaWrapperKey: Option<Name>,
    schemaBlock: Option<Block>)

  datatype FormError = BlankFormFields | SchemaWithoutBlock | MissingAttrGroup(key: string)

  /** The record a form edits: its model's singular name and the attribute
      groups its class reads. */
  datatype Data = Data(singularModelName: string, classAttrGroups: Groups)

  /** The schema block a form uses: the one given to `schema`, or the one
      derived from an attribute group, which may be missing. */
  datatype SchemaBlock = GivenBlock(block: Block) | DerivedBlock(group: Option<AttrGroup>)

  /** A form before any DSL call. */
  function InitialForm(): (st: FormState)
    ensures st.formFields.None? && !st.skippedCancel && st.attrGroupKey.None?
    ensures st.schemaWrapperKey.None? && st.schemaBlock.None?
  {
    FormState(None, false, None, None, None)
  }

  /** `form_fields(form_fields = nil)`: without an argument a reader of the
      stored content; with one, stores it and returns it. */
  function FormFields(st: FormState, arg: Option<string>): (r: (FormState, Option<string>))
    ensures arg.None? ==> r.0 == st && r.1 == st.formFields
    ensures arg.Some? ==> r.0 == st.(formFields := arg) && r.1 == arg
  {
    match arg
    case None => (st, st.formFields)
    case Some(f) => (st.(formFields := Some(f)), Some(f))
  }

  /** `check_config!`: a form whose fields are blank is misconfigured. */
  function CheckConfig(st: FormState): (r: Result<(), FormError>)
    ensures r.Fail? <==> BlankText(st.formFields)
    ensures r.Fail? ==> r.error == BlankFormFields
  {
    if BlankText(st.formFields) then Fail(BlankFormFields) else Ok(())
  }

  /** `skip_cancel`. */
  function SkipCancel(st: FormState): (r: FormState)
    ensures r.skippedCancel
    ensures r.(skippedCancel := st.skippedCancel) == st
  {
    st.(skippedCancel := true)
  }

  /** The cancel button is built before rendering unless it was skipped. */
  predicate BuildsCancelButton(st: FormState)
  {
    !st.skippedCancel
  }

  /** `attr_group_key`: the key set by the DSL, `:default` until then. */
  function AttrGroupKey(st: FormState): (k: string)
    ensures st.attrGroupKey.Some? ==> k == st.attrGroupKey.value
    ensures st.attrGroupKey.None? ==> k == "default"
  {
    match st.attrGroupKey
    case None => "default"
    case Some(k) => k
  }

  /** `attr_group(attr_group_key)`: selects the attribute group by its
      symbolized key. */
  function SetAttrGroup(st: FormState, key: Name): (r: FormState)
    ensures AttrGroupKey(r) == ToSym(key)
    ensures r.(attrGroupKey := st.attrGroupKey) == st
  {
    st.(attrGroupKey := Some(ToSym(key)))
  }

  /** `schema(wrapper_key, &block)`: without a block it raises and sets
      nothing; with one it stores the wrapper key and the block. */
  function Schema(st: FormState, wrapperKey: Option<Name>, block: Option<Block>): (r: Result<FormState, FormError>)
    ensures r.Fail? <==> block.None?
    ensures r.Fail? ==> r.error == SchemaWithoutBlock
    ensures r.Ok? ==> r.value == st.(schemaWrapperKey := wrapperKey, schemaBlock := block)
  {
    if block.None? then Fail(SchemaWithoutBlock)
    else Ok(st.(schemaWrapperKey := wrapperKey, schemaBlock := block))
  }

  /** `schema_wrapper_key_for(data)`: the key given to `schema` when it is
      present, else the data's singular model name. */
  function SchemaWrapperKeyFor(st: FormState, data: Data): (k: Name)
    ensures !BlankName(st.schemaWrapperKey) ==> k == st.schemaWrapperKey.value
    ensures BlankName(st.schemaWrapperKey) ==> k == Str(data.singularModelName)
  {
    if !BlankName(st.schemaWrapperKey) then st.schemaWrapperKey.value
    else Str(data.singularModelName)
  }

  /** `schema_block_for(data)`: the block given to `schema`, else one derived
      from the data class's attribute group under the current key. A missing
      group does not fail here; only evaluating the derived block would. */
  function SchemaBlockFor(st: FormState, data: Data): (b: SchemaBlock)
    ensures st.schemaBlock.Some? ==> b == GivenBlock(st.schemaBlock.value)
    ensures st.schemaBlock.None? && AttrGroupKey(st) in data.classAttrGroups ==>
      b == DerivedBlock(Some(data.classAttrGroups[AttrGroupKey(st)]))
    ensures st.schemaBlock.None? && AttrGroupKey(st) !in data.classAttrGroups ==> b == DerivedBlock(None)
  {
    match st.schemaBlock
    case Some(blk) => GivenBlock(blk)
    case None =>
      var key := AttrGroupKey(st);
      DerivedBlock(if key in data.classAttrGroups then Some(data.classAttrGroups[key]) else None)
  }

  /** `form_helper_for_attr_group_key(form)`: the attribute group of the form
      object's class under the current key, from which the field helper is
      built; raises when the class has no such group. */
  function FormHelperFor(st: FormState, objectGroups: Groups): (r: Result<AttrGroup, FormError>)
    ensures r.Ok? <==> AttrGroupKey(st) in objectGroups
    ensures r.Ok? ==> r.value == objectGroups[AttrGroupKey(st)]
    ensures r.Fail? ==> r.error == MissingAttrGroup(AttrGroupKey(st))
  {
    var key := AttrGroupKey(st);
    if key in objectGroups then Ok(objectGroups[key]) else Fail(MissingAttrGroup(key))
  }

  // ---------------------------------------------------------------------
  // A form's DSL calls, run in order
  // ---------------------------------------------------------------------

  datatype Call =
    | FormFieldsCall(fields: Option<string>)
    | SkipCancelCall
    | AttrGroupCall(key: Name)
    | SchemaCall(wrapperKey: Option<Name>, block: Option<Block>)

  function Apply(st: FormState, c: Call): Result<FormState, FormError>
  {
    match c
    case FormFieldsCall(f) => Ok(FormFields(st, f).0)
    case SkipCancelCall => Ok(SkipCancel(st))
    case AttrGroupCall(k) => Ok(SetAttrGroup(st, k))
    case SchemaCall(w, b) => Schema(st, w, b)
  }

  /** Runs DSL calls from a fresh form; the first raising call stops it. */
  function Configure(calls: seq<Call>): Result<FormState, FormError>
  {
    if |calls| == 0 then Ok(InitialForm())
    else match Configure(calls[..|calls| - 1])
      case Fail(e) => Fail(e)
      case Ok(st) => Apply(st, calls[|calls| - 1])
  }

  /** The content given by the last `form_fields` call with an argument. */
  function LastFormFields(calls: seq<Call>): Option<string>
  {
    if |calls| == 0 then None
    else match calls[|calls| - 1]
      case FormFieldsCall(Some(f)) => Some(f)
      case _ => LastFormFields(calls[..|calls| - 1])
  }

  /** The symbolized key of the last `attr_group` call. */
  function LastAttrGroup(calls: seq<Call>): Option<string>
  {
    if |calls| == 0 then None
    else match calls[|calls| - 1]
      case AttrGroupCall(k) => Some(ToSym(k))
      case _ => LastAttrGroup(calls[..|calls| - 1])
  }

  /** The last `schema` call. */
  function LastSchema(calls: seq<Call>): (r: Option<Call>)
    ensures r.Some? ==> r.value.SchemaCall? && r.value in calls
  {
    if |calls| == 0 then None
    else if calls[|calls| - 1].SchemaCall? then Some(calls[|calls| - 1])
    else LastSchema(calls[..|calls| - 1])
  }

  /** Some `schema` call was made without a block. */
  predicate HasBlocklessSchema(calls: seq<Call>)
  {
    exists i :: 0 <= i < |calls| && calls[i].SchemaCall? && calls[i].block.None?
  }

  /** A run of DSL calls fails exactly when a `schema` call lacked a block. */
  lemma {:induction false} ConfigureFails(calls: seq<Call>)
    ensures Configure(calls).Fail? <==> HasBlocklessSchema(calls)
    ensures Configure(calls).Fail? ==> Configure(calls).error == SchemaWithoutBlock
  {
    if |calls| > 0 {
      var init := calls[..|calls| - 1];
      ConfigureFails(init);
      if HasBlocklessSchema(init) {
        var i :| 0 <= i < |init| && init[i].SchemaCall? && init[i].block.None?;
        assert calls[i] == init[i];
      }
    }
  }

  /** The stored form content is the last one given. */
  lemma {:induction false} ConfiguredFormFields(calls: seq<Call>)
    requires Configure(calls).Ok?
    ensures Configure(calls).value.formFields == LastFormFields(calls)
  {
    if |calls| > 0 {
      ConfiguredFormFields(calls[..|calls| - 1]);
    }
  }

  /** The attribute group key is the last one selected, else `:default`. */
  lemma {:induction false} ConfiguredAttrGroupKey(calls: seq<Call>)
    requires Configure(calls).Ok?
    ensures AttrGroupKey(Configure(calls).value) ==
      (if LastAttrGroup(calls).Some? then LastAttrGroup(calls).value else "default")
  {
    if |calls| > 0 {
      ConfiguredAttrGroupKey(calls[..|calls| - 1]);
    }
  }

  /** The cancel button is skipped once any call skipped it. */
  lemma {:induction false} ConfiguredSkip(calls: seq<Call>)
    requires Configure(calls).Ok?
    ensures Configure(calls).value.skippedCancel <==> SkipCancelCall in calls
  {
    if |calls| > 0 {
      var init := calls[..|calls| - 1];
      ConfiguredSkip(init);
      assert calls == init + [calls[|calls| - 1]];
    }
  }

  /** The schema wrapper key and block are those of the last `schema` call. */
  lemma {:induction false} ConfiguredSchema(calls: seq<Call>)
    requires Configure(calls).Ok?
    ensures LastSchema(calls).None? ==>
      Configure(calls).value.schemaBlock.None? && Configure(calls).value.schemaWrapperKey.None?
    ensures LastSchema(calls).Some? ==>
      Configure(calls).value.schemaBlock == LastSchema(calls).value.block &&
      Configure(calls).value.schemaWrapperKey == LastSchema(calls).value.wrapperKey
  {
    if |calls| > 0 {
      ConfiguredSchema(calls[..|calls| - 1]);
    }
  }

  /** The wrapper key a configured form uses: the one the last `schema`
      call gave when it is present, else the record's singular model name,
      also when `schema` was never called. */
  lemma ConfiguredWrapperKey(calls: seq<Call>, data: Data)
    requires Configure(calls).Ok?
    ensures LastSchema(calls).None? || BlankName(LastSchema(calls).value.wrapperKey) ==>
      SchemaWrapperKeyFor(Configure(calls).value, data) == Str(data.singularModelName)
    ensures LastSchema(calls).Some? && !BlankName(LastSchema(calls).value.wrapperKey) ==>
      SchemaWrapperKeyFor(Configure(calls).value, data) == LastSchema(calls).value.wrapperKey.value
  {
    ConfiguredSchema(calls);
  }

  /** A configured form passes `check_config!` exactly when the last
      `form_fields` content given is not blank. */
  lemma ConfiguredFormChecks(calls: seq<Call>)
    requires Configure(calls).Ok?
    ensures CheckConfig(Configure(calls).value).Fail? <==> BlankText(LastFormFields(calls))
  {
    ConfiguredFormFields(calls);
  }

  /** A configured form builds its cancel button exactly when no call
      skipped it. */
  lemma ConfiguredCancelButton(calls: seq<Call>)
    requires Configure(calls).Ok?
    ensures BuildsCancelButton(Configure(calls).value) <==> SkipCancelCall !in calls
  {
    ConfiguredSkip(calls);
  }

  /** `form_fields` reads back what it stored, and reading changes nothing. */
  lemma FormFieldsRoundTrip(st: FormState, f: string)
    ensures FormFields(FormFields(st, Some(f)).0, None) == (st.(formFields := Some(f)), Some(f))
  {
  }

  /** A form without an explicit schema, on a record whose class registered
      the group the form selects, derives its schema from that group and
      builds its field helper from it. */
  lemma DerivedSchemaUsesRegisteredGroup(lineage: Lineage, i: nat, name: Name, inherit: Option<Name>,
                                         define: AttrGroup -> seq<string>, calls: seq<Call>, singular: string)
    requires i < |lineage|
    requires Configure(calls).Ok? && LastSchema(calls).None?
    requires LastAttrGroup(calls) == Some(ToSym(name))
    ensures var r := DefineAttrGroup(lineage, i, name, inherit, define);
      var groups := AttrGroupsAt(r.lineage, i);
      SchemaBlockFor(Configure(calls).value, Data(singular, groups)) == DerivedBlock(Some(r.group)) &&
      FormHelperFor(Configure(calls).value, groups) == Ok(r.group)
  {
    ConfiguredAttrGroupKey(calls);
    ConfiguredSchema(calls);
  }

  /** Without any `attr_group` call a form looks up the `:default` group:
      a record class lacking one makes the field helper raise. */
  lemma DefaultGroupRequired(calls: seq<Call>, groups: Groups)
    requires Configure(calls).Ok? && LastAttrGroup(calls).None?
    ensures FormHelperFor(Configure(calls).value, groups).Ok? <==> "default" in groups
  {
    ConfiguredAttrGroupKey(calls);
  }
}
