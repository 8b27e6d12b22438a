/** `file_field`: the control class is switched off with `control_class:
    nil`. As written, the input is rendered from the caller's own options,
    which `form_group_builder` does not rewrite (apart from its deletes from
    a label hash, which this model does not capture), so the options only
    the group should see reach the input and the input gets none of the
    classes `form_group_builder` computes. */
module FileFieldProperties {
  import opened RubyValues
  import opened BootstrapForm
  import opened GroupProperties

  /** A help text given to `file_field` is rendered by the group, yet as
      written it also reaches the input as an attribute, and the input gets
      no class; the rewritten options the intended version renders from have
      no help and do have the class. */
  lemma FileFieldAsWrittenLeaksHelp(b: FormBuilder, name: Value)
    ensures var o := map["help" := Str("Max 2MB")];
            var p := b.Prepare(name, FileFieldOptions(o), None);
            && "help" in p.group && p.group["help"] == Str("Max 2MB")
            && "help" in o && "class" !in o
            && "help" !in p.options && "class" in p.options
            && o != p.options
  {
    var o := map["help" := Str("Max 2MB")];
    var css := FileFieldOptions(o);
    assert Get(css, "wrapper") == Nil && Get(css, "help") == Str("Max 2MB");
    PrepareGroupOptions(b, name, css, None, "help");
    PrepareDropsGroupOptions(b, name, css, None);
    PrepareControlClass(b, name, css);
  }

  /** The input of the intended `file_field` gets none of the group's
      options and none of the style options, and its class is the caller's
      class without "form-control", followed by " is-invalid" when the field
      has errors (unless the caller names a control class). */
  lemma FileFieldInputOptions(b: FormBuilder, name: Value, options: Options)
    ensures var p := b.Prepare(name, FileFieldOptions(options), None);
            && p.options.Keys !! FieldGroupKeys && p.options.Keys !! StyleKeys
            && ("control_class" !in options ==>
                  "class" in p.options
                  && p.options["class"] == Str((if Get(options, "class") == Nil then "" else JoinWord(Get(options, "class"), " "))
                                               + InvalidTail(b.HasError(name))))
  {
    var css := FileFieldOptions(options);
    PrepareDropsGroupOptions(b, name, css, None);
    PrepareControlClass(b, name, css);
    if "control_class" !in options {
      assert "control_class" in css && css["control_class"] == Nil && Get(css, "class") == Get(options, "class");
      ControlClassRules(css, b.HasError(name));
    }
  }
}
