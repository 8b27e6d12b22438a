/** Properties of `form_group_builder` and `form_group`: the control class,
    what is taken out of the field's options, the options of the group, the
    group's class and the horizontal layout. */
module GroupProperties {
  import opened RubyValues
  import opened Html
  import opened TextRules
  import opened BootstrapForm

  /** " is-invalid" when the field has an error. */
  function InvalidTail(hasError: bool): string {
    if hasError then " is-invalid" else ""
  }

  /** The control class: "form-control" before the user's class by default;
      with `control_class: nil` (as `file_field` passes) only the user's
      class; a control class that is given replaces "form-control". In each
      case " is-invalid" follows when the field has an error. */
  lemma ControlClassRules(css: Options, hasError: bool)
    ensures "control_class" !in css ==>
              ControlClasses(css, hasError) == "form-control" + ClassTail(Get(css, "class")) + InvalidTail(hasError)
    ensures "control_class" in css && css["control_class"] == Nil ==>
              ControlClasses(css, hasError) == (if Get(css, "class") == Nil then "" else JoinWord(Get(css, "class"), " ")) + InvalidTail(hasError)
    ensures "control_class" in css && css["control_class"].Str? ==>
              ControlClasses(css, hasError) == css["control_class"].s + ClassTail(Get(css, "class")) + InvalidTail(hasError)
  {
    if "control_class" !in css {
      CompactJoinPair(ControlClass, Get(css, "class"), " ");
    } else if css["control_class"] == Nil {
      CompactCons(Nil, [Get(css, "class")]);
      assert [Nil, Get(css, "class")] == [Nil] + [Get(css, "class")];
      CompactJoinSingle(Get(css, "class"), " ");
    } else if css["control_class"].Str? {
      CompactJoinPair(css["control_class"].s, Get(css, "class"), " ");
    }
  }


  /** An option other than the style options, the class, the name and the id
      is the same before the group step as the caller gave it. */
  lemma FieldOptionsKeep(b: FormBuilder, name: Value, options: Options, html: Option<Options>, k: string)
    requires k !in StyleKeys && k !in {"class", "name", "id"}
    ensures var r := b.FieldOptions(name, options, html);
            (k in r <==> k in options) && (k in r ==> r[k] == options[k]) && Get(r, k) == Get(options, k)
  {
  }

  /** `skip_label` is one of the options kept before the group step. */
  lemma SkipLabelKept(b: FormBuilder, name: Value, options: Options, html: Option<Options>)
    ensures Get(b.FieldOptions(name, options, html), "skip_label") == Get(options, "skip_label")
  {
    LabelKeysApart();
    assert "skip_label" in FieldGroupKeys;
    FieldOptionsKeep(b, name, options, html, "skip_label");
  }

  /** Without html options, the control class is set on the field's options
      and the style options are taken out. */
  lemma FieldOptionsControlClass(b: FormBuilder, name: Value, options: Options)
    ensures var r := b.FieldOptions(name, options, None);
            r.Keys !! StyleKeys && "class" in r && r["class"] == Str(ControlClasses(options, b.HasError(name)))
  {
  }

  /** In a builder that acts like `form_tag`, name and id default to the
      field's name; otherwise they are the caller's. */
  lemma FieldOptionsNameAndId(b: FormBuilder, name: Value, options: Options, html: Option<Options>)
    ensures var r := b.FieldOptions(name, options, html);
            && (Truthy(b.actsLikeFormTag) ==> Get(r, "name") == Or(Get(options, "name"), name) && Get(r, "id") == Or(Get(options, "id"), name))
            && (!Truthy(b.actsLikeFormTag) ==> Get(r, "name") == Get(options, "name") && Get(r, "id") == Get(options, "id"))
  {
    var fieldOptions := if html.Some? then options else StyledCss(options, b.HasError(name));
    assert Get(fieldOptions, "name") == Get(options, "name") && Get(fieldOptions, "id") == Get(options, "id");
  }

  /** The options part of `Prepare`. */
  lemma PrepareOptionsPart(b: FormBuilder, name: Value, options: Options, html: Option<Options>)
    ensures b.Prepare(name, options, html).options == FieldRest(b.FieldOptions(name, options, html))
  {
  }

  /** The group and label steps leave the name, the id and the class alone. */
  lemma FieldRestKeepsNameIdClass(withIds: Options)
    ensures Get(FieldRest(withIds), "name") == Get(withIds, "name")
    ensures Get(FieldRest(withIds), "id") == Get(withIds, "id")
    ensures Get(FieldRest(withIds), "class") == Get(withIds, "class")
  {
  }

  /** What `form_group_builder` takes out of the field's options: the
      group's options always, the style options when they were taken from
      this hash, `hide_label` and `skip_required` unless `skip_label` is set. */
  lemma PrepareDropsGroupOptions(b: FormBuilder, name: Value, options: Options, html: Option<Options>)
    ensures var p := b.Prepare(name, options, html);
            && p.options.Keys !! FieldGroupKeys
            && (html.None? ==> p.options.Keys !! StyleKeys)
            && (!Truthy(Get(options, "skip_label")) ==> "hide_label" !in p.options && "skip_required" !in p.options)
  {
    SkipLabelKept(b, name, options, html);
    if html.None? {
      FieldOptionsControlClass(b, name, options);
    }
  }

  /** Without html options, the field's options carry the control class. */
  lemma PrepareControlClass(b: FormBuilder, name: Value, options: Options)
    ensures var p := b.Prepare(name, options, None);
            "class" in p.options && p.options["class"] == Str(ControlClasses(options, b.HasError(name)))
  {
    FieldOptionsControlClass(b, name, options);
  }

  /** With html options, the control class and the style options go there,
      and the field's options keep their own class. */
  lemma PrepareHtmlOptions(b: FormBuilder, name: Value, options: Options, html: Options)
    ensures var p := b.Prepare(name, options, Some(html));
            p.html == Some(StyledCss(html, b.HasError(name))) && Get(p.options, "class") == Get(options, "class")
  {
    var withIds := b.FieldOptions(name, options, Some(html));
    assert Get(withIds, "class") == Get(options, "class");
    PrepareOptionsPart(b, name, options, Some(html));
    FieldRestKeepsNameIdClass(withIds);
  }

  /** In a builder that acts like `form_tag`, the control's name and id
      default to the field's name. */
  lemma PrepareNameAndId(b: FormBuilder, name: Value, options: Options, html: Option<Options>)
    requires Truthy(b.actsLikeFormTag)
    ensures var p := b.Prepare(name, options, html);
            Get(p.options, "name") == Or(Get(options, "name"), name) && Get(p.options, "id") == Or(Get(options, "id"), name)
  {
    PrepareOptionsPart(b, name, options, html);
    FieldOptionsNameAndId(b, name, options, html);
    FieldRestKeepsNameIdClass(b.FieldOptions(name, options, html));
  }

  /** Every other option reaches the control unchanged. */
  lemma PrepareKeepsOtherOptions(b: FormBuilder, name: Value, options: Options, html: Option<Options>)
    ensures var p := b.Prepare(name, options, html);
            forall k :: k in options && k !in FieldGroupKeys + LabelKeys + StyleKeys + {"class", "name", "id"} ==>
                          k in p.options && p.options[k] == options[k]
  {
    forall k | k in options && k !in FieldGroupKeys + LabelKeys + StyleKeys + {"class", "name", "id"}
      ensures k in b.Prepare(name, options, html).options && b.Prepare(name, options, html).options[k] == options[k]
    {
      FieldOptionsKeep(b, name, options, html, k);
    }
  }

  /** The label settings depend on the label options only. */
  lemma LabelHashOfLabelKeys(o1: Options, o2: Options)
    requires forall k :: k in LabelKeys ==> Get(o1, k) == Get(o2, k)
    ensures LabelOptions(o1) == LabelOptions(o2) && LabelHash(o1) == LabelHash(o2)
  {
    assert Get(o1, "label") == Get(o2, "label");
    assert Get(o1, "label_class") == Get(o2, "label_class");
    assert Get(o1, "hide_label") == Get(o2, "hide_label");
    assert Get(o1, "skip_required") == Get(o2, "skip_required");
  }

  /** The label options are none of the options the group takes. */
  lemma LabelKeysApart()
    ensures LabelKeys !! FieldGroupKeys
    ensures LabelKeys + FieldGroupKeys !! StyleKeys + {"class", "name", "id"}
  {
  }

  /** Unless `skip_label` is set, the group's label settings are the ones
      the caller's label options give. */
  lemma PrepareGroupLabel(b: FormBuilder, name: Value, options: Options, html: Option<Options>)
    requires !Truthy(Get(options, "skip_label"))
    ensures var p := b.Prepare(name, options, html);
            "label" in p.group && p.group["label"] == LabelHash(options)
  {
    var withIds := b.FieldOptions(name, options, html);
    SkipLabelKept(b, name, options, html);
    forall k | k in LabelKeys ensures Get(withIds - FieldGroupKeys, k) == Get(options, k) {
      FieldOptionsKeep(b, name, options, html, k);
    }
    LabelHashOfLabelKeys(withIds - FieldGroupKeys, options);
  }

  /** `hide_label` gives the label the "sr-only" class, whatever the label
      class or the label hash says. */
  lemma HideLabelClass(b: FormBuilder, name: Value, options: Options, html: Option<Options>)
    requires !Truthy(Get(options, "skip_label")) && Truthy(Get(options, "hide_label"))
    ensures var p := b.Prepare(name, options, html);
            "label" in p.group && p.group["label"].Hash? && Get(p.group["label"].entries, "class") == Str(HideClass)
  {
    PrepareGroupLabel(b, name, options, html);
  }

  /** A string label is the label's text and is not handed to the control;
      without a label hash or `hide_label` the label class is `label_class`,
      which is not handed to the control either. */
  lemma StringLabel(b: FormBuilder, name: Value, options: Options, html: Option<Options>)
    requires !Truthy(Get(options, "skip_label")) && Get(options, "label").Str?
    ensures var p := b.Prepare(name, options, html);
            && "label" in p.group && p.group["label"].Hash?
            && Get(p.group["label"].entries, "text") == Get(options, "label")
            && (!Truthy(Get(options, "hide_label")) ==> Get(p.group["label"].entries, "class") == Get(options, "label_class"))
            && "label" !in p.options && "label_class" !in p.options
  {
    var p := b.Prepare(name, options, html);
    assert "label" in p.group && p.group["label"] == LabelHash(options) by {
      PrepareGroupLabel(b, name, options, html);
    }
    assert "label" !in p.options && "label_class" !in p.options by {
      var rest := b.FieldOptions(name, options, html) - FieldGroupKeys;
      LabelKeysApart();
      assert "skip_label" in FieldGroupKeys && "label" in LabelKeys;
      SkipLabelKept(b, name, options, html);
      FieldOptionsKeep(b, name, options, html, "label");
      assert {"label", "label_class"} <= LabelOptions(rest).consumed;
    }
  }

  /** Without a `wrapper` hash, the group's base options are the field's
      id, help, icon, columns and effective layout, and the wrapper class. */
  lemma GroupBaseWithoutWrapper(b: FormBuilder, withIds: Options, wrapperClass: Value, wrapper: Value, k: string)
    requires !wrapper.Hash? && (k == "id" || k in CopiedKeys)
    ensures var g := b.GroupBase(withIds, wrapperClass, wrapper);
            k in g && g[k] == Get(withIds, k) && g["layout"] == b.GroupLayout(Get(withIds, "layout")) && g["class"] == wrapperClass
  {
  }

  /** The label settings are the only entry the label step adds. */
  lemma GroupOptionsKeep(b: FormBuilder, withIds: Options, css: Options, k: string)
    requires k != "label"
    ensures var g := b.GroupBase(withIds, Get(css, "wrapper_class"), Get(css, "wrapper"));
            (k in b.GroupOptions(withIds, css) <==> k in g) && (k in g ==> b.GroupOptions(withIds, css)[k] == g[k])
  {
  }

  /** The options the group copies from the field unchanged. */
  const CopiedKeys: set<string> := {"help", "icon", "label_col", "control_col"}

  lemma CopiedKeysApart()
    ensures CopiedKeys !! StyleKeys + {"class", "name", "id", "label"}
  {
  }

  /** Without a `wrapper` hash, the group gets the field's help, icon and
      columns. */
  lemma PrepareGroupOptions(b: FormBuilder, name: Value, options: Options, html: Option<Options>, k: string)
    requires var css := if html.Some? then html.value else options; !Get(css, "wrapper").Hash?
    requires k in CopiedKeys
    ensures var p := b.Prepare(name, options, html);
            k in p.group && p.group[k] == Get(options, k)
  {
    CopiedKeysApart();
    var css := if html.Some? then html.value else options;
    var withIds := b.FieldOptions(name, options, html);
    GroupBaseWithoutWrapper(b, withIds, Get(css, "wrapper_class"), Get(css, "wrapper"), k);
    GroupOptionsKeep(b, withIds, css, k);
    FieldOptionsKeep(b, name, options, html, k);
  }

  /** Without a `wrapper` hash, the group's layout is the effective layout
      of the field and its class is the wrapper class. */
  lemma PrepareGroupLayoutAndClass(b: FormBuilder, name: Value, options: Options, html: Option<Options>)
    requires var css := if html.Some? then html.value else options; !Get(css, "wrapper").Hash?
    ensures var p := b.Prepare(name, options, html);
            var css := if html.Some? then html.value else options;
            && "layout" in p.group && p.group["layout"] == b.GroupLayout(Get(options, "layout"))
            && "class" in p.group && p.group["class"] == Get(css, "wrapper_class")
  {
    var css := if html.Some? then html.value else options;
    var withIds := b.FieldOptions(name, options, html);
    assert Get(withIds, "layout") == Get(options, "layout") by {
      LabelKeysApart();
      assert "layout" in FieldGroupKeys;
      FieldOptionsKeep(b, name, options, html, "layout");
    }
    GroupBaseWithoutWrapper(b, withIds, Get(css, "wrapper_class"), Get(css, "wrapper"), "help");
    GroupOptionsKeep(b, withIds, css, "layout");
    GroupOptionsKeep(b, withIds, css, "class");
  }

  /** The group's id is the field's id (defaulted to its name in a builder
      that acts like `form_tag`). */
  lemma PrepareGroupId(b: FormBuilder, name: Value, options: Options, html: Option<Options>)
    requires var css := if html.Some? then html.value else options; !Get(css, "wrapper").Hash?
    ensures var p := b.Prepare(name, options, html);
            "id" in p.group && p.group["id"] == (if Truthy(b.actsLikeFormTag) then Or(Get(options, "id"), name) else Get(options, "id"))
  {
    var css := if html.Some? then html.value else options;
    var withIds := b.FieldOptions(name, options, html);
    GroupBaseWithoutWrapper(b, withIds, Get(css, "wrapper_class"), Get(css, "wrapper"), "id");
    GroupOptionsKeep(b, withIds, css, "id");
    FieldOptionsNameAndId(b, name, options, html);
  }

  /** A `wrapper` hash is merged into the group's options last, so each of its
      entries wins (but for a `label` entry, which the label settings replace
      unless `skip_label` is set). */
  lemma PrepareGroupWrapper(b: FormBuilder, name: Value, options: Options, html: Option<Options>)
    requires var css := if html.Some? then html.value else options; Get(css, "wrapper").Hash?
    ensures var p := b.Prepare(name, options, html);
            var wrapper := Get(if html.Some? then html.value else options, "wrapper").entries;
            forall k :: k in wrapper && (k != "label" || Truthy(Get(options, "skip_label"))) ==> k in p.group && p.group[k] == wrapper[k]
  {
    var css := if html.Some? then html.value else options;
    var withIds := b.FieldOptions(name, options, html);
    var wrapper := Get(css, "wrapper").entries;
    assert b.Prepare(name, options, html).group == b.GroupOptions(withIds, css);
    SkipLabelKept(b, name, options, html);
    forall k | k in wrapper && (k != "label" || Truthy(Get(options, "skip_label")))
      ensures k in b.GroupOptions(withIds, css) && b.GroupOptions(withIds, css)[k] == wrapper[k]
    {
      if k != "label" {
        GroupOptionsKeep(b, withIds, css, k);
      }
    }
  }
}
