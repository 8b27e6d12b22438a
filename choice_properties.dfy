/** Properties of `check_box` and `radio_button`: which wrapper each
    combination of `custom` and `inline` gets, which options reach the input,
    the input's class, and the label. */
module ChoiceProperties {
  import opened RubyValues
  import opened Html
  import opened TextRules
  import opened BootstrapForm

  /** Every option but the wrapper's reaches the input unchanged, except the
      class the builder computes. */
  predicate PassesOptions(input: Options, options: Options) {
    && input.Keys !! WrapperOnlyKeys
    && (forall k :: k in options && k !in WrapperOnlyKeys && k != "class" ==> k in input && input[k] == options[k])
    && (forall k :: k in input && k != "class" ==> k in options)
  }

  /** Taking out the wrapper's options and setting the class passes the
      other options on. */
  lemma PassesOptionsWithClass(options: Options, cls: Value)
    ensures PassesOptions((options - WrapperOnlyKeys)["class" := cls], options)
  {
  }

  /** `radio_button` hands the base radio button every option but the
      wrapper's; only a custom radio button's class changes, to
      "custom-control-input" followed by the user's class. */
  lemma RadioOptionsPass(options: Options)
    ensures PassesOptions(RadioOptions(options), options)
    ensures Truthy(Get(options, "custom")) ==>
              RadioOptions(options)["class"] == Str("custom-control-input" + ClassTail(Get(options, "class")))
    ensures !Truthy(Get(options, "custom")) ==> RadioOptions(options) == options - WrapperOnlyKeys
  {
    if Truthy(Get(options, "custom")) {
      PassesOptionsWithClass(options, Str(PrefixedClass("custom-control-input", Get(options, "class"))));
    }
  }

  /** `check_box` hands the base checkbox every option but the wrapper's,
      with the class `CheckBoxInputClass` computes. */
  lemma CheckBoxOptionsPass(options: Options, hasError: bool)
    ensures PassesOptions(CheckBoxOptions(options, hasError), options)
    ensures CheckBoxOptions(options, hasError)["class"] == Str(CheckBoxInputClass(Truthy(Get(options, "custom")), hasError, Get(options, "class")))
  {
    PassesOptionsWithClass(options, CheckBoxOptions(options, hasError)["class"]);
  }

  /** A custom radio button sits in a "custom-control custom-radio" div
      (plus "custom-control-inline" when inline), which `disabled` does not
      change; the input comes first, then the label, of class
      "custom-control-label" followed by the label class. */
  lemma RadioButtonCustom(b: FormBuilder, name: Value, value: Value, options: Options)
    requires Truthy(Get(options, "custom"))
    ensures var r := b.RadioButton(name, value, options);
            && r.Tag? && r.tag == "div"
            && ClassOf(r) == Str("custom-control " + "custom-radio" + (if Truthy(Get(options, "inline")) then " custom-control-inline" else ""))
            && |r.body| == 2 && r.body[0] == Input("radio_button", name, [value, Hash(RadioOptions(options))])
            && r.body[1].Label? && r.body[1].name == name && r.body[1].attrs["value"] == value
            && ClassOf(r.body[1]) == Str("custom-control-label" + ClassTail(Get(options, "label_class")))
  {
    var l := Label(name, [Content(Get(options, "label"))],
                   map["value" := value, "class" := Str(PrefixedClass("custom-control-label", Get(options, "label_class")))]);
    assert b.RadioButton(name, value, options)
        == Tag("div", map["class" := Str(CustomWrapperClass("custom-radio", Truthy(Get(options, "inline"))))],
               [Input("radio_button", name, [value, Hash(RadioOptions(options))]), l]);
  }

  /** An inline radio button that is not custom is a bare label of class
      "radio-inline", then " disabled", then the label class. */
  lemma RadioButtonInline(b: FormBuilder, name: Value, value: Value, options: Options)
    requires !Truthy(Get(options, "custom")) && Truthy(Get(options, "inline"))
    requires Get(options, "label_class").Nil? || Get(options, "label_class").Str?
    ensures var r := b.RadioButton(name, value, options);
            && r.Label? && r.name == name && r.attrs["value"] == value
            && ClassOf(r) == Str("radio-inline" + (if Truthy(Get(options, "disabled")) then " disabled" else "")
                                 + ClassTail(Get(options, "label_class")))
  {
  }

  /** Any other radio button is in a "radio" div (" disabled" added), whose
      one label has the label class as given. */
  lemma RadioButtonStacked(b: FormBuilder, name: Value, value: Value, options: Options)
    requires !Truthy(Get(options, "custom")) && !Truthy(Get(options, "inline"))
    ensures var r := b.RadioButton(name, value, options);
            && r.Tag? && r.tag == "div"
            && ClassOf(r) == Str("radio" + (if Truthy(Get(options, "disabled")) then " disabled" else ""))
            && |r.body| == 1 && r.body[0].Label? && r.body[0].name == name
            && r.body[0].attrs["value"] == value && ClassOf(r.body[0]) == Get(options, "label_class")
  {
  }

  /** The inputs of `[input, " ", description]`, the body of a label
      around a checkbox or radio button. */
  lemma InputsBeforeDescription(input: Markup, description: Markup)
    requires input.Input?
    ensures InputsIn([input, Text(" "), description]) == [input] + InputsIn([description])
  {
    assert [input, Text(" "), description] == [input] + ([Text(" ")] + [description]);
    InputsInAppend([input], [Text(" ")] + [description]);
    InputsInAppend([Text(" ")], [description]);
    InputsInSingle(input);
    InputsInSingle(Text(" "));
  }

  /** A radio button renders exactly one input, the base radio button for
      the value, with every option but the wrapper's; only a custom radio
      button's class is changed. */
  lemma RadioButtonInput(b: FormBuilder, name: Value, value: Value, options: Options)
    ensures InputsIn([b.RadioButton(name, value, options)]) == [Input("radio_button", name, [value, Hash(RadioOptions(options))])]
  {
    var r := b.RadioButton(name, value, options);
    var input := Input("radio_button", name, [value, Hash(RadioOptions(options))]);
    InputsInSingle(r);
    if Truthy(Get(options, "custom")) {
      var l := r.body[1];
      assert r.body == [input] + [l];
      InputsInAppend([input], [l]);
      InputsInSingle(input);
      InputsInSingle(l);
      InputsInSingle(Content(Get(options, "label")));
    } else {
      var description := Content(Get(options, "label"));
      InputsBeforeDescription(input, description);
      InputsInSingle(description);
      if !Truthy(Get(options, "inline")) {
        InputsInSingle(r.body[0]);
      }
    }
  }

  /** A checkbox renders the base checkbox first, with every option but the
      wrapper's and the class above, followed by whatever inputs the label
      block holds. */
  lemma CheckBoxInput(b: FormBuilder, name: Value, options: Options, checkedValue: Value, uncheckedValue: Value, block: Option<Markup>)
    ensures InputsIn([b.CheckBox(name, options, checkedValue, uncheckedValue, block)])
            == [Input("check_box", name, [Hash(CheckBoxOptions(options, b.HasError(name))), checkedValue, uncheckedValue])]
               + (if block.Some? then InputsIn([block.value]) else [])
  {
    var input := Input("check_box", name, [Hash(CheckBoxOptions(options, b.HasError(name))), checkedValue, uncheckedValue]);
    var description :=
      if block.Some? then block.value
      else if Truthy(Get(options, "label")) then Content(Get(options, "label"))
      else HumanName(name);
    assert InputsIn([description]) == (if block.Some? then InputsIn([block.value]) else []) by {
      InputsInSingle(description);
    }
    var r := b.CheckBox(name, options, checkedValue, uncheckedValue, block);
    assert (r.Tag? || r.Label?) && InputsIn(r.body) == [input] + InputsIn([description]) by {
      var labelName := CheckBoxLabelName(name, options, checkedValue);
      InputsInSingle(input);
      if Truthy(Get(options, "custom")) {
        var l := Label(labelName, [description], map["class" := Str(PrefixedClass("custom-control-label", Get(options, "label_class")))]);
        assert r.body == [input] + [l];
        InputsInAppend([input], [l]);
        InputsInSingle(l);
      } else {
        InputsBeforeDescription(input, description);
        if Truthy(Get(options, "inline")) {
          assert r.body == [input, Text(" "), description];
        } else {
          assert r.body[0].body == [input, Text(" "), description];
          InputsInSingle(r.body[0]);
        }
      }
    }
    InputsInSingle(r);
  }

  /** A custom checkbox sits in a "custom-control custom-checkbox" div
      (plus "custom-control-inline"), the input first, then the label, of
      class "custom-control-label" followed by the label class. */
  lemma CheckBoxCustom(b: FormBuilder, name: Value, options: Options, checkedValue: Value, uncheckedValue: Value, block: Option<Markup>)
    requires Truthy(Get(options, "custom"))
    ensures var r := b.CheckBox(name, options, checkedValue, uncheckedValue, block);
            && r.Tag? && r.tag == "div"
            && ClassOf(r) == Str("custom-control " + "custom-checkbox" + (if Truthy(Get(options, "inline")) then " custom-control-inline" else ""))
            && |r.body| == 2
            && r.body[0] == Input("check_box", name, [Hash(CheckBoxOptions(options, b.HasError(name))), checkedValue, uncheckedValue])
            && r.body[1].Label? && r.body[1].name == CheckBoxLabelName(name, options, checkedValue)
            && ClassOf(r.body[1]) == Str("custom-control-label" + ClassTail(Get(options, "label_class")))
  {
  }

  /** An inline checkbox that is not custom is a bare label of class
      "form-check-inline", then " disabled", then the label class. */
  lemma CheckBoxInline(b: FormBuilder, name: Value, options: Options, checkedValue: Value, uncheckedValue: Value, block: Option<Markup>)
    requires !Truthy(Get(options, "custom")) && Truthy(Get(options, "inline"))
    requires Get(options, "label_class").Nil? || Get(options, "label_class").Str?
    ensures var r := b.CheckBox(name, options, checkedValue, uncheckedValue, block);
            && r.Label? && r.name == CheckBoxLabelName(name, options, checkedValue)
            && ClassOf(r) == Str("form-check-inline" + (if Truthy(Get(options, "disabled")) then " disabled" else "")
                                 + ClassTail(Get(options, "label_class")))
  {
  }

  /** Any other checkbox is in a "form-check" div (" disabled" added),
      around one label of class "form-check-label" followed by the label
      class. */
  lemma CheckBoxStacked(b: FormBuilder, name: Value, options: Options, checkedValue: Value, uncheckedValue: Value, block: Option<Markup>)
    requires !Truthy(Get(options, "custom")) && !Truthy(Get(options, "inline"))
    ensures var r := b.CheckBox(name, options, checkedValue, uncheckedValue, block);
            && r.Tag? && r.tag == "div"
            && ClassOf(r) == Str("form-check" + (if Truthy(Get(options, "disabled")) then " disabled" else ""))
            && |r.body| == 1 && r.body[0].Label? && r.body[0].name == CheckBoxLabelName(name, options, checkedValue)
            && ClassOf(r.body[0]) == Str("form-check-label" + ClassTail(Get(options, "label_class")))
  {
  }

  /** The label of a `multiple` checkbox is named after the field, an
      underscore and the checked value reduced to lower-case word characters
      and hyphens; reducing that suffix again changes nothing. Without
      `multiple` the label has the field's name. */
  lemma CheckBoxLabelNameSuffix(name: Value, options: Options, checkedValue: Value)
    ensures !Truthy(Get(options, "multiple")) ==> CheckBoxLabelName(name, options, checkedValue) == name
    ensures Truthy(Get(options, "multiple")) ==>
              var n := CheckBoxLabelName(name, options, checkedValue);
              var k := |ToS(name)| + 1;
              && n.Str? && k <= |n.s| && n.s[..k] == ToS(name) + "_"
              && n.s[k..] == LabelIdSuffix(ToS(checkedValue))
              && (forall i :: k <= i < |n.s| ==> IsIdChar(n.s[i]))
              && LabelIdSuffix(n.s[k..]) == n.s[k..]
  {
    if Truthy(Get(options, "multiple")) {
      var n := CheckBoxLabelName(name, options, checkedValue);
      var k := |ToS(name)| + 1;
      var suffix := LabelIdSuffix(ToS(checkedValue));
      assert n.s == (ToS(name) + "_") + suffix;
      assert n.s[k..] == suffix;
      LabelIdSuffixIdempotent(ToS(checkedValue));
      forall i | k <= i < |n.s| ensures IsIdChar(n.s[i]) {
        assert n.s[i] == suffix[i - k];
      }
    }
  }
}
