/** Properties of what `form_group` renders: the label (`generate_label`),
    the help text (`generate_help`) and the group div around the control. */
module RenderProperties {
  import opened RubyValues
  import opened Html
  import opened TextRules
  import opened BootstrapForm

  /** The label option must be a hash: anything else makes `generate_label`
      raise, and a hash always renders a label. */
  lemma GenerateLabelOk(b: FormBuilder, id: Value, name: Value, labelOptions: Value, customLabelCol: Value, groupLayout: Value)
    ensures var r := b.GenerateLabel(id, name, labelOptions, customLabelCol, groupLayout);
            && (r.Ok? <==> labelOptions.Hash?)
            && (r.Ok? ==> r.value == b.RenderLabel(id, name, labelOptions.entries, customLabelCol, groupLayout))
  {
  }

  /** The rendered label is for the field; `text` and `skip_required` are
      not rendered as attributes; a builder that acts like `form_tag` points
      `for` at the group's id; an empty class is dropped; every other
      attribute is the caller's. */
  lemma RenderLabelAttributes(b: FormBuilder, id: Value, name: Value, labelOptions: Options, customLabelCol: Value, groupLayout: Value)
    ensures var m := b.RenderLabel(id, name, labelOptions, customLabelCol, groupLayout);
            && m.Label? && m.name == name
            && "text" !in m.attrs && "skip_required" !in m.attrs
            && (Truthy(b.actsLikeFormTag) ==> "for" in m.attrs && m.attrs["for"] == id)
            && ("class" in m.attrs ==> m.attrs["class"].Str? && m.attrs["class"].s != "")
            && (forall k :: k in labelOptions && k !in {"text", "skip_required", "class", "for"} ==>
                              k in m.attrs && m.attrs[k] == labelOptions[k])
  {
    RenderLabelParts(b, id, name, labelOptions, customLabelCol, groupLayout);
  }

  /** `RenderLabel` as the label's attributes and body. */
  lemma RenderLabelParts(b: FormBuilder, id: Value, name: Value, labelOptions: Options, customLabelCol: Value, groupLayout: Value)
    ensures var withFor := if Truthy(b.actsLikeFormTag) then labelOptions["for" := id] else labelOptions;
            var m := b.RenderLabel(id, name, labelOptions, customLabelCol, groupLayout);
            && m.Label? && m.name == name
            && m.attrs == LabelAttributes(withFor, b.LabelClass(name, withFor, customLabelCol, groupLayout))
            && Get(withFor, "text") == Get(labelOptions, "text")
  {
    var withFor := if Truthy(b.actsLikeFormTag) then labelOptions["for" := id] else labelOptions;
    var attrs := LabelAttributes(withFor, b.LabelClass(name, withFor, customLabelCol, groupLayout));
    var text := Get(withFor, "text");
    assert b.RenderLabel(id, name, labelOptions, customLabelCol, groupLayout) ==
      if Truthy(b.labelErrors) && b.HasError(name) then
        Label(name, [if Truthy(text) then Text(ToS(text)) else HumanName(name), Text(" " + b.ErrorMessages(name))], attrs)
      else
        Label(name, [Content(text)], attrs);
  }

  /** A required field whose label has no class of its own, outside a
      horizontal group, gets the "required" class unless `skip_required` is
      set. */
  lemma RenderLabelRequired(b: FormBuilder, id: Value, name: Value, labelOptions: Options, customLabelCol: Value, groupLayout: Value)
    requires Get(labelOptions, "class") == Nil && !b.IsHorizontal(groupLayout)
    requires !Truthy(Get(labelOptions, "skip_required")) && b.RequiredAttribute(name)
    ensures var m := b.RenderLabel(id, name, labelOptions, customLabelCol, groupLayout);
            "class" in m.attrs && m.attrs["class"] == Str("required")
  {
    var withFor := if Truthy(b.actsLikeFormTag) then labelOptions["for" := id] else labelOptions;
    assert Get(withFor, "class") == Nil && Get(withFor, "skip_required") == Get(labelOptions, "skip_required");
    LabelClassRequired(b, name, withFor, customLabelCol, groupLayout);
    RenderLabelParts(b, id, name, labelOptions, customLabelCol, groupLayout);
  }

  /** Without a class of its own, outside a horizontal group, a label that
      is not marked required has no class attribute at all. */
  lemma RenderLabelWithoutClass(b: FormBuilder, id: Value, name: Value, labelOptions: Options, customLabelCol: Value, groupLayout: Value)
    requires Get(labelOptions, "class") == Nil && !b.IsHorizontal(groupLayout)
    requires Truthy(Get(labelOptions, "skip_required")) || !b.RequiredAttribute(name)
    ensures "class" !in b.RenderLabel(id, name, labelOptions, customLabelCol, groupLayout).attrs
  {
    var withFor := if Truthy(b.actsLikeFormTag) then labelOptions["for" := id] else labelOptions;
    assert Get(withFor, "class") == Nil && Get(withFor, "skip_required") == Get(labelOptions, "skip_required");
    LabelClassRequired(b, name, withFor, customLabelCol, groupLayout);
    RenderLabelParts(b, id, name, labelOptions, customLabelCol, groupLayout);
  }

  /** The class part of `RenderLabelRequired`. */
  lemma LabelClassRequired(b: FormBuilder, name: Value, withFor: Options, customLabelCol: Value, groupLayout: Value)
    requires Get(withFor, "class") == Nil && !b.IsHorizontal(groupLayout)
    ensures !Truthy(Get(withFor, "skip_required")) && b.RequiredAttribute(name) ==>
              b.LabelClass(name, withFor, customLabelCol, groupLayout) == "required"
    ensures Truthy(Get(withFor, "skip_required")) || !b.RequiredAttribute(name) ==>
              b.LabelClass(name, withFor, customLabelCol, groupLayout) == ""
  {
    var classes := b.LabelClasses(name, withFor, customLabelCol, groupLayout);
    if !Truthy(Get(withFor, "skip_required")) && b.RequiredAttribute(name) {
      assert classes == [Nil, Str("required")];
      RequiredClassText();
    } else {
      assert classes == [Nil];
      CompactJoinSingle(Nil, " ");
    }
  }

  /** The classes nil and "required", joined and stripped. */
  lemma RequiredClassText()
    ensures Strip(CompactJoin([Nil, Str("required")], " ")) == "required"
  {
    var joined := CompactJoin([Nil, Str("required")], " ");
    assert joined == "required" by {
      assert [Nil, Str("required")] == [Nil] + [Str("required")];
      CompactCons(Nil, [Str("required")]);
      CompactJoinSingle(Str("required"), " ");
    }
    assert joined[0] == 'r' && joined[|joined| - 1] == 'd';
  }

  /** With `label_errors` set, a field with errors has its messages appended
      to the label text; otherwise the label's content is its `text`. */
  lemma RenderLabelBody(b: FormBuilder, id: Value, name: Value, labelOptions: Options, customLabelCol: Value, groupLayout: Value)
    ensures var m := b.RenderLabel(id, name, labelOptions, customLabelCol, groupLayout);
            var text := Get(labelOptions, "text");
            && (Truthy(b.labelErrors) && b.HasError(name) ==>
                  m.body == [if Truthy(text) then Text(ToS(text)) else HumanName(name), Text(" " + b.ErrorMessages(name))])
            && (!(Truthy(b.labelErrors) && b.HasError(name)) ==> m.body == [Content(text)])
  {
    var withFor := if Truthy(b.actsLikeFormTag) then labelOptions["for" := id] else labelOptions;
    var text := Get(withFor, "text");
    var attrs := LabelAttributes(withFor, b.LabelClass(name, withFor, customLabelCol, groupLayout));
    assert Get(withFor, "text") == Get(labelOptions, "text");
    assert b.RenderLabel(id, name, labelOptions, customLabelCol, groupLayout) ==
      if Truthy(b.labelErrors) && b.HasError(name) then
        Label(name, [if Truthy(text) then Text(ToS(text)) else HumanName(name), Text(" " + b.ErrorMessages(name))], attrs)
      else
        Label(name, [Content(text)], attrs);
  }

  /** A field with errors shown inline gets its messages in an
      "invalid-feedback" div, whatever its help option, even `false`. */
  lemma HelpShowsErrors(b: FormBuilder, name: Value, helpText: Value)
    requires b.HasError(name) && b.inlineErrors && !Blank(Str(b.ErrorMessages(name)))
    ensures b.GenerateHelp(name, helpText) == Some(Tag("div", map["class" := Str("invalid-feedback")], [Text(b.ErrorMessages(name))]))
  {
  }

  /** `help: false` hides the help text. */
  lemma HelpFalse(b: FormBuilder, name: Value)
    requires !(b.HasError(name) && b.inlineErrors)
    ensures b.GenerateHelp(name, Bool(false)) == None
  {
  }

  /** A help text that is not blank is rendered in a muted small tag; a
      blank one renders nothing. */
  lemma HelpText(b: FormBuilder, name: Value, s: string)
    requires !(b.HasError(name) && b.inlineErrors)
    ensures !Blank(Str(s)) ==> b.GenerateHelp(name, Str(s)) == Some(Tag("small", map["class" := Str("form-text text-muted")], [Text(s)]))
    ensures Blank(Str(s)) ==> b.GenerateHelp(name, Str(s)) == None
  {
  }

  /** Without a help option, the translated help text is used, exactly as if
      it had been given as the option. */
  lemma HelpFallsBackToTranslation(b: FormBuilder, name: Value)
    ensures b.GenerateHelp(name, Nil) == b.GenerateHelp(name, b.HelpTextByI18nKey(name))
  {
  }

  /** Help markup is either the errors div or the muted small tag, and it
      holds a single text. */
  lemma HelpShape(b: FormBuilder, name: Value, helpText: Value)
    ensures var h := b.GenerateHelp(name, helpText);
            h.Some? ==> && h.value.Tag?
                        && ((h.value.tag == "div" && h.value.attrs == map["class" := Str("invalid-feedback")])
                            || (h.value.tag == "small" && h.value.attrs == map["class" := Str("form-text text-muted")]))
                        && |h.value.body| == 1 && h.value.body[0].Text?
                        && (h.value.tag == "div" <==> b.HasError(name) && b.inlineErrors)
  {
  }

  /** In a horizontal group the label's classes are its own class, then
      "col-form-label", then the group's label column or else the builder's,
      then "required" when it applies; for a class and a column that are
      plain words the stripped join keeps them all. */
  lemma LabelClassHorizontal(b: FormBuilder, name: Value, withFor: Options, customLabelCol: Value, groupLayout: Value)
    requires b.IsHorizontal(groupLayout)
    requires var u := Get(withFor, "class"); u == Nil || (u.Str? && u.s != "" && !IsStripChar(u.s[0]))
    requires var col := Or(customLabelCol, b.labelCol);
             col.Str? && col.s != ""
             && ((!Truthy(Get(withFor, "skip_required")) && b.RequiredAttribute(name)) || !IsStripChar(col.s[|col.s| - 1]))
    ensures var u := Get(withFor, "class");
            var required := !Truthy(Get(withFor, "skip_required")) && b.RequiredAttribute(name);
            b.LabelClass(name, withFor, customLabelCol, groupLayout)
            == (if u == Nil then "" else u.s + " ") + "col-form-label " + Or(customLabelCol, b.labelCol).s + (if required then " required" else "")
  {
    var u := Get(withFor, "class");
    var col := Or(customLabelCol, b.labelCol).s;
    var required := !Truthy(Get(withFor, "skip_required")) && b.RequiredAttribute(name);
    assert b.LabelClasses(name, withFor, customLabelCol, groupLayout)
           == [u, Str("col-form-label"), Str(col)] + (if required then [Str("required")] else []);
    HorizontalClassText(u, col, required);
  }

  /** The stripped join of a horizontal label's classes. */
  lemma HorizontalClassText(u: Value, c: string, required: bool)
    requires u == Nil || (u.Str? && u.s != "" && !IsStripChar(u.s[0]))
    requires c != "" && (required || !IsStripChar(c[|c| - 1]))
    ensures Strip(CompactJoin([u, Str("col-form-label"), Str(c)] + (if required then [Str("required")] else []), " "))
            == (if u == Nil then "" else u.s + " ") + "col-form-label " + c + (if required then " required" else "")
  {
    var head := if u == Nil then "" else u.s + " ";
    var tail := if required then " required" else "";
    var r := head + "col-form-label " + c + tail;
    assert CompactJoin([u, Str("col-form-label"), Str(c)] + (if required then [Str("required")] else []), " ") == r by {
      JoinClassList(u, "col-form-label", c, required, "required", " ");
      assert "col-form-label" + " " == "col-form-label ";
      assert " " + "required" == " required";
    }
    assert r[0] == (if u == Nil then 'c' else u.s[0]);
    assert r[|r| - 1] == (if required then 'd' else c[|c| - 1]);
  }

  /** Neither a rendered label nor help markup holds an input or a label of
      its own. */
  lemma LabelHoldsNoInput(b: FormBuilder, id: Value, name: Value, labelOptions: Options, customLabelCol: Value, groupLayout: Value)
    ensures InputsIn([b.RenderLabel(id, name, labelOptions, customLabelCol, groupLayout)]) == []
  {
    var m := b.RenderLabel(id, name, labelOptions, customLabelCol, groupLayout);
    RenderLabelBody(b, id, name, labelOptions, customLabelCol, groupLayout);
    InputsInSingle(m);
    assert InputsIn(m.body) == [] by {
      InputsInSingle(m.body[0]);
      if |m.body| == 2 {
        assert m.body == [m.body[0]] + [m.body[1]];
        InputsInAppend([m.body[0]], [m.body[1]]);
        InputsInSingle(m.body[1]);
      }
    }
  }

  lemma HelpHoldsNoInput(b: FormBuilder, name: Value, helpText: Value)
    ensures var h := b.GenerateHelp(name, helpText);
            h.Some? ==> InputsIn([h.value]) == [] && LabelsIn([h.value]) == []
  {
    var h := b.GenerateHelp(name, helpText);
    if h.Some? {
      HelpShape(b, name, helpText);
      InputsInSingle(h.value);
      LabelsInSingle(h.value);
      InputsInSingle(h.value.body[0]);
      LabelsInSingle(h.value.body[0]);
    }
  }

  /** `form_group` fails exactly when its label option is set but is not a
      hash, or when a horizontal group without a label has a label column
      that is not a string (so that its offset cannot be derived). */
  lemma FormGroupFails(b: FormBuilder, name: Value, options: Options, body: seq<Markup>)
    ensures b.FormGroup(name, options, body).Err? <==>
              (Truthy(Get(options, "label")) && !Get(options, "label").Hash?)
              || (b.IsHorizontal(Get(options, "layout")) && !Truthy(Get(options, "label"))
                  && !Or(Get(options, "label_col"), b.labelCol).Str?)
  {
  }

  /** The group div carries the group class and every option of the group
      except the ones `form_group` consumes. */
  lemma FormGroupDiv(b: FormBuilder, name: Value, options: Options, body: seq<Markup>)
    ensures var r := b.FormGroup(name, options, body);
            r.Ok? ==>
              && r.value.Tag? && r.value.tag == "div"
              && r.value.attrs.Keys == options.Keys - GroupOnlyKeys + {"class"}
              && r.value.attrs["class"] == Str(GroupClass(Get(options, "class"), b.IsHorizontal(Get(options, "layout")), Truthy(Get(options, "icon"))))
              && (forall k :: k in options && k !in GroupOnlyKeys + {"class"} ==> r.value.attrs[k] == options[k])
  {
  }

  /** The group class starts with "form-group", and is exactly that for a
      vertical group without a class of its own or an icon. */
  lemma GroupClassHead(userClass: Value, horizontal: bool, icon: bool)
    ensures var c := GroupClass(userClass, horizontal, icon);
            && |c| >= 10 && c[..10] == "form-group"
            && (userClass == Nil && !horizontal && !icon <==> c == "form-group")
  {
    var c := GroupClass(userClass, horizontal, icon);
    var user, row, feedback := ClassTail(userClass), if horizontal then " row" else "", if icon then " " + FeedbackClass else "";
    var tail := user + row + feedback;
    assert c == "form-group" + tail by {
      assert c == "form-group" + user + row + feedback;
      AppendAssoc("form-group", user, row, feedback);
    }
    assert userClass != Nil ==> |ClassTail(userClass)| >= 1;
    assert |tail| == 0 <==> userClass == Nil && !horizontal && !icon;
  }

  /** The group class ends with " has-feedback" when there is an icon, and
      otherwise with " row" in a horizontal group. */
  lemma GroupClassTail(userClass: Value, horizontal: bool, icon: bool)
    ensures var c := GroupClass(userClass, horizontal, icon);
            && (icon ==> |c| >= 13 && c[|c| - 13..] == " has-feedback")
            && (horizontal && !icon ==> |c| >= 4 && c[|c| - 4..] == " row")
  {
    var c := GroupClass(userClass, horizontal, icon);
    var head := PrefixedClass("form-group", userClass) + (if horizontal then " row" else "");
    if icon {
      assert c == head + " has-feedback";
    } else if horizontal {
      assert c == PrefixedClass("form-group", userClass) + " row";
    }
  }

  /** Inside the group div come the label, then the control followed by its
      help; in a horizontal group the control and help sit in a column div
      after the label. */
  lemma FormGroupLayout(b: FormBuilder, name: Value, options: Options, body: seq<Markup>)
    ensures var r := b.FormGroup(name, options, body);
            var labelPart := b.GroupLabelPart(name, options);
            var control := body + b.HelpPart(name, options);
            r.Ok? ==>
              && r.value.Tag?
              && (!b.IsHorizontal(Get(options, "layout")) ==> r.value.body == labelPart + control)
              && (b.IsHorizontal(Get(options, "layout")) ==>
                    r.value.body == labelPart + [Tag("div", map["class" := b.ColumnClass(options)], control)])
  {
  }

  /** The inputs of a form group are exactly those of its control, in order:
      the label and the help add none. */
  lemma FormGroupInputs(b: FormBuilder, name: Value, options: Options, body: seq<Markup>)
    ensures var r := b.FormGroup(name, options, body);
            r.Ok? ==> InputsIn([r.value]) == InputsIn(body)
  {
    var r := b.FormGroup(name, options, body);
    if r.Ok? {
      FormGroupLayout(b, name, options, body);
      var labelPart := b.GroupLabelPart(name, options);
      var helpPart := b.HelpPart(name, options);
      var control := body + helpPart;
      assert InputsIn(labelPart) == [] by {
        if labelPart != [] {
          LabelHoldsNoInput(b, Get(options, "id"), name, Get(options, "label").entries, Get(options, "label_col"), Get(options, "layout"));
        }
      }
      assert InputsIn(helpPart) == [] by {
        HelpHoldsNoInput(b, name, Get(options, "help"));
      }
      InputsInAppend(body, helpPart);
      InputsInSingle(r.value);
      if b.IsHorizontal(Get(options, "layout")) {
        var column := Tag("div", map["class" := b.ColumnClass(options)], control);
        InputsInAppend(labelPart, [column]);
        InputsInSingle(column);
      } else {
        InputsInAppend(labelPart, control);
      }
    }
  }

  /** The labels of a form group are its own label, first, then the labels
      of its control. */
  lemma FormGroupLabels(b: FormBuilder, name: Value, options: Options, body: seq<Markup>)
    ensures var r := b.FormGroup(name, options, body);
            r.Ok? ==> LabelsIn([r.value]) == b.GroupLabelPart(name, options) + LabelsIn(body)
  {
    var r := b.FormGroup(name, options, body);
    if r.Ok? {
      var labelPart := b.GroupLabelPart(name, options);
      var control := body + b.HelpPart(name, options);
      assert LabelsIn(labelPart) == labelPart by {
        if labelPart != [] {
          var m := labelPart[0];
          assert m.Label?;
          LabelsInSingle(m);
        }
      }
      assert LabelsIn(control) == LabelsIn(body) by {
        HelpHoldsNoInput(b, name, Get(options, "help"));
        LabelsInAppend(body, b.HelpPart(name, options));
      }
      assert r.value.Tag? && LabelsIn(r.value.body) == labelPart + LabelsIn(body) by {
        FormGroupLayout(b, name, options, body);
        if b.IsHorizontal(Get(options, "layout")) {
          var column := Tag("div", map["class" := b.ColumnClass(options)], control);
          LabelsInAppend(labelPart, [column]);
          LabelsInSingle(column);
        } else {
          LabelsInAppend(labelPart, control);
        }
      }
      LabelsInSingle(r.value);
    }
  }

  /** With the default columns, a horizontal group without a label puts its
      control in "col-sm-10 offset-sm-2". */
  lemma DefaultHorizontalColumn(b: FormBuilder, options: Options)
    requires b.labelCol == Str(DefaultLabelCol) && b.controlCol == Str(DefaultControlCol)
    requires !Truthy(Get(options, "label")) && !Truthy(Get(options, "label_col")) && !Truthy(Get(options, "control_col"))
    ensures b.ColumnClass(options) == Str("col-sm-10 offset-sm-2")
  {
    var controlClass := Or(Get(options, "control_col"), b.controlCol);
    var offsetFrom := Or(Get(options, "label_col"), b.labelCol);
    assert controlClass == Str(DefaultControlCol) && offsetFrom == Str(DefaultLabelCol);
    ColumnWithoutLabel(b, options);
    assert ToS(controlClass) == "col-sm-10";
    OffsetColExamples();
    DefaultColumnText();
  }

  lemma DefaultColumnText()
    ensures "col-sm-10" + " " + "offset-sm-2" == "col-sm-10 offset-sm-2"
  {
  }

  /** A horizontal group without a label offsets its column by the label
      column. */
  lemma ColumnWithoutLabel(b: FormBuilder, options: Options)
    requires !Truthy(Get(options, "label")) && Or(Get(options, "label_col"), b.labelCol).Str?
    ensures b.ColumnClass(options)
            == Str(ToS(Or(Get(options, "control_col"), b.controlCol)) + " " + OffsetCol(Or(Get(options, "label_col"), b.labelCol).s))
  {
  }
}
