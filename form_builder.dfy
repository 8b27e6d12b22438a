/** `BootstrapForm::FormBuilder`: the decisions the builder makes around the
    markup its base class renders — the builder's settings, the class strings,
    the wrapper chosen for checkboxes and radio buttons, the form group around
    a field, its label and its help or error text, and the rendering of a
    collection of radio buttons or checkboxes. */
module BootstrapForm {
  import opened RubyValues
  import opened Html
  import opened TextRules

  const DefaultLabelCol := "col-sm-2"
  const DefaultControlCol := "col-sm-10"
  const HideClass := "sr-only"
  const ControlClass := "form-control"
  const FeedbackClass := "has-feedback"
  const Horizontal := Sym("horizontal")

  /** The text helpers the builder wraps in a form group. */
  const FieldHelpers: set<string> := {
    "color_field", "date_field", "datetime_field", "datetime_local_field",
    "email_field", "month_field", "number_field", "password_field", "phone_field",
    "range_field", "search_field", "telephone_field", "text_area", "text_field", "time_field",
    "url_field", "week_field"}

  /** The date and time selects, wrapped in a div of their own class. */
  const DateSelectHelpers: set<string> := {"date_select", "time_select", "datetime_select"}

  /** The select helpers, which take html options besides the options. */
  const SelectHelpers: set<string> := {"select", "collection_select", "grouped_collection_select", "time_zone_select"}

  /** The keys `form_group_builder` takes out of the hash that carries the
      control's css options. */
  const StyleKeys: set<string> := {"control_class", "wrapper_class", "wrapper"}

  /** The keys the label step of `form_group_builder` may take out of the
      field's options. */
  const LabelKeys: set<string> := {"label", "label_class", "hide_label", "skip_required"}

  /** Options a checkbox or radio button uses for its wrapper and label, never
      handed to the input. */
  const WrapperOnlyKeys: set<string> := {"label", "label_class", "help", "inline", "custom"}

  /** Options `form_group` keeps to itself; the rest become the group div's attributes. */
  const GroupOnlyKeys: set<string> := {"id", "label", "help", "icon", "label_col", "control_col", "layout"}

  /** Options `form_group_builder` always takes out of the field's options. */
  const FieldGroupKeys: set<string> := {"help", "icon", "label_col", "control_col", "layout", "skip_label"}

  /** What the builder's bound object answers about a field. These stand for
      ActiveModel lookups: `errors` (None when the object does not respond to
      `errors`), the fields with a presence validator, and the help text I18n
      finds for a field. */
  datatype BoundObject = BoundObject(
    errors: Option<map<string, seq<string>>>,
    required: set<string>,
    helpTexts: map<string, string>)

  /** One element of a collection: the object, and what the value and text
      accessors (a method name or a callable) return for it. */
  datatype Item = Item(obj: Value, value: Value, text: Value)

  /** The block `inputs_collection` renders each item with. */
  datatype CollectionKind = RadioButtons | CheckBoxes

  /** What `form_group_builder` leaves behind: the field's options and html
      options as it has rewritten them in place, and the options it gives
      `form_group`. */
  datatype Prepared = Prepared(options: Options, html: Option<Options>, group: Options)

  /** The label settings `form_group_builder` collects, and the keys it takes
      out of the field's options while doing so. */
  datatype LabelChoice = LabelChoice(text: Value, cls: Value, consumed: set<string>)

  /** An attribute name as `object.errors[name]` and the validators see it. */
  function NameKey(name: Value): string {
    match name
    case Str(s) => s
    case Sym(n) => n
    case _ => ToS(name)
  }

  /** `hash.reverse_merge(defaults)`: the hash's own entries win. */
  function ReverseMerge(o: Options, defaults: Options): (r: Options)
    ensures r.Keys == o.Keys + defaults.Keys
    ensures forall k :: k in o ==> r[k] == o[k]
    ensures forall k :: k in defaults && k !in o ==> r[k] == defaults[k]
  {
    defaults + o
  }

  /** `convert_form_tag_options`: name and id default to the field name. */
  function ConvertFormTagOptions(name: Value, o: Options): (r: Options)
    ensures r.Keys == o.Keys + {"name", "id"}
    ensures Get(r, "name") == Or(Get(o, "name"), name)
    ensures Get(r, "id") == Or(Get(o, "id"), name)
    ensures forall k :: k in o && k != "name" && k != "id" ==> r[k] == o[k]
  {
    OrAssign(OrAssign(o, "name", name), "id", name)
  }

  /** The class `form_group_builder` gives the control: the control class
      ("form-control" unless the `control_class` option is present, even as
      nil), then the caller's class, then "is-invalid" when the field has an
      error. */
  function ControlClasses(css: Options, hasError: bool): string {
    var controlClasses := if "control_class" in css then css["control_class"] else Str(ControlClass);
    CompactJoin([controlClasses, Get(css, "class")], " ") + (if hasError then " is-invalid" else "")
  }

  /** The attributes of a generated label: the label options with the class
      set (or deleted when it is empty), without `skip_required` and `text`. */
  function LabelAttributes(labelOptions: Options, cls: string): (a: Options)
    ensures "text" !in a && "skip_required" !in a
    ensures cls == "" ==> "class" !in a
    ensures cls != "" ==> "class" in a && a["class"] == Str(cls)
  {
    var attrs := labelOptions - {"skip_required"};
    (if cls == "" then attrs - {"class"} else attrs["class" := Str(cls)]) - {"text"}
  }

  /** Setting the class and then deleting it when it is empty leaves the
      attributes of a generated label. */
  lemma LabelAttributesSteps(labelOptions: Options, cls: string)
    ensures var withClass := (labelOptions - {"skip_required"})["class" := Str(cls)];
            (if cls == "" then withClass - {"class"} else withClass) - {"text"} == LabelAttributes(labelOptions, cls)
  {
    var attrs := labelOptions - {"skip_required"};
    if cls == "" {
      assert attrs["class" := Str(cls)] - {"class"} == attrs - {"class"};
    }
  }

  /** The class of the group div: "form-group" and the caller's class, then
      " row" for a horizontal group and " has-feedback" when there is an icon. */
  function GroupClass(userClass: Value, horizontal: bool, icon: bool): string {
    PrefixedClass("form-group", userClass)
      + (if horizontal then " row" else "")
      + (if icon then " " + FeedbackClass else "")
  }

  /** `"#{label_class}"` after `label_class = " #{label_class}" if label_class`. */
  function SpacedLabelClass(labelClass: Value): string {
    if Truthy(labelClass) then " " + ToS(labelClass) else ToS(labelClass)
  }

  /** What a class contributes after another in `[first, v].compact.join(" ")`:
      nothing for nil, else a space and its text. */
  function ClassTail(v: Value): string {
    if v == Nil then "" else " " + JoinWord(v, " ")
  }

  /** `[first, v].compact.join(" ")`, the idiom behind most class attributes. */
  function PrefixedClass(first: string, v: Value): (r: string)
    ensures r == first + ClassTail(v)
  {
    CompactJoinPair(first, v, " ");
    CompactJoin([Str(first), v], " ")
  }

  /** The class of the div around a custom checkbox (`kind` "custom-checkbox")
      or radio button ("custom-radio"). */
  function CustomWrapperClass(kind: string, inline: bool): (r: string)
    ensures r == "custom-control " + kind + (if inline then " custom-control-inline" else "")
  {
    var extra := if inline then [Str("custom-control-inline")] else [];
    JoinTwoAndOptional("custom-control", kind, "custom-control-inline", inline, " ");
    assert "custom-control" + " " == "custom-control ";
    assert " " + "custom-control-inline" == " custom-control-inline";
    CompactJoin([Str("custom-control"), Str(kind)] + extra, " ")
  }

  /** The class `check_box` gives the input: "custom-control-input", then
      "is-invalid" when the field has an error, for a custom checkbox;
      "form-check-input" otherwise, where an error does not show; the user's
      class last. */
  function CheckBoxInputClass(custom: bool, hasError: bool, userClass: Value): (r: string)
    ensures custom ==> r == "custom-control-input" + (if hasError then " is-invalid" else "") + ClassTail(userClass)
    ensures !custom ==> r == "form-check-input" + ClassTail(userClass)
  {
    if custom then
      var iv := if hasError then Str("is-invalid") else Nil;
      CustomInputClassJoin(hasError, userClass);
      CompactJoin([Str("custom-control-input"), iv, userClass], " ")
    else PrefixedClass("form-check-input", userClass)
  }

  /** The join behind a custom checkbox's input class, element by element. */
  lemma CustomInputClassJoin(hasError: bool, userClass: Value)
    ensures var iv := if hasError then Str("is-invalid") else Nil;
            CompactJoin([Str("custom-control-input"), iv, userClass], " ")
            == "custom-control-input" + (if hasError then " is-invalid" else "") + ClassTail(userClass)
  {
    var iv := if hasError then Str("is-invalid") else Nil;
    CompactJoinTriple("custom-control-input", iv, userClass, " ");
    var mid := if iv == Nil then "" else " " + JoinWord(iv, " ");
    assert mid == (if hasError then " is-invalid" else "") by {
      if hasError {
        assert JoinWord(iv, " ") == "is-invalid";
      }
    }
    var tail := if userClass == Nil then "" else " " + JoinWord(userClass, " ");
    assert tail == ClassTail(userClass);
  }

  /** The options `check_box` hands the base checkbox: all but the
      wrapper's, with the class above. */
  function CheckBoxOptions(options: Options, hasError: bool): Options {
    (options - WrapperOnlyKeys)["class" := Str(CheckBoxInputClass(Truthy(Get(options, "custom")), hasError, Get(options, "class")))]
  }

  /** The options `radio_button` hands the base radio button: all but the
      wrapper's, with "custom-control-input" before the class of a custom one. */
  function RadioOptions(options: Options): Options {
    if Truthy(Get(options, "custom")) then (options - WrapperOnlyKeys)["class" := Str(PrefixedClass("custom-control-input", Get(options, "class")))]
    else options - WrapperOnlyKeys
  }

  /** The name of a checkbox's label, whose `for` attribute Rails derives
      from it: for a `multiple` checkbox the checked value, sanitised as Rails
      sanitises the checkbox's id, is appended. */
  function CheckBoxLabelName(name: Value, options: Options, checkedValue: Value): Value {
    if Truthy(Get(options, "multiple")) then Str(ToS(name) + "_" + LabelIdSuffix(ToS(checkedValue))) else name
  }

  /** The label settings of `form_group_builder`. A hash `label` gives the
      text and class and is removed; `label_class` is used (and removed) only
      when the hash gave no class; `hide_label` forces "sr-only"; a string
      `label` is the text and is removed. */
  function LabelOptions(o: Options): (l: LabelChoice)
    ensures Truthy(Get(o, "hide_label")) ==> l.cls == Str(HideClass)
    ensures !Get(o, "label").Hash? && !Truthy(Get(o, "hide_label")) ==> l.cls == Get(o, "label_class")
    ensures Get(o, "label").Str? ==> l.text == Get(o, "label") && "label" in l.consumed
    ensures Get(o, "label").Hash? ==>
              var h := Get(o, "label").entries;
              && l.text == Get(h, "text")
              && (!Truthy(Get(o, "hide_label")) ==> l.cls == (if Truthy(Get(h, "class")) then Get(h, "class") else Get(o, "label_class")))
              && "label" in l.consumed
              && ("label_class" in l.consumed <==> !Truthy(Get(h, "class")))
    ensures !Get(o, "label").Hash? ==> "label_class" in l.consumed
    ensures "label" in l.consumed <==> Get(o, "label").Hash? || Get(o, "label").Str?
    ensures {"hide_label", "skip_required"} <= l.consumed <= LabelKeys
  {
    var given := Get(o, "label");
    var hashText := if given.Hash? then Get(given.entries, "text") else Nil;
    var hashClass := if given.Hash? then Get(given.entries, "class") else Nil;
    var cls := if Truthy(Get(o, "hide_label")) then Str(HideClass)
               else if Truthy(hashClass) then hashClass
               else Get(o, "label_class");
    var text := if given.Str? then given else hashText;
    var consumed := {"hide_label", "skip_required"}
                    + (if Truthy(hashClass) then {} else {"label_class"})
                    + (if given.Hash? || given.Str? then {"label"} else {});
    LabelChoice(text, cls, consumed)
  }

  /** The checked rule of `inputs_collection`: an item is checked when the
      `checked` option equals its value or its object, or includes either. */
  predicate IsChecked(checked: Value, value: Value, obj: Value) {
    checked == value || ArrayIncludes(checked, value) || checked == obj || ArrayIncludes(checked, obj)
  }

  /** The options one item of a collection is rendered with: the group's
      options, the item's text as `label`, `checked` turned into a boolean
      when it is set, and no `class`. */
  function ItemOptions(o: Options, item: Item): (r: Options)
    ensures r.Keys == (o.Keys + {"label"}) - {"class"}
    ensures r["label"] == item.text
    ensures Truthy(Get(o, "checked")) ==> r["checked"] == Bool(IsChecked(o["checked"], item.value, item.obj))
    ensures forall k :: k in o && k != "class" && k != "label" && (k != "checked" || !Truthy(o[k])) ==> r[k] == o[k]
  {
    map k | k in (o.Keys + {"label"}) - {"class"} ::
      if k == "label" then item.text
      else if k == "checked" && Truthy(o[k]) then Bool(IsChecked(o[k], item.value, item.obj))
      else o[k]
  }

  /** The control's css options after `form_group_builder`: the control
      class option and the wrapper options taken out, the class rewritten. */
  function StyledCss(css: Options, hasError: bool): (r: Options)
    ensures r.Keys == css.Keys - {"control_class", "wrapper_class", "wrapper"} + {"class"}
    ensures r["class"] == Str(ControlClasses(css, hasError))
    ensures forall k :: k in css && k !in {"control_class", "wrapper_class", "wrapper", "class"} ==> r[k] == css[k]
  {
    (css - {"control_class", "wrapper_class", "wrapper"})["class" := Str(ControlClasses(css, hasError))]
  }

  /** The `label` entry `form_group_builder` gives the group. */
  function LabelHash(o: Options): Value {
    var l := LabelOptions(o);
    Hash(map["text" := l.text, "class" := l.cls, "skip_required" := Get(o, "skip_required")])
  }

  /** The label step of `form_group_builder` (when `skip_label` is not set),
      deleting the label options from the field's options one by one. */
  method TakeLabelOptions(o: Options) returns (rest: Options, labelHash: Value)
    ensures rest == o - LabelOptions(o).consumed
    ensures labelHash == LabelHash(o)
  {
    rest := o;
    var labelText, labelClass := Nil, Nil;
    if Get(rest, "label").Hash? {
      labelText := Get(rest["label"].entries, "text");
      labelClass := Get(rest["label"].entries, "class");
      rest := rest - {"label"};
    }
    if !Truthy(labelClass) {
      labelClass := Get(rest, "label_class");
      rest := rest - {"label_class"};
    }
    if Truthy(Get(rest, "hide_label")) {
      labelClass := Str(HideClass);
    }
    rest := rest - {"hide_label"};
    if Get(rest, "label").Str? && !Truthy(labelText) {
      labelText := rest["label"];
      rest := rest - {"label"};
    }
    var skipRequired := Get(rest, "skip_required");
    rest := rest - {"skip_required"};
    labelHash := Hash(map["text" := labelText, "class" := labelClass, "skip_required" := skipRequired]);
  }

  /** The option rewriting `inputs_collection` does for one item, step by step. */
  method ItemInputOptions(o: Options, item: Item) returns (r: Options)
    ensures r == ItemOptions(o, item)
  {
    r := o["label" := item.text];
    var checked := Get(r, "checked");
    if Truthy(checked) {
      r := r["checked" := Bool(IsChecked(checked, item.value, item.obj))];
    }
    r := r - {"class"};
  }

  /** The field's options after the group step and, unless `skip_label`
      is set, the label step. */
  function FieldRest(withIds: Options): (r: Options)
    ensures r.Keys <= withIds.Keys && r.Keys !! FieldGroupKeys
    ensures !Truthy(Get(withIds, "skip_label")) ==> "hide_label" !in r && "skip_required" !in r
    ensures forall k :: k in withIds && k !in FieldGroupKeys + LabelKeys ==> k in r && r[k] == withIds[k]
  {
    var rest := withIds - FieldGroupKeys;
    if Truthy(Get(withIds, "skip_label")) then rest else rest - LabelOptions(rest).consumed
  }

  class FormBuilder {
    /** The bound object, None when it is nil. */
    const model: Option<BoundObject>
    const layout: Value
    const labelCol: Value
    const controlCol: Value
    const labelErrors: Value
    const inlineErrors: bool
    const actsLikeFormTag: Value

    /** `initialize`: each setting from the options, with its default. */
    constructor (model: Option<BoundObject>, options: Options)
      ensures this.model == model
      ensures layout == Get(options, "layout")
      ensures labelCol == (if Truthy(Get(options, "label_col")) then Get(options, "label_col") else Str(DefaultLabelCol))
      ensures controlCol == (if Truthy(Get(options, "control_col")) then Get(options, "control_col") else Str(DefaultControlCol))
      ensures labelErrors == (if Truthy(Get(options, "label_errors")) then Get(options, "label_errors") else Bool(false))
      ensures Get(options, "inline_errors") == Nil ==> (inlineErrors <==> labelErrors != Bool(true))
      ensures Get(options, "inline_errors") != Nil ==> (inlineErrors <==> Get(options, "inline_errors") != Bool(false))
      ensures actsLikeFormTag == Get(options, "acts_like_form_tag")
    {
      this.model := model;
      layout := Get(options, "layout");
      labelCol := Or(Get(options, "label_col"), Str(DefaultLabelCol));
      controlCol := Or(Get(options, "control_col"), Str(DefaultControlCol));
      var labelErrors := Or(Get(options, "label_errors"), Bool(false));
      this.labelErrors := labelErrors;
      inlineErrors := if Get(options, "inline_errors") == Nil then labelErrors != Bool(true)
                      else Get(options, "inline_errors") != Bool(false);
      actsLikeFormTag := Get(options, "acts_like_form_tag");
    }

    /** `object.errors[name]`: empty for a field without errors. */
    function Messages(name: Value): seq<string> {
      if model.Some? && model.value.errors.Some? && NameKey(name) in model.value.errors.value
      then model.value.errors.value[NameKey(name)]
      else []
    }

    /** `has_error?` */
    predicate HasError(name: Value) {
      model.Some? && model.value.errors.Some? && name != Nil && Messages(name) != []
    }

    /** `get_error_messages` */
    function ErrorMessages(name: Value): string {
      JoinStrings(Messages(name), ", ")
    }

    /** `required_attribute?`, with the validator reflection abstracted. */
    predicate RequiredAttribute(name: Value) {
      model.Some? && Truthy(name) && NameKey(name) in model.value.required
    }

    /** `get_help_text_by_i18n_key`: nil without an object or a translation. */
    function HelpTextByI18nKey(name: Value): Value {
      if model.Some? && NameKey(name) in model.value.helpTexts then Str(model.value.helpTexts[NameKey(name)]) else Nil
    }

    /** `get_group_layout` */
    function GroupLayout(groupLayout: Value): (r: Value)
      ensures Truthy(groupLayout) ==> r == groupLayout
      ensures !Truthy(groupLayout) ==> r == layout
    {
      Or(groupLayout, layout)
    }

    predicate IsHorizontal(groupLayout: Value) {
      GroupLayout(groupLayout) == Horizontal
    }

    /** `check_box` */
    function CheckBox(name: Value, options: Options, checkedValue: Value, uncheckedValue: Value, block: Option<Markup>): Markup {
      var custom := Truthy(Get(options, "custom"));
      var checkboxHtml := Input("check_box", name, [Hash(CheckBoxOptions(options, HasError(name))), checkedValue, uncheckedValue]);
      var description :=
        if block.Some? then block.value
        else if Truthy(Get(options, "label")) then Content(Get(options, "label"))
        else HumanName(name);
      var labelName := CheckBoxLabelName(name, options, checkedValue);
      var labelClass := Get(options, "label_class");
      if custom then
        Tag("div", map["class" := Str(CustomWrapperClass("custom-checkbox", Truthy(Get(options, "inline"))))],
            [checkboxHtml, Label(labelName, [description], map["class" := Str(PrefixedClass("custom-control-label", labelClass))])])
      else
        var html := [checkboxHtml, Text(" "), description];
        var disabledClass := if Truthy(Get(options, "disabled")) then " disabled" else "";
        if Truthy(Get(options, "inline")) then
          Label(labelName, html, map["class" := Str("form-check-inline" + disabledClass + SpacedLabelClass(labelClass))])
        else
          Tag("div", map["class" := Str("form-check" + disabledClass)],
              [Label(labelName, html, map["class" := Str(PrefixedClass("form-check-label", labelClass))])])
    }

    /** `radio_button` */
    function RadioButton(name: Value, value: Value, options: Options): Markup {
      var radioHtml := Input("radio_button", name, [value, Hash(RadioOptions(options))]);
      var labelClass := Get(options, "label_class");
      if Truthy(Get(options, "custom")) then
        Tag("div", map["class" := Str(CustomWrapperClass("custom-radio", Truthy(Get(options, "inline"))))],
            [radioHtml, Label(name, [Content(Get(options, "label"))], map["value" := value, "class" := Str(PrefixedClass("custom-control-label", labelClass))])])
      else
        var html := [radioHtml, Text(" "), Content(Get(options, "label"))];
        var disabledClass := if Truthy(Get(options, "disabled")) then " disabled" else "";
        if Truthy(Get(options, "inline")) then
          Label(name, html, map["class" := Str("radio-inline" + disabledClass + SpacedLabelClass(labelClass)), "value" := value])
        else
          Tag("div", map["class" := Str("radio" + disabledClass)], [Label(name, html, map["value" := value, "class" := labelClass])])
    }

    /** The classes `generate_label` joins: the label's own, then the label
        column in a horizontal group, then "required" for a required field
        unless `skip_required` is set. */
    function LabelClasses(name: Value, labelOptions: Options, customLabelCol: Value, groupLayout: Value): seq<Value> {
      [Get(labelOptions, "class")]
        + (if IsHorizontal(groupLayout) then [Str("col-form-label"), Or(customLabelCol, labelCol)] else [])
        + (if !Truthy(Get(labelOptions, "skip_required")) && RequiredAttribute(name) then [Str("required")] else [])
    }

    /** The label's class: its classes joined and stripped. */
    function LabelClass(name: Value, labelOptions: Options, customLabelCol: Value, groupLayout: Value): string {
      Strip(CompactJoin(LabelClasses(name, labelOptions, customLabelCol, groupLayout), " "))
    }

    /** `generate_label`. A label option that is not a hash makes the hash
        operations on it raise. */
    function GenerateLabel(id: Value, name: Value, labelOptions: Value, customLabelCol: Value, groupLayout: Value): Result<Markup> {
      if !labelOptions.Hash? then
        if labelOptions.Bool? || labelOptions.Ref? || labelOptions.Nil? then Err(NoMethodError("undefined method `[]' for the label option"))
        else Err(TypeError("the label option is not a Hash"))
      else
        Ok(RenderLabel(id, name, labelOptions.entries, customLabelCol, groupLayout))
    }

    /** `generate_label` on a hash of label options: the label's class is
        computed, and with `label_errors` set, a field with errors has its
        messages appended to the label text. */
    function RenderLabel(id: Value, name: Value, labelOptions: Options, customLabelCol: Value, groupLayout: Value): (m: Markup)
      ensures m.Label? && m.name == name
    {
      var withFor := if Truthy(actsLikeFormTag) then labelOptions["for" := id] else labelOptions;
      var attrs := LabelAttributes(withFor, LabelClass(name, withFor, customLabelCol, groupLayout));
      var text := Get(withFor, "text");
      if Truthy(labelErrors) && HasError(name) then
        Label(name, [if Truthy(text) then Text(ToS(text)) else HumanName(name), Text(" " + ErrorMessages(name))], attrs)
      else
        Label(name, [Content(text)], attrs)
    }

    /** The steps `generate_label` takes on the label options hash, in
        place: `for` is set in a builder that acts like `form_tag`,
        `skip_required` is deleted, and the class is set, or deleted when it
        is empty. The `text` entry stays; the label is rendered without it.
        `RenderLabel`, a function, cannot call a method: it uses
        `LabelAttributes`, which this method is proved to compute. */
    method LabelSteps(id: Value, name: Value, labelOptions: Options, customLabelCol: Value, groupLayout: Value) returns (options: Options)
      ensures var withFor := if Truthy(actsLikeFormTag) then labelOptions["for" := id] else labelOptions;
              && options - {"text"} == LabelAttributes(withFor, LabelClass(name, withFor, customLabelCol, groupLayout))
              && Get(options, "text") == Get(labelOptions, "text")
    {
      options := labelOptions;
      if Truthy(actsLikeFormTag) {
        options := options["for" := id];
      }
      ghost var withFor := options;
      assert Get(withFor, "text") == Get(labelOptions, "text");
      var classes := CollectLabelClasses(name, options, customLabelCol, groupLayout);
      options := options - {"skip_required"};
      var cls := Strip(CompactJoin(classes, " "));
      assert cls == LabelClass(name, withFor, customLabelCol, groupLayout);
      options := options["class" := Str(cls)];
      if cls == "" {
        options := options - {"class"};
      }
      assert Get(options, "text") == Get(withFor, "text");
      LabelAttributesSteps(withFor, cls);
    }

    /** The class list of `generate_label`, appended to step by step. */
    method CollectLabelClasses(name: Value, options: Options, customLabelCol: Value, groupLayout: Value) returns (classes: seq<Value>)
      ensures classes == LabelClasses(name, options, customLabelCol, groupLayout)
    {
      classes := [Get(options, "class")];
      if IsHorizontal(groupLayout) {
        classes := classes + [Str("col-form-label"), Or(customLabelCol, labelCol)];
      }
      if !Truthy(Get(options, "skip_required")) && RequiredAttribute(name) {
        classes := classes + [Str("required")];
      }
    }

    /** `generate_help`: the field's errors in an "invalid-feedback" div when
        it has errors and errors are shown inline, otherwise the help text (or
        its translation) in a "form-text text-muted" small tag; nothing for
        `help: false` or blank text. */
    function GenerateHelp(name: Value, helpText: Value): Option<Markup> {
      if HasError(name) && inlineErrors then
        var text := ErrorMessages(name);
        if Blank(Str(text)) then None else Some(Tag("div", map["class" := Str("invalid-feedback")], [Text(text)]))
      else if helpText == Bool(false) then None
      else
        var text := Or(helpText, HelpTextByI18nKey(name));
        if Blank(text) then None else Some(Tag("small", map["class" := Str("form-text text-muted")], [Text(ToS(text))]))
    }

    /** The class steps of `form_group`: "form-group" joined with the
        caller's class, then " row" and " has-feedback" appended in place.
        `FormGroup`, a function, cannot call a method: it uses `GroupClass`,
        which this method is proved to compute. */
    method GroupClassSteps(userClass: Value, groupLayout: Value, icon: Value) returns (cls: string)
      ensures cls == GroupClass(userClass, IsHorizontal(groupLayout), Truthy(icon))
    {
      cls := CompactJoin([Str("form-group"), userClass], " ");
      if IsHorizontal(groupLayout) {
        cls := cls + " row";
      }
      if Truthy(icon) {
        cls := cls + (" " + FeedbackClass);
      }
    }

    /** The label `form_group` renders, when its label option is a hash. */
    function GroupLabelPart(name: Value, options: Options): seq<Markup> {
      var given := Get(options, "label");
      if Truthy(given) && given.Hash? then [RenderLabel(Get(options, "id"), name, given.entries, Get(options, "label_col"), Get(options, "layout"))]
      else []
    }

    /** The help markup `form_group` renders after the control, if any. */
    function HelpPart(name: Value, options: Options): seq<Markup> {
      var h := GenerateHelp(name, Get(options, "help"));
      if h.Some? then [h.value] else []
    }

    /** The class of the column div of a horizontal group: the control column,
        offset by the label column when there is no label. */
    function ColumnClass(options: Options): Value {
      var controlClass := Or(Get(options, "control_col"), controlCol);
      var offsetFrom := Or(Get(options, "label_col"), labelCol);
      if Truthy(Get(options, "label")) || !offsetFrom.Str? then controlClass
      else Str(ToS(controlClass) + " " + OffsetCol(offsetFrom.s))
    }

    /** `form_group`: a div with the group class around the label (when a
        label option is set) and the control followed by its help; in a
        horizontal group the control sits in a column div, offset by the
        label column when there is no label. */
    function FormGroup(name: Value, options: Options, body: seq<Markup>): Result<Markup> {
      var horizontal := IsHorizontal(Get(options, "layout"));
      var attrs := (options - GroupOnlyKeys)["class" := Str(GroupClass(Get(options, "class"), horizontal, Truthy(Get(options, "icon"))))];
      var hasLabel := Truthy(Get(options, "label"));
      var generated := if hasLabel then GenerateLabel(Get(options, "id"), name, Get(options, "label"), Get(options, "label_col"), Get(options, "layout")) else Ok(Text(""));
      if generated.Err? then Err(generated.error)
      else
        var control := body + HelpPart(name, options);
        if !horizontal then Ok(Tag("div", attrs, GroupLabelPart(name, options) + control))
        else if !hasLabel && !Or(Get(options, "label_col"), labelCol).Str? then Err(NoMethodError("undefined method `sub' for the label column"))
        else Ok(Tag("div", attrs, GroupLabelPart(name, options) + [Tag("div", map["class" := ColumnClass(options)], control)]))
    }

    /** The options `form_group_builder` gives `form_group`: the id, help,
        icon, columns and effective layout of the field, the wrapper class,
        and then the caller's `wrapper` hash on top. */
    function GroupBase(fieldOptions: Options, wrapperClass: Value, wrapperOptions: Value): (g: Options)
      ensures wrapperOptions.Hash? ==> forall k :: k in wrapperOptions.entries ==> k in g && g[k] == wrapperOptions.entries[k]
      ensures !wrapperOptions.Hash? ==> g.Keys == GroupOnlyKeys - {"label"} + {"class"}
      ensures !wrapperOptions.Hash? ==> g["layout"] == GroupLayout(Get(fieldOptions, "layout")) && g["class"] == wrapperClass
    {
      var g := map[
        "id" := Get(fieldOptions, "id"), "help" := Get(fieldOptions, "help"), "icon" := Get(fieldOptions, "icon"),
        "label_col" := Get(fieldOptions, "label_col"), "control_col" := Get(fieldOptions, "control_col"),
        "layout" := GroupLayout(Get(fieldOptions, "layout")), "class" := wrapperClass];
      if wrapperOptions.Hash? then g + wrapperOptions.entries else g
    }

    /** The group step of `form_group_builder`: the group options are read
        from the field's options, deleting the ones only the group uses. */
    method TakeGroupOptions(opts: Options, wrapperClass: Value, wrapperOptions: Value) returns (rest: Options, group: Options)
      ensures rest == opts - FieldGroupKeys
      ensures group == GroupBase(opts, wrapperClass, wrapperOptions)
    {
      rest := opts;
      var help, icon, labelCol, controlCol := Get(rest, "help"), Get(rest, "icon"), Get(rest, "label_col"), Get(rest, "control_col");
      var layout := GroupLayout(Get(rest, "layout"));
      rest := rest - {"help", "icon", "label_col", "control_col", "layout"};
      group := map["id" := Get(rest, "id"), "help" := help, "icon" := icon, "label_col" := labelCol,
                   "control_col" := controlCol, "layout" := layout, "class" := wrapperClass];
      if wrapperOptions.Hash? {
        group := group + wrapperOptions.entries;
      }
      rest := rest - {"skip_label"};
    }

    /** The field's options before the group step: with the control-class
        step done when they carry the control's css options, and with name
        and id defaulted in a builder that acts like `form_tag`. */
    function FieldOptions(name: Value, options: Options, html: Option<Options>): Options {
      var fieldOptions := if html.Some? then options else StyledCss(options, HasError(name));
      if Truthy(actsLikeFormTag) then ConvertFormTagOptions(name, fieldOptions) else fieldOptions
    }

    /** The options `form_group_builder` hands to `form_group`: the group
        options, then the label settings unless `skip_label` is set. */
    function GroupOptions(withIds: Options, css: Options): (g: Options)
      ensures !Truthy(Get(withIds, "skip_label")) ==> "label" in g && g["label"] == LabelHash(withIds - FieldGroupKeys)
    {
      var group := GroupBase(withIds, Get(css, "wrapper_class"), Get(css, "wrapper"));
      if Truthy(Get(withIds, "skip_label")) then group else group["label" := LabelHash(withIds - FieldGroupKeys)]
    }

    /** What `form_group_builder` does to the field's options (and html
        options), and the options it hands to `form_group`. */
    function Prepare(name: Value, options: Options, html: Option<Options>): (p: Prepared)
      ensures p.html.Some? <==> html.Some?
    {
      var css := if html.Some? then html.value else options;
      var withIds := FieldOptions(name, options, html);
      Prepared(FieldRest(withIds), if html.Some? then Some(StyledCss(css, HasError(name))) else None, GroupOptions(withIds, css))
    }

    /** The control-class step of `form_group_builder`, on the hash that
        carries the control's css options. */
    method StyleControl(name: Value, css: Options) returns (styled: Options, wrapperClass: Value, wrapperOptions: Value)
      ensures styled == StyledCss(css, HasError(name))
      ensures wrapperClass == Get(css, "wrapper_class") && wrapperOptions == Get(css, "wrapper")
    {
      styled := css;
      var controlClasses := if "control_class" in styled then styled["control_class"] else Str(ControlClass);
      styled := styled - {"control_class"};
      assert Get(styled, "class") == Get(css, "class");
      var cls := CompactJoin([controlClasses, Get(styled, "class")], " ");
      if HasError(name) {
        cls := cls + " is-invalid";
      }
      assert cls == ControlClasses(css, HasError(name));
      styled := styled["class" := Str(cls)];
      wrapperClass := Get(styled, "wrapper_class");
      wrapperOptions := Get(styled, "wrapper");
      styled := styled - {"wrapper_class", "wrapper"};
      ghost var expected := StyledCss(css, HasError(name));
      assert styled.Keys == expected.Keys;
      assert forall k :: k in styled ==> styled[k] == expected[k];
    }

    /** `form_group_builder`, up to the `yield`: rewrites the field's options
        (and html options) in place, step by step, and builds the options of
        the group. The caller renders the control from the rewritten options
        and passes it to `FormGroup` with the group options. */
    method FormGroupBuilder(name: Value, options: Options, html: Option<Options>)
      returns (newOptions: Options, newHtml: Option<Options>, group: Options)
      ensures Prepared(newOptions, newHtml, group) == Prepare(name, options, html)
    {
      // The control class, the wrapper class and the wrapper options come from
      // the html options when there are some, else from the options.
      var css := if html.Some? then html.value else options;
      var styled, wrapperClass, wrapperOptions := StyleControl(name, css);
      var opts := if html.Some? then options else styled;
      if Truthy(actsLikeFormTag) {
        opts := ConvertFormTagOptions(name, opts);
      }
      var skipLabel := Get(opts, "skip_label");
      opts, group := TakeGroupOptions(opts, wrapperClass, wrapperOptions);
      if !Truthy(skipLabel) {
        var labelHash;
        opts, labelHash := TakeLabelOptions(opts);
        group := group["label" := labelHash];
      }
      newOptions := opts;
      newHtml := if html.Some? then Some(styled) else None;
    }

    /** The block of `collection_radio_buttons` or `collection_check_boxes`,
        called with the field name, the item's value and its options. */
    function CollectionBlock(kind: CollectionKind, name: Value, value: Value, options: Options): Markup {
      match kind
      case RadioButtons => RadioButton(name, value, options)
      case CheckBoxes => CheckBox(name, options["multiple" := Bool(true)], value, Nil, None)
    }

    /** The markup rendered for one item of a collection. */
    function ItemInput(kind: CollectionKind, name: Value, item: Item, options: Options): Markup {
      CollectionBlock(kind, name, item.value, ItemOptions(options, item))
    }

    /** One pass of the loop of `inputs_collection`: the item's options,
        then the block's markup. */
    method RenderItem(kind: CollectionKind, name: Value, item: Item, options: Options) returns (input: Markup)
      ensures input == ItemInput(kind, name, item, options)
    {
      var inputOptions := ItemInputOptions(options, item);
      input := CollectionBlock(kind, name, item.value, inputOptions);
    }

    /** The loop of `inputs_collection`: the block's markup for each item,
        in collection order. */
    method RenderItems(kind: CollectionKind, name: Value, items: seq<Item>, options: Options) returns (inputs: seq<Markup>)
      ensures |inputs| == |items|
      ensures forall j :: 0 <= j < |items| ==> inputs[j] == ItemInput(kind, name, items[j], options)
    {
      inputs := [];
      var i := 0;
      while i < |items|
        invariant 0 <= i <= |items|
        invariant |inputs| == i
        invariant forall j :: 0 <= j < i ==> inputs[j] == ItemInput(kind, name, items[j], options)
      {
        var input := RenderItem(kind, name, items[i], options);
        inputs := inputs + [input];
        i := i + 1;
      }
    }

    /** `inputs_collection`: one input per item, in collection order, inside
        the form group of the field. */
    method InputsCollection(kind: CollectionKind, name: Value, items: seq<Item>, options: Options)
      returns (newOptions: Options, r: Result<Markup>)
      ensures newOptions == Prepare(name, options, None).options
      ensures r == FormGroup(name, Prepare(name, options, None).group,
                             seq(|items|, j requires 0 <= j < |items| => ItemInput(kind, name, items[j], newOptions)))
    {
      var html, group;
      newOptions, html, group := FormGroupBuilder(name, options, None);
      var inputs := RenderItems(kind, name, items, newOptions);
      assert inputs == seq(|items|, j requires 0 <= j < |items| => ItemInput(kind, name, items[j], newOptions));
      r := FormGroup(name, group, inputs);
    }

    /** A text helper such as `text_field`: the base input, given the
        options `form_group_builder` leaves, inside the field's form group. */
    method FieldHelper(helper: string, name: Value, options: Options) returns (r: Result<Markup>)
      requires helper in FieldHelpers
      ensures r == FormGroup(name, Prepare(name, options, None).group,
                             [Input(helper, name, [Hash(Prepare(name, options, None).options)])])
    {
      var newOptions, html, group := FormGroupBuilder(name, options, None);
      r := FormGroup(name, group, [Input(helper, name, [Hash(newOptions)])]);
    }

    /** `date_select`, `time_select` and `datetime_select`: the control class
        goes on the html options, and the selects sit in a div whose class is
        derived from the helper's name. */
    method DateSelect(helper: string, name: Value, options: Options, html: Options) returns (r: Result<Markup>)
      requires helper in DateSelectHelpers
      ensures r == FormGroup(name, Prepare(name, options, Some(html)).group,
                             [Tag("div", map["class" := Str(ControlSpecificClass(helper))],
                                  [Input(helper, name, [Hash(Prepare(name, options, Some(html)).options),
                                                        Hash(Prepare(name, options, Some(html)).html.value)])])])
    {
      var newOptions, newHtml, group := FormGroupBuilder(name, options, Some(html));
      r := FormGroup(name, group, [Tag("div", map["class" := Str(ControlSpecificClass(helper))],
                                       [Input(helper, name, [Hash(newOptions), Hash(newHtml.value)])])]);
    }

    /** `select`, `collection_select`, `grouped_collection_select` and
        `time_zone_select`: the helper's own arguments, then the options and
        html options as `form_group_builder` leaves them. */
    method SelectHelper(helper: string, name: Value, args: seq<Value>, options: Options, html: Options) returns (r: Result<Markup>)
      requires helper in SelectHelpers
      ensures r == FormGroup(name, Prepare(name, options, Some(html)).group,
                             [Input(helper, name, args + [Hash(Prepare(name, options, Some(html)).options),
                                                          Hash(Prepare(name, options, Some(html)).html.value)])])
    {
      var newOptions, newHtml, group := FormGroupBuilder(name, options, Some(html));
      r := FormGroup(name, group, [Input(helper, name, args + [Hash(newOptions), Hash(newHtml.value)])]);
    }

    /** `file_field` as written: `form_group_builder` works on a copy of the
        options that has `control_class: nil` merged in, and the input is
        rendered from the caller's own options, not the rewritten copy (the
        source's deletes from a shared label hash are not modelled). */
    method FileFieldAsWritten(name: Value, options: Options) returns (r: Result<Markup>)
      ensures r == FormGroup(name, Prepare(name, FileFieldOptions(options), None).group,
                             [Input("file_field", name, [Hash(options)])])
    {
      var copy := FileFieldOptions(options);
      var newOptions, html, group := FormGroupBuilder(name, copy, None);
      r := FormGroup(name, group, [Input("file_field", name, [Hash(options)])]);
    }

    /** `file_field` as intended: the input is rendered from the options
        `form_group_builder` rewrote, so it gets no "form-control" class but
        does get the user's class and "is-invalid", and none of the group's
        options. */
    method FileField(name: Value, options: Options) returns (r: Result<Markup>)
      ensures r == FormGroup(name, Prepare(name, FileFieldOptions(options), None).group,
                             [Input("file_field", name, [Hash(Prepare(name, FileFieldOptions(options), None).options)])])
    {
      var copy := FileFieldOptions(options);
      var newOptions, html, group := FormGroupBuilder(name, copy, None);
      r := FormGroup(name, group, [Input("file_field", name, [Hash(newOptions)])]);
    }

    /** `collection_radio_buttons`: a radio button per item. */
    method CollectionRadioButtons(name: Value, items: seq<Item>, options: Options) returns (r: Result<Markup>)
      ensures r == FormGroup(name, Prepare(name, options, None).group,
                             seq(|items|, j requires 0 <= j < |items| => ItemInput(RadioButtons, name, items[j], Prepare(name, options, None).options)))
    {
      var newOptions;
      newOptions, r := InputsCollection(RadioButtons, name, items, options);
    }

    /** `collection_check_boxes`: a checkbox per item, preceded by a hidden
        field with an empty value so that a form with nothing checked still
        submits the field. */
    method CollectionCheckBoxes(name: Value, items: seq<Item>, options: Options) returns (r: Result<seq<Markup>>)
      ensures var group := FormGroup(name, Prepare(name, options, None).group,
                                     seq(|items|, j requires 0 <= j < |items| => ItemInput(CheckBoxes, name, items[j], Prepare(name, options, None).options)));
              && (r.Ok? <==> group.Ok?)
              && (r.Ok? ==> r.value == [HiddenField(name), group.value])
    {
      var newOptions, group := InputsCollection(CheckBoxes, name, items, options);
      if group.Err? {
        r := Err(group.error);
      } else {
        r := Ok([HiddenField(name), group.value]);
      }
    }
  }

  /** The options `file_field` hands to `form_group_builder`: the caller's,
      with the control class switched off unless the caller names one. */
  function FileFieldOptions(options: Options): Options {
    ReverseMerge(options, map["control_class" := Nil])
  }

  /** The hidden field `collection_check_boxes` puts before the checkboxes:
      an empty value submitted as an array, so that a form with no box
      checked still sends the field. */
  function HiddenField(name: Value): (m: Markup)
    ensures m.Input? && m.helper == "hidden_field" && m.name == name
    ensures |m.args| == 1 && m.args[0].Hash? && m.args[0].entries.Keys == {"value", "multiple"}
    ensures Get(m.args[0].entries, "value") == Str("") && Get(m.args[0].entries, "multiple") == Bool(true)
  {
    Input("hidden_field", name, [Hash(map["value" := Str(""), "multiple" := Bool(true)])])
  }
}
