# bootstrap_form's FormBuilder, in Dafny

A model of `BootstrapForm::FormBuilder`, the Rails form builder that wraps
each field in Bootstrap 4 markup. The builder does not render HTML itself:
it rewrites the caller's option hashes, computes class strings, and
arranges the markup of Rails' own helpers (the input, `label` and
`content_tag`) into a form group. The model keeps exactly that split.

- `ruby_values.dfy` (module `RubyValues`): Ruby values as a datatype
  (nil, booleans, integers, strings, symbols, arrays, hashes, and opaque
  object references), option hashes as `map<string, Value>`, and the Ruby
  idioms the builder relies on: truthiness, `||`, `||=`, `to_s`,
  `compact.join`, `Array(x).include?` and `blank?`.
- `html.dfy` (module `Html`): the markup the builder returns. Rails'
  helpers are opaque constructors, so every statement about markup is a
  statement about this builder's choices. `InputsIn` and `LabelsIn` list
  the inputs and labels of some markup in document order.
- `text_rules.dfy` (module `TextRules`): the regular-expression rewrites:
  `offset_col`, the sanitised label id suffix of a `multiple` checkbox,
  `control_specific_class` and `String#strip`.
- `form_builder.dfy` (module `BootstrapForm`): the builder.
  - `initialize` is the constructor of class `FormBuilder`, whose settings
    are `const` fields because the builder only reads them.
  - `check_box` and `radio_button` are functions.
  - `form_group`, `generate_label` and `generate_help` are functions.
  - `form_group_builder` is the method `FormGroupBuilder`. It rewrites the
    option hashes step by step, as the source does in place. Its result is
    specified by the function `Prepare`.
  - `inputs_collection` is a method with a loop over the items. The field
    helpers, the selects, `file_field` and the two collection helpers are
    methods on top of it.
- `choice_properties.dfy`, `group_properties.dfy`, `render_properties.dfy`,
  `collection_properties.dfy`, `file_field_properties.dfy`: the properties
  of the checkbox and radio wrappers, of `form_group_builder`, of what
  `form_group` renders, of collections, and of `file_field`.

The bound object is a `BoundObject` value. It holds the error messages per
attribute, the attributes that have a presence validator, and the help
texts I18n would find. The builder's lookups `has_error?`,
`get_error_messages`, `required_attribute?` and
`get_help_text_by_i18n_key` read from it.

## Model

| member | source | states |
|---|---|---|
| BootstrapForm.FormBuilder.constructor | lib/bootstrap_form/form_builder.rb:18-31 | The layout and the form-tag flag are taken from the options. The label column defaults to "col-sm-2" and the control column to "col-sm-10" when the option is falsy. `label_errors` defaults to false. Without an `inline_errors` option, inline errors are on unless `label_errors` is exactly true. With the option, they are on unless it is exactly false. |
| BootstrapForm.FormBuilder.GroupLayout | lib/bootstrap_form/form_builder.rb:253-255 | A truthy group layout wins; otherwise the builder's layout applies. |
| BootstrapForm.ReverseMerge | lib/bootstrap_form/form_builder.rb:56 | The merged hash has the keys of both hashes. The hash's own entries win, and the defaults fill only the missing keys. |
| BootstrapForm.ConvertFormTagOptions | lib/bootstrap_form/form_builder.rb:370-374 | The result has `name` and `id` defaulted to the field name when falsy. Every other entry is unchanged and no other key is added. |
| TextRules.OffsetCol | lib/bootstrap_form/form_builder.rb:261-263 | A one-line column class `col-<word>-<digit>` becomes `offset-<word>-<digit>`. Any other one-line string is unchanged. The length grows by 3 or not at all. |
| TextRules.OffsetIsNotColClass | lib/bootstrap_form/form_builder.rb:261-263 | A rewritten class never matches the pattern again. |
| TextRules.OffsetColRoundTrip | lib/bootstrap_form/form_builder.rb:261-263 | On one-line input `offset_col` is idempotent, and it changes its input exactly when the input is a column class. Putting "col-" back in place of "offset-" restores the original. |
| TextRules.OffsetColExamples | lib/bootstrap_form/form_builder.rb:257-263 | The default label column "col-sm-2" becomes "offset-sm-2". A two-digit column such as "col-sm-10" is left unchanged. |
| TextRules.LabelIdSuffix | lib/bootstrap_form/form_builder.rb:111-114 | The sanitised suffix is no longer than the value's text. It holds only lower-case letters, digits, `_` and `-`. |
| TextRules.LabelIdSuffixKeepsIdChars | lib/bootstrap_form/form_builder.rb:111-114 | Text that holds only those characters is unchanged. |
| TextRules.LabelIdSuffixIdempotent | lib/bootstrap_form/form_builder.rb:111-114 | Sanitising twice gives the same suffix as sanitising once. |
| TextRules.LabelIdSuffixAppend | lib/bootstrap_form/form_builder.rb:111-114 | The sanitising works character by character, so it distributes over concatenation. |
| TextRules.LabelIdSuffixExample | lib/bootstrap_form/form_builder.rb:111-114 | "Foo Bar!" becomes "foo_bar": white space becomes `_`, punctuation is dropped and letters are lower-cased. |
| TextRules.ControlSpecificClass | lib/bootstrap_form/form_builder.rb:281-283 | The class is "rails-bootstrap-forms-" followed by the helper's name, character by character, with each `_` turned into `-` and every other character kept. No underscore remains. |
| TextRules.Strip | lib/bootstrap_form/form_builder.rb:389 | The result is no longer than the input. It neither starts nor ends with white space or NUL. Text that already does neither is returned unchanged. |
| TextRules.StripTrimsEnds | lib/bootstrap_form/form_builder.rb:389 | `strip` removes only leading and trailing white space and NUL: the result is a slice of the input, and every character before or after it is one `strip` removes. |
| BootstrapForm.CheckBoxInputClass | lib/bootstrap_form/form_builder.rb:90-96 | A custom checkbox's input class is "custom-control-input", then "is-invalid" when the field has errors, then the user's class. Any other checkbox gets "form-check-input" and then the user's class; an error adds nothing. |
| BootstrapForm.CustomWrapperClass | lib/bootstrap_form/form_builder.rb:152-155 | The wrapper of a custom radio or checkbox has class "custom-control", then its kind, then "custom-control-inline" only when inline. |
| BootstrapForm.PrefixedClass | lib/bootstrap_form/form_builder.rb:189 | `[first, v].compact.join(" ")` is `first`, followed by a space and the class only when the class is not nil. |
| ChoiceProperties.RadioOptionsPass | lib/bootstrap_form/form_builder.rb:139-140 | The radio input gets every option except `label`, `label_class`, `help`, `inline` and `custom`, with the values unchanged. Only a custom radio's class changes, to "custom-control-input" followed by the user's class. |
| ChoiceProperties.CheckBoxOptionsPass | lib/bootstrap_form/form_builder.rb:89-96 | The checkbox input gets every option except the wrapper's options, with the values unchanged, and the class that `CheckBoxInputClass` computes. |
| BootstrapForm.FormBuilder.CheckBox | lib/bootstrap_form/form_builder.rb:87-135 | `check_box`. ChoiceProperties.CheckBoxInput, CheckBoxCustom, CheckBoxInline, CheckBoxStacked and CheckBoxLabelNameSuffix state what it renders. |
| BootstrapForm.FormBuilder.RadioButton | lib/bootstrap_form/form_builder.rb:137-168 | `radio_button`. ChoiceProperties.RadioButtonInput, RadioButtonCustom, RadioButtonInline and RadioButtonStacked state what it renders. |
| ChoiceProperties.RadioButtonCustom | test/bootstrap_radio_button_test.rb:303-340 | A custom radio is a div of class "custom-control custom-radio", plus "custom-control-inline" when inline. `disabled` does not change that class. Inside come the input, then a label for the value of class "custom-control-label" and the label class. |
| ChoiceProperties.RadioButtonInline | lib/bootstrap_form/form_builder.rb:159-161 | A non-custom inline radio is a bare label for the value. Its class is "radio-inline", then " disabled", then the label class. |
| ChoiceProperties.RadioButtonStacked | test/bootstrap_radio_button_test.rb:8-42 | Any other radio is a div of class "radio", or "radio disabled". The div holds one label for the value, whose class is the label class as given. |
| ChoiceProperties.RadioButtonInput | lib/bootstrap_form/form_builder.rb:137-147 | Whatever the options, a radio button renders exactly one input: the base radio for the value with the options above. |
| ChoiceProperties.CheckBoxInput | lib/bootstrap_form/form_builder.rb:87-105 | A checkbox renders the base checkbox first, with the checked and unchecked values and the options above. After it come only the inputs of the label block, if any. |
| ChoiceProperties.CheckBoxCustom | lib/bootstrap_form/form_builder.rb:118-123 | A custom checkbox is a div of class "custom-control custom-checkbox", plus "custom-control-inline" when inline. Inside come the input, then the label of class "custom-control-label" and the label class. |
| ChoiceProperties.CheckBoxInline | lib/bootstrap_form/form_builder.rb:125-128 | A non-custom inline checkbox is a bare label. Its class is "form-check-inline", then " disabled", then the label class. |
| ChoiceProperties.CheckBoxStacked | lib/bootstrap_form/form_builder.rb:129-133 | Any other checkbox is a div of class "form-check", or "form-check disabled". It holds one label of class "form-check-label" and the label class. |
| ChoiceProperties.CheckBoxLabelNameSuffix | lib/bootstrap_form/form_builder.rb:107-114 | A `multiple` checkbox's label is named after the field, then `_`, then the sanitised checked value. That suffix holds only id characters and is already in sanitised form. Otherwise the label has the field's name. |
| BootstrapForm.ControlClasses | lib/bootstrap_form/form_builder.rb:316-320 | The control's class text. Its contract is stated by GroupProperties.ControlClassRules: "form-control" unless `control_class` is given, then the caller's class, then " is-invalid" exactly when the field has an error. |
| GroupProperties.ControlClassRules | lib/bootstrap_form/form_builder.rb:316-320 | By default the control class is "form-control" and the user's class. `control_class: nil` leaves only the user's class. A given control class replaces "form-control". In every case " is-invalid" follows when the field has errors. |
| BootstrapForm.StyledCss | lib/bootstrap_form/form_builder.rb:316-325 | The css hash loses `control_class`, `wrapper_class` and `wrapper` and gets the computed class. Every other entry is unchanged. |
| BootstrapForm.FormBuilder.StyleControl | lib/bootstrap_form/form_builder.rb:316-325 | The in-place steps on the css hash give `StyledCss`. The wrapper class and the wrapper options are the ones the hash carried. |
| GroupProperties.FieldOptionsKeep | lib/bootstrap_form/form_builder.rb:312-322 | Before the group step, an option other than the style options, `class`, `name` and `id` is exactly as the caller gave it. |
| GroupProperties.FieldOptionsControlClass | lib/bootstrap_form/form_builder.rb:317-320 | Without html options, the field's own options carry the control class and lose the style options. |
| GroupProperties.FieldOptionsNameAndId | lib/bootstrap_form/form_builder.rb:322 | In a builder that acts like `form_tag`, `name` and `id` default to the field name. Otherwise they are the caller's. |
| BootstrapForm.LabelOptions | lib/bootstrap_form/form_builder.rb:345-356 | `hide_label` forces the class "sr-only". A label hash gives the text from its `text` and the class from its `class` when that is truthy, otherwise from `label_class`; the hash is consumed, and `label_class` is consumed exactly when the hash gave no class. Without a label hash, the class is `label_class` and `label_class` is consumed. A string label is the label text and is consumed; `label` is consumed exactly when it is a hash or a string. `hide_label` and `skip_required` are always consumed, and only label options are. |
| BootstrapForm.TakeLabelOptions | lib/bootstrap_form/form_builder.rb:345-362 | Deleting the label options one by one leaves the field's options without exactly the consumed keys, and builds the label entry of the group. |
| BootstrapForm.FieldRest | lib/bootstrap_form/form_builder.rb:324-363 | After the group and label steps, the field's options lose the group-only keys. Unless `skip_label` is set, they also lose `hide_label` and `skip_required`. Every option that neither step touches survives. |
| GroupProperties.FieldRestKeepsNameIdClass | lib/bootstrap_form/form_builder.rb:324-363 | The group and label steps leave `name`, `id` and `class` alone. |
| GroupProperties.PrepareDropsGroupOptions | lib/bootstrap_form/form_builder.rb:324-363 | The control never receives `help`, `icon`, the columns, `layout` or `skip_label`. Without html options it never receives the style options either. Unless `skip_label` is set, it never receives `hide_label` or `skip_required`. |
| GroupProperties.PrepareControlClass | lib/bootstrap_form/form_builder.rb:316-320 | Without html options, the control's options carry the computed control class. |
| GroupProperties.PrepareHtmlOptions | lib/bootstrap_form/form_builder.rb:317-320 | With html options, the control class and the style options are handled there. The field's options keep their own class. |
| GroupProperties.PrepareNameAndId | lib/bootstrap_form/form_builder.rb:322 | In a builder that acts like `form_tag`, the control's name and id default to the field name. |
| GroupProperties.PrepareKeepsOtherOptions | lib/bootstrap_form/form_builder.rb:312-363 | Every option that the builder does not consume reaches the control unchanged. |
| GroupProperties.LabelHashOfLabelKeys | lib/bootstrap_form/form_builder.rb:345-362 | The label settings depend only on `label`, `label_class`, `hide_label` and `skip_required`. |
| GroupProperties.PrepareGroupLabel | lib/bootstrap_form/form_builder.rb:345-362 | Unless `skip_label` is set, the group's label entry is the text, class and `skip_required` given by the caller's label options. |
| GroupProperties.HideLabelClass | lib/bootstrap_form/form_builder.rb:352 | `hide_label` gives the label the class "sr-only", whatever the label class or the label hash says. |
| GroupProperties.StringLabel | lib/bootstrap_form/form_builder.rb:354-356 | A string label becomes the label text. Without `hide_label`, the class is `label_class`. Neither `label` nor `label_class` reaches the control. |
| BootstrapForm.FormBuilder.GroupBase | lib/bootstrap_form/form_builder.rb:331-343 | Without a wrapper hash, the group options are exactly id, help, icon, the columns, the effective layout and the wrapper class. A wrapper hash's entries all win. |
| BootstrapForm.FormBuilder.TakeGroupOptions | lib/bootstrap_form/form_builder.rb:326-343 | Reading and deleting the group options leaves the field's options without the group-only keys, and builds `GroupBase`. |
| GroupProperties.GroupBaseWithoutWrapper | lib/bootstrap_form/form_builder.rb:331-339 | Without a wrapper hash, the group copies the field's id, help, icon and columns, takes the effective layout, and takes the wrapper class as its class. |
| BootstrapForm.FormBuilder.GroupOptions | lib/bootstrap_form/form_builder.rb:358-362 | Unless `skip_label` is set, the group's label entry is the label settings of the field's remaining options. |
| GroupProperties.GroupOptionsKeep | lib/bootstrap_form/form_builder.rb:358-362 | The label step adds the `label` entry and changes nothing else in the group's options. |
| GroupProperties.PrepareGroupOptions | lib/bootstrap_form/form_builder.rb:326-339 | Without a wrapper hash, the group gets the caller's help, icon, label column and control column unchanged. |
| GroupProperties.PrepareGroupLayoutAndClass | lib/bootstrap_form/form_builder.rb:324-339 | Without a wrapper hash, the group's layout is the field's effective layout. Its class is the wrapper class. |
| GroupProperties.PrepareGroupId | lib/bootstrap_form/form_builder.rb:331-332 | Without a wrapper hash, the group's id is the field's id. In a builder that acts like `form_tag`, that id defaults to the field name. |
| GroupProperties.PrepareGroupWrapper | lib/bootstrap_form/form_builder.rb:341-343 | Each entry of a wrapper hash overrides the group options. The exception is `label`, which the label settings replace unless `skip_label` is set. |
| BootstrapForm.FormBuilder.Prepare | lib/bootstrap_form/form_builder.rb:312-368 | What `form_group_builder` leaves in the field's options, the styled html options and the options given to `form_group`. It keeps the html options present exactly when they were given. The Prepare* lemmas of GroupProperties state the rest, and FormGroupBuilder is proved to compute it. |
| BootstrapForm.FormBuilder.FormGroupBuilder | lib/bootstrap_form/form_builder.rb:312-368 | The in-place rewriting of the options and html options gives the declarative `Prepare`. That covers the control's options, its html options and the group options. |
| BootstrapForm.LabelAttributes | lib/bootstrap_form/form_builder.rb:389-397 | A generated label never carries `text` or `skip_required` as attributes. An empty class is dropped; any other class is set. |
| BootstrapForm.FormBuilder.LabelClasses | lib/bootstrap_form/form_builder.rb:378-387 | The label's classes in order: its own class; "col-form-label" and the label column in a horizontal group; "required" for a required field unless `skip_required` is set. CollectLabelClasses is proved to collect them, and LabelClassRequired and LabelClassHorizontal state the joined result. |
| BootstrapForm.FormBuilder.LabelClass | lib/bootstrap_form/form_builder.rb:389 | The classes, compact, joined with spaces and stripped. RenderProperties.LabelClassRequired and RenderProperties.LabelClassHorizontal state its value. |
| BootstrapForm.FormBuilder.CollectLabelClasses | lib/bootstrap_form/form_builder.rb:378-387 | Appending step by step gives the class list: the label's own class; then "col-form-label" and the label column in a horizontal group; then "required" for a required field without `skip_required`. |
| BootstrapForm.FormBuilder.LabelSteps | lib/bootstrap_form/form_builder.rb:376-390 | The in-place steps on the label hash leave exactly the rendered label's attributes, plus the untouched `text`. |
| BootstrapForm.FormBuilder.RenderLabel | lib/bootstrap_form/form_builder.rb:392-398 | A generated label is a label for the field's name. |
| BootstrapForm.FormBuilder.GenerateLabel | lib/bootstrap_form/form_builder.rb:376-400 | `generate_label`. RenderProperties.GenerateLabelOk states when it fails, and RenderLabelAttributes, RenderLabelRequired, RenderLabelWithoutClass and RenderLabelBody state what it renders. |
| RenderProperties.GenerateLabelOk | lib/bootstrap_form/form_builder.rb:376-400 | `generate_label` succeeds exactly when the label option is a hash. Anything else raises on the hash operations. |
| RenderProperties.RenderLabelAttributes | lib/bootstrap_form/form_builder.rb:376-398 | The label has no `text` or `skip_required` attribute. `for` is the group's id when the builder acts like `form_tag`. A class attribute is never empty. Every other attribute is the caller's. |
| RenderProperties.RenderLabelRequired | lib/bootstrap_form/form_builder.rb:385-390 | In a vertical group, a required field whose label has no class of its own gets the class "required", unless `skip_required` is set. |
| RenderProperties.RenderLabelWithoutClass | lib/bootstrap_form/form_builder.rb:385-390 | In a vertical group, a label without a class of its own and without "required" has no class attribute at all. |
| RenderProperties.LabelClassRequired | lib/bootstrap_form/form_builder.rb:378-390 | In a vertical group without a class of its own, the joined and stripped class is "required" or empty, by the rule above. |
| RenderProperties.LabelClassHorizontal | lib/bootstrap_form/form_builder.rb:378-389 | In a horizontal group a label's class is its own class, then "col-form-label", then the group's `label_col` or, when that is not truthy, the builder's `label_col`, then "required" for a required field without `skip_required`. This holds whenever the own class and the column are words that `strip` leaves alone. |
| RenderProperties.RenderLabelBody | lib/bootstrap_form/form_builder.rb:392-398 | With `label_errors` set and errors on the field, the label text (or the humanised name) is followed by the error messages. Otherwise the content is the `text` option. |
| RenderProperties.LabelHoldsNoInput | lib/bootstrap_form/form_builder.rb:392-398 | A generated label contains no input. |
| BootstrapForm.FormBuilder.GenerateHelp | lib/bootstrap_form/form_builder.rb:402-415 | `generate_help`. Its cases are stated by RenderProperties.HelpShowsErrors, HelpFalse, HelpText, HelpFallsBackToTranslation and HelpShape. |
| RenderProperties.HelpShowsErrors | lib/bootstrap_form/form_builder.rb:402-407 | A field whose errors are shown inline gets its messages in an "invalid-feedback" div, whatever its help option, even `false`. |
| RenderProperties.HelpFalse | lib/bootstrap_form/form_builder.rb:408 | Otherwise `help: false` renders no help. |
| RenderProperties.HelpText | lib/bootstrap_form/form_builder.rb:410-414 | A non-blank help text is rendered in a small tag of class "form-text text-muted". A blank one renders nothing. |
| RenderProperties.HelpFallsBackToTranslation | lib/bootstrap_form/form_builder.rb:411 | Without a help option, the translated help text is used exactly as if it were the option. |
| RenderProperties.HelpShape | lib/bootstrap_form/form_builder.rb:402-415 | Help markup is either the errors div or the muted small tag, holding one text. It is the div exactly when the errors are shown inline. |
| RenderProperties.HelpHoldsNoInput | lib/bootstrap_form/form_builder.rb:414 | Help markup contains no input and no label. |
| BootstrapForm.FormBuilder.GroupClassSteps | lib/bootstrap_form/form_builder.rb:189-191 | The in-place appends give the group class: "form-group" and the caller's class, then " row" when horizontal, then " has-feedback" with an icon. |
| BootstrapForm.GroupClass | lib/bootstrap_form/form_builder.rb:189-191 | The group's class. RenderProperties.GroupClassHead and RenderProperties.GroupClassTail state its value, and GroupClassSteps is proved to compute it. |
| RenderProperties.GroupClassHead | lib/bootstrap_form/form_builder.rb:189-191 | The group class starts with "form-group". It is exactly "form-group" if and only if the group is vertical and has no class and no icon. |
| RenderProperties.GroupClassTail | lib/bootstrap_form/form_builder.rb:190-191 | The group class ends with " has-feedback" when there is an icon. Otherwise it ends with " row" in a horizontal group. |
| BootstrapForm.FormBuilder.FormGroup | lib/bootstrap_form/form_builder.rb:185-209 | `form_group`. RenderProperties.FormGroupFails, FormGroupDiv, FormGroupLayout, DefaultHorizontalColumn, FormGroupInputs and FormGroupLabels state its contract. |
| RenderProperties.FormGroupFails | lib/bootstrap_form/form_builder.rb:194-202 | `form_group` raises exactly in two cases: the label option is truthy but not a hash; or the group is horizontal, has no label, and its label column is not a string. |
| RenderProperties.FormGroupDiv | lib/bootstrap_form/form_builder.rb:189-193 | The group is a div with the group class. Its attributes are every option except id, label, help, icon, the columns and layout. |
| RenderProperties.FormGroupLayout | lib/bootstrap_form/form_builder.rb:194-207 | A vertical group holds the label, the control and the help. A horizontal group holds the label, then a column div around the control and its help. |
| RenderProperties.DefaultHorizontalColumn | lib/bootstrap_form/form_builder.rb:198-205 | With the default columns, a horizontal group without a label puts its control in "col-sm-10 offset-sm-2". |
| RenderProperties.FormGroupInputs | lib/bootstrap_form/form_builder.rb:193-207 | A form group contains exactly its control's inputs, in order. The label and the help add none. |
| RenderProperties.FormGroupLabels | lib/bootstrap_form/form_builder.rb:194-207 | A form group's labels are its own label first, then its control's labels. |
| BootstrapForm.ItemOptions | lib/bootstrap_form/form_builder.rb:426-436 | An item's options are the group's options with the item's text as `label` and no `class`. A set `checked` becomes whether it selects this item. Every other option is unchanged. |
| BootstrapForm.ItemInputOptions | lib/bootstrap_form/form_builder.rb:426-436 | The per-item steps give `ItemOptions`. |
| BootstrapForm.IsChecked | lib/bootstrap_form/form_builder.rb:429-433 | The checked test. CollectionProperties.CheckedBySingleValue, CheckedByArray and CheckedExample state it. |
| CollectionProperties.CheckedBySingleValue | lib/bootstrap_form/form_builder.rb:429-433 | A single `checked` value selects an item exactly when it equals the item's value or object. |
| CollectionProperties.CheckedByArray | lib/bootstrap_form/form_builder.rb:429-433 | A `checked` array selects an item exactly when it holds the item's value or object, or is itself one of them. |
| CollectionProperties.CheckedExample | test/bootstrap_radio_button_test.rb:130-149 | With `checked: 1`, the item whose value is 1 is checked and the item whose value is 2 is not. |
| CollectionProperties.ItemInputClass | lib/bootstrap_form/form_builder.rb:436 | No item input inherits the group's "form-control" class. A radio gets "custom-control-input" only when custom. A checkbox gets its own classes only. |
| CollectionProperties.ItemInputHoldsOneInput | lib/bootstrap_form/form_builder.rb:170-181 | Each item renders exactly one input: its radio or its `multiple` checkbox for the item's value. |
| BootstrapForm.FormBuilder.RenderItem | lib/bootstrap_form/form_builder.rb:426-437 | One pass of the loop renders the block for the item's value with the item's options: the text label, the `checked` test, and no `class`. |
| BootstrapForm.FormBuilder.RenderItems | lib/bootstrap_form/form_builder.rb:425-438 | The loop renders one piece of markup per item, each from that item's options, in collection order. |
| CollectionProperties.ItemInputsInOrder | lib/bootstrap_form/form_builder.rb:425-438 | The items' markup holds exactly one input per item, in collection order. |
| BootstrapForm.FormBuilder.InputsCollection | lib/bootstrap_form/form_builder.rb:421-442 | The group is built from the rewritten options. It holds the items' markup in order, and the caller's options end as `form_group_builder` left them. |
| CollectionProperties.CollectionInputs | test/bootstrap_radio_button_test.rb:92-111 | A collection's group holds one input per item, in collection order, and no other input. |
| BootstrapForm.FormBuilder.CollectionRadioButtons | lib/bootstrap_form/form_builder.rb:178-182 | A collection of radio buttons is the collection's group with one radio per item. |
| BootstrapForm.FormBuilder.CollectionCheckBoxes | lib/bootstrap_form/form_builder.rb:170-176 | A collection of checkboxes succeeds exactly when its group does. The group is preceded by the hidden field. |
| BootstrapForm.HiddenField | lib/bootstrap_form/form_builder.rb:175 | The hidden field is a `hidden_field` input for the field's name. Its only options are `value: ""` and `multiple: true`, so a form with no box checked still submits the field, as an array holding one empty string. |
| BootstrapForm.FormBuilder.FieldHelper | lib/bootstrap_form/form_builder.rb:33-41 | A text helper renders the base input from the options `form_group_builder` leaves, inside the field's form group. |
| BootstrapForm.FormBuilder.DateSelect | lib/bootstrap_form/form_builder.rb:43-53 | A date or time select renders its selects in a div of class "rails-bootstrap-forms-" and the helper's name, inside the form group. The control class goes on the html options. |
| BootstrapForm.FormBuilder.SelectHelper | lib/bootstrap_form/form_builder.rb:61-85 | A select helper passes its own arguments, then the rewritten options and html options, inside the form group. |
| BootstrapForm.FormBuilder.FileFieldAsWritten | lib/bootstrap_form/form_builder.rb:55-59 | As written, `file_field`'s group is built from the options with `control_class: nil` merged in, but the input gets the caller's own options, which `form_group_builder` does not rewrite (except that a label hash in them loses its `text` and `class`; see Left out). |
| BootstrapForm.FormBuilder.FileField | lib/bootstrap_form/form_builder.rb:55-59 | Corrected, `file_field`'s input gets the options that `form_group_builder` rewrote. |
| FileFieldProperties.FileFieldAsWrittenLeaksHelp | lib/bootstrap_form/form_builder.rb:55-59 | With `help: "Max 2MB"`, the group renders the help. The caller's options still carry `help` and have no class. The rewritten options have no `help` and do have a class. |
| FileFieldProperties.FileFieldInputOptions | lib/bootstrap_form/form_builder.rb:55-59 | The corrected input gets none of the group's options and none of the style options. Its class is the user's class without "form-control", then " is-invalid" on error. |

## Left out

- Rails' own rendering (input tags, `label`, `content_tag`, `capture`, `concat`) is opaque markup constructors. Ids and `for` attributes derived by Rails, HTML escaping and `html_safe` are not modelled.
- `prepend_and_append_input`, which the text helpers and `select` wrap the input in, lives in lib/bootstrap_form/helpers/bootstrap.rb. That file is not part of this model, so the input is placed in the group directly.
- `fields_for`, `submit`, `primary` and the rest of the Bootstrap helpers are outside the modelled core.
- `required_attribute?` is abstracted to the set of attributes with a presence validator. The reflection over validator classes and their `if`/`unless` options is not modelled.
- `object.errors` is abstracted to a map from attribute name to messages.
- `get_help_text_by_i18n_key` is abstracted to a map from attribute name to the text I18n would find. The lookup scopes, the `_html` keys and the deprecation warning are not modelled.
- The `define_method` loops become one method per family (`FieldHelper`, `DateSelect`, `SelectHelper`), each with a precondition naming its helpers. A block passed to `select` is not modelled.
- The builder's block arguments (`capture(&block)`) are markup values given by the caller. A callable `value` or `text` accessor of a collection is folded into each `Item`'s value and text.
- `to_s` of an array or hash, and of Ruby objects, is not Ruby's `inspect` text. The model uses a fixed rendering that only needs to be deterministic.
- `blank?` and `strip` use the ASCII white space of Ruby's regular expressions. Unicode white space is not modelled.
- OffsetCol: only single-line label columns have a stated result. For multi-line strings, `^` and `$` match at line boundaries; the function follows that, but no property about it is proved.
- TakeLabelOptions: `form_group_builder` deletes `text` and `class` from the caller's own label hash (`options[:label].delete`), and the copy `reverse_merge` makes shares that hash. The model takes them from a value instead. So FileFieldAsWritten passes the label hash to the input with its `text` and `class` intact, where the source passes it without them. A label hash reused for a second helper call keeps its text in the model, where the source has already lost it.
- CheckBox, RadioButton: a non-string label is kept as an unconverted `Content` value. The characters `concat` appends for it, for example the character with code 65 for the Integer 65, are not modelled.
- LabelSteps: `generate_label` mutates the caller's label hash in place. The model returns the rewritten hash instead, so aliasing of that hash with the caller's options is not captured.
- FormGroupBuilder: the in-place `symbolize_keys!` is not modelled. Keys are strings throughout.
- RadioButtonInline: stated only for a nil or string `label_class`. Other values go through `to_s` rather than `join`, and their text is not modelled.
- CheckBoxInline: stated only for a nil or string `label_class`, for the same reason.
- LabelClassHorizontal: stated only when the label's own class is nil or a non-empty string that does not start with white space, and the label column is a non-empty string that does not end with white space (unless "required" follows it). In the other cases `strip` removes caller-supplied white space, and the lemma does not describe the result.

## Findings

| source | as written | input that shows it | evidently intended | confidence | as-written member | corrected member |
|---|---|---|---|---|---|---|
| lib/bootstrap_form/form_builder.rb:55-59 | `form_group_builder` rewrites a copy made by `reverse_merge`, while the block renders the input from the caller's original options. | `file_field(:avatar, help: "Max 2MB")`: the help is shown by the group and also reaches the file input as a `help` attribute. The input gets none of the computed classes, not even " is-invalid" on error. | The input is rendered from the rewritten options, as every other helper does. | medium, not executed | BootstrapForm.FormBuilder.FileFieldAsWritten, FileFieldProperties.FileFieldAsWrittenLeaksHelp | BootstrapForm.FormBuilder.FileField, FileFieldProperties.FileFieldInputOptions |
