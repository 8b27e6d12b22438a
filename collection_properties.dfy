/** Properties of `inputs_collection` and the collection helpers built on
    it: which items are checked, which options each item's input gets, and
    that the group holds one input per item, in collection order. */
module CollectionProperties {
  import opened RubyValues
  import opened Html
  import opened BootstrapForm
  import opened ChoiceProperties
  import opened RenderProperties

  /** The markup rendered for the items, in collection order. */
  function ItemInputs(b: FormBuilder, kind: CollectionKind, name: Value, items: seq<Item>, o: Options): seq<Markup> {
    seq(|items|, j requires 0 <= j < |items| => b.ItemInput(kind, name, items[j], o))
  }

  /** The base input an item renders: a radio button for its value, or a
      checkbox for its value (a `multiple` one, with no unchecked value). */
  function ItemControl(kind: CollectionKind, name: Value, item: Item, o: Options, hasError: bool): Markup {
    match kind
    case RadioButtons => Input("radio_button", name, [item.value, Hash(RadioOptions(ItemOptions(o, item)))])
    case CheckBoxes => Input("check_box", name, [Hash(CheckBoxOptions(ItemOptions(o, item)["multiple" := Bool(true)], hasError)), item.value, Nil])
  }

  /** With a single value (not nil, an array or a hash), an item is checked
      when that value is the item's value or the item's object. */
  lemma CheckedBySingleValue(checked: Value, value: Value, obj: Value)
    requires !checked.Nil? && !checked.List? && !checked.Hash?
    ensures IsChecked(checked, value, obj) <==> checked == value || checked == obj
  {
  }

  /** With an array, an item is checked when the array holds the item's
      value or object (or is itself the value or the object). */
  lemma CheckedByArray(xs: seq<Value>, value: Value, obj: Value)
    ensures IsChecked(List(xs), value, obj) <==> value in xs || obj in xs || List(xs) == value || List(xs) == obj
  {
  }

  /** `checked: 1` checks the item whose value is 1 and no other. */
  lemma CheckedExample()
    ensures var o := map["checked" := Int(1)];
            && ItemOptions(o, Item(Ref(1), Int(1), Str("Foo")))["checked"] == Bool(true)
            && ItemOptions(o, Item(Ref(2), Int(2), Str("Bar")))["checked"] == Bool(false)
  {
    var o := map["checked" := Int(1)];
    assert Truthy(Get(o, "checked"));
    CheckedBySingleValue(Int(1), Int(1), Ref(1));
    CheckedBySingleValue(Int(1), Int(2), Ref(2));
  }

  /** Each item's input gets no class from the group's options (which carry
      "form-control"): a radio button only has "custom-control-input" when
      it is custom, and a checkbox only its own classes. */
  lemma ItemInputClass(o: Options, item: Item, hasError: bool)
    ensures var ro := RadioOptions(ItemOptions(o, item));
            && ("class" in ro <==> Truthy(Get(o, "custom")))
            && ("class" in ro ==> ro["class"] == Str("custom-control-input"))
    ensures var co := CheckBoxOptions(ItemOptions(o, item)["multiple" := Bool(true)], hasError);
            && (Truthy(Get(o, "custom")) ==> Get(co, "class") == Str("custom-control-input" + (if hasError then " is-invalid" else "")))
            && (!Truthy(Get(o, "custom")) ==> Get(co, "class") == Str("form-check-input"))
  {
    var io := ItemOptions(o, item);
    assert Get(io, "custom") == Get(o, "custom") && Get(io, "class") == Nil;
    assert var ro := RadioOptions(io); ("class" in ro <==> Truthy(Get(o, "custom"))) && ("class" in ro ==> ro["class"] == Str("custom-control-input")) by {
      assert PrefixedClass("custom-control-input", Nil) == "custom-control-input";
    }
    var mo := io["multiple" := Bool(true)];
    assert Get(mo, "custom") == Get(o, "custom") && Get(mo, "class") == Nil;
    var custom := Truthy(Get(o, "custom"));
    assert Get(CheckBoxOptions(mo, hasError), "class") == Str(CheckBoxInputClass(custom, hasError, Nil));
    var mid := if hasError then " is-invalid" else "";
    assert ClassTail(Nil) == "";
    assert "custom-control-input" + mid + "" == "custom-control-input" + mid;
    assert "form-check-input" + "" == "form-check-input";
  }

  /** An item renders exactly one input, its base radio button or checkbox. */
  lemma ItemInputHoldsOneInput(b: FormBuilder, kind: CollectionKind, name: Value, item: Item, o: Options)
    ensures InputsIn([b.ItemInput(kind, name, item, o)]) == [ItemControl(kind, name, item, o, b.HasError(name))]
  {
    match kind
    case RadioButtons =>
      RadioButtonInput(b, name, item.value, ItemOptions(o, item));
    case CheckBoxes =>
      CheckBoxInput(b, name, ItemOptions(o, item)["multiple" := Bool(true)], item.value, Nil, None);
  }

  /** The base inputs of the items, in collection order. */
  function ItemControls(kind: CollectionKind, name: Value, items: seq<Item>, o: Options, hasError: bool): seq<Markup> {
    seq(|items|, j requires 0 <= j < |items| => ItemControl(kind, name, items[j], o, hasError))
  }

  lemma ItemInputsCons(b: FormBuilder, kind: CollectionKind, name: Value, items: seq<Item>, o: Options)
    requires items != []
    ensures ItemInputs(b, kind, name, items, o) == [b.ItemInput(kind, name, items[0], o)] + ItemInputs(b, kind, name, items[1..], o)
  {
  }

  lemma ItemControlsCons(kind: CollectionKind, name: Value, items: seq<Item>, o: Options, hasError: bool)
    requires items != []
    ensures ItemControls(kind, name, items, o, hasError) == [ItemControl(kind, name, items[0], o, hasError)] + ItemControls(kind, name, items[1..], o, hasError)
  {
  }

  /** The items render one input each, in collection order. */
  lemma {:induction false} ItemInputsInOrder(b: FormBuilder, kind: CollectionKind, name: Value, items: seq<Item>, o: Options)
    ensures InputsIn(ItemInputs(b, kind, name, items, o)) == ItemControls(kind, name, items, o, b.HasError(name))
    decreases |items|
  {
    if items == [] {
      assert ItemInputs(b, kind, name, items, o) == [];
    } else {
      var first := b.ItemInput(kind, name, items[0], o);
      var rest := ItemInputs(b, kind, name, items[1..], o);
      ItemInputsCons(b, kind, name, items, o);
      InputsInAppend([first], rest);
      ItemInputHoldsOneInput(b, kind, name, items[0], o);
      ItemInputsInOrder(b, kind, name, items[1..], o);
      ItemControlsCons(kind, name, items, o, b.HasError(name));
    }
  }

  /** The group `inputs_collection` renders holds the items' inputs and no
      other, in collection order. */
  lemma CollectionInputs(b: FormBuilder, kind: CollectionKind, name: Value, items: seq<Item>, options: Options)
    ensures var p := b.Prepare(name, options, None);
            var r := b.FormGroup(name, p.group, ItemInputs(b, kind, name, items, p.options));
            r.Ok? ==> InputsIn([r.value]) == ItemControls(kind, name, items, p.options, b.HasError(name))
  {
    var p := b.Prepare(name, options, None);
    FormGroupInputs(b, name, p.group, ItemInputs(b, kind, name, items, p.options));
    ItemInputsInOrder(b, kind, name, items, p.options);
  }
}
