/** The markup the builder returns, kept abstract: what Rails renders itself
    (input tags, label tags, `content_tag` elements, humanised attribute
    names) is a constructor here, so that the model states this builder's
    own decisions and none of Rails'. */
module Html {
  import opened RubyValues

  datatype Markup =
      /** Text this builder writes or converts with `to_s`. */
    | Text(s: string)
      /** A value handed to Rails' `label` helper as its content, or appended
          to an html-safe buffer with `concat`, unconverted (Rails supplies
          the humanised name when `label` gets nil; `concat` of an Integer
          appends the character with that code, not its digits). */
    | Content(v: Value)
      /** `object.class.human_attribute_name(name)`, or `name.to_s.humanize`. */
    | HumanName(name: Value)
      /** What the form builder's base class renders for `helper`, called as
          `super(name, *args)`. */
    | Input(helper: string, name: Value, args: seq<Value>)
      /** Rails' `label(name, body, attrs)`; a nil attribute is not rendered. */
    | Label(name: Value, body: seq<Markup>, attrs: Options)
      /** `content_tag(tag, body, attrs)`. */
    | Tag(tag: string, attrs: Options, body: seq<Markup>)

  /** The `class` attribute of a label or an element, nil when it has none. */
  function ClassOf(m: Markup): Value {
    match m
    case Label(_, _, attrs) => Get(attrs, "class")
    case Tag(_, attrs, _) => Get(attrs, "class")
    case _ => Nil
  }

  /** The input elements of some markup, in document order. */
  function InputsIn(ms: seq<Markup>): seq<Markup>
    decreases ms
  {
    if ms == [] then []
    else
      var inner := match ms[0]
        case Input(_, _, _) => [ms[0]]
        case Label(_, body, _) => InputsIn(body)
        case Tag(_, _, body) => InputsIn(body)
        case _ => [];
      inner + InputsIn(ms[1..])
  }

  /** The label elements of some markup, in document order (labels do not
      nest, so a label's own body is not searched). */
  function LabelsIn(ms: seq<Markup>): seq<Markup>
    decreases ms
  {
    if ms == [] then []
    else
      var inner := match ms[0]
        case Label(_, _, _) => [ms[0]]
        case Tag(_, _, body) => LabelsIn(body)
        case _ => [];
      inner + LabelsIn(ms[1..])
  }

  /** Searching one element. */
  lemma InputsInSingle(m: Markup)
    ensures InputsIn([m]) == match m
      case Input(_, _, _) => [m]
      case Label(_, body, _) => InputsIn(body)
      case Tag(_, _, body) => InputsIn(body)
      case _ => []
  {
    assert [m][1..] == [];
  }

  lemma LabelsInSingle(m: Markup)
    ensures LabelsIn([m]) == match m
      case Label(_, _, _) => [m]
      case Tag(_, _, body) => LabelsIn(body)
      case _ => []
  {
    assert [m][1..] == [];
  }

  /** Searching a concatenation searches each part. */
  lemma {:induction false} InputsInAppend(a: seq<Markup>, b: seq<Markup>)
    ensures InputsIn(a + b) == InputsIn(a) + InputsIn(b)
  {
    if a == [] {
      assert a + b == b;
    } else {
      var m, rest := a[0], a[1..];
      assert InputsIn(a + b) == InputsIn([m]) + InputsIn(rest + b) by {
        assert a + b == [m] + (rest + b);
        InputsInCons(m, rest + b);
      }
      assert InputsIn(a) == InputsIn([m]) + InputsIn(rest) by {
        assert a == [m] + rest;
        InputsInCons(m, rest);
      }
      InputsInAppend(rest, b);
      var x, y, z := InputsIn([m]), InputsIn(rest), InputsIn(b);
      assert x + (y + z) == (x + y) + z;
    }
  }

  /** The first element is searched before the rest. */
  lemma InputsInCons(m: Markup, rest: seq<Markup>)
    ensures InputsIn([m] + rest) == InputsIn([m]) + InputsIn(rest)
  {
    assert ([m] + rest)[0] == m && ([m] + rest)[1..] == rest;
    assert [m][1..] == [];
  }

  lemma {:induction false} LabelsInAppend(a: seq<Markup>, b: seq<Markup>)
    ensures LabelsIn(a + b) == LabelsIn(a) + LabelsIn(b)
  {
    if a == [] {
      assert a + b == b;
    } else {
      var m, rest := a[0], a[1..];
      assert LabelsIn(a + b) == LabelsIn([m]) + LabelsIn(rest + b) by {
        assert a + b == [m] + (rest + b);
        LabelsInCons(m, rest + b);
      }
      assert LabelsIn(a) == LabelsIn([m]) + LabelsIn(rest) by {
        assert a == [m] + rest;
        LabelsInCons(m, rest);
      }
      LabelsInAppend(rest, b);
      var x, y, z := LabelsIn([m]), LabelsIn(rest), LabelsIn(b);
      assert x + (y + z) == (x + y) + z;
    }
  }

  /** The first element is searched before the rest. */
  lemma LabelsInCons(m: Markup, rest: seq<Markup>)
    ensures LabelsIn([m] + rest) == LabelsIn([m]) + LabelsIn(rest)
  {
    assert ([m] + rest)[0] == m && ([m] + rest)[1..] == rest;
    assert [m][1..] == [];
  }
}
