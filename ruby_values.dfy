/** Ruby values as they appear in the option hashes a form helper receives,
    with the few pieces of Ruby and ActiveSupport semantics the builder's own
    decisions depend on: truthiness, `||`, `to_s`, `Array#compact`,
    `Array#join`, `Kernel#Array` with `include?`, and `blank?`. */
module RubyValues {

  datatype Option<T> = None | Some(value: T)

  /** The exceptions a helper can raise on an ill-typed option. */
  datatype RubyError = TypeError(message: string) | NoMethodError(message: string)

  datatype Result<T> = Ok(value: T) | Err(error: RubyError)

  /** A Ruby object. Hash keys are symbols and are written by their names;
      `Ref` is any other object (a model instance, say), compared by identity. */
  datatype Value =
    | Nil
    | Bool(b: bool)
    | Int(i: int)
    | Str(s: string)
    | Sym(name: string)
    | List(items: seq<Value>)
    | Hash(entries: map<string, Value>)
    | Ref(id: nat)

  /** An options hash: symbol name to value. A key can be present with value nil. */
  type Options = map<string, Value>

  /** Ruby truthiness: everything but nil and false. */
  predicate Truthy(v: Value) {
    !v.Nil? && v != Bool(false)
  }

  /** Ruby's `a || b`. */
  function Or(a: Value, b: Value): Value {
    if Truthy(a) then a else b
  }

  /** `hash[key]`: nil for a missing key. */
  function Get(o: Options, key: string): Value {
    if key in o then o[key] else Nil
  }

  /** `hash[key] ||= v` */
  function OrAssign(o: Options, key: string, v: Value): (r: Options)
    ensures r.Keys == o.Keys + {key}
    ensures Truthy(Get(o, key)) ==> r == o
    ensures !Truthy(Get(o, key)) ==> r[key] == v
    ensures forall k :: k in o && k != key ==> r[k] == o[k]
  {
    if Truthy(Get(o, key)) then o else o[key := v]
  }

  /** Decimal digits of a natural number. */
  function NatToString(n: nat): (r: string)
    ensures |r| > 0
    ensures forall i :: 0 <= i < |r| ==> '0' <= r[i] <= '9'
  {
    var d := ['0' + (n % 10) as char];
    if n < 10 then d else NatToString(n / 10) + d
  }

  function IntToString(i: int): string {
    if i < 0 then "-" + NatToString(-i) else NatToString(i)
  }

  /** `to_s`. The inspect text of an Array, a Hash or an arbitrary object is
      not modelled: those yield a fixed marker. */
  function ToS(v: Value): string {
    match v
    case Nil => ""
    case Bool(b) => if b then "true" else "false"
    case Int(i) => IntToString(i)
    case Str(s) => s
    case Sym(n) => n
    case List(_) => "[...]"
    case Hash(_) => "{...}"
    case Ref(_) => "#<Object>"
  }

  /** `Array#compact`: drops the nils (and only the nils). */
  function Compact(xs: seq<Value>): (r: seq<Value>)
    ensures forall i :: 0 <= i < |r| ==> r[i] != Nil
    ensures forall x :: x in xs && x != Nil ==> x in r
    ensures forall x :: x in r ==> x in xs
  {
    if xs == [] then []
    else if xs[0] == Nil then Compact(xs[1..])
    else [xs[0]] + Compact(xs[1..])
  }

  /** `Array#join(sep)`: each element's `to_s` (nil gives ""), nested arrays
      joined recursively with the same separator. */
  function Join(xs: seq<Value>, sep: string): string
    decreases xs
  {
    if xs == [] then ""
    else
      var head := if xs[0].List? then Join(xs[0].items, sep) else ToS(xs[0]);
      if |xs| == 1 then head else head + sep + Join(xs[1..], sep)
  }

  /** The idiom `[a, b, ...].compact.join(sep)`. */
  function CompactJoin(xs: seq<Value>, sep: string): string {
    Join(Compact(xs), sep)
  }

  /** `strings.join(sep)` on an array of strings. */
  function JoinStrings(xs: seq<string>, sep: string): string {
    if xs == [] then "" else if |xs| == 1 then xs[0] else xs[0] + sep + JoinStrings(xs[1..], sep)
  }

  /** `Array(v).include?(x)`: nil is the empty array, an Array is itself, a
      Hash is its list of `[key, value]` pairs, anything else a one-element array. */
  predicate ArrayIncludes(v: Value, x: Value) {
    match v
    case Nil => false
    case List(items) => x in items
    case Hash(m) =>
      x.List? && |x.items| == 2 && x.items[0].Sym? && x.items[0].name in m && m[x.items[0].name] == x.items[1]
    case _ => x == v
  }

  /** The characters String#strip and `blank?` treat as white space. */
  predicate IsBlankChar(c: char) {
    c == ' ' || c == '\t' || c == '\n' || c == '\r' || c == '\U{000B}' || c == '\U{000C}'
  }

  /** ActiveSupport's `blank?`. */
  predicate Blank(v: Value) {
    match v
    case Nil => true
    case Bool(b) => !b
    case Int(_) => false
    case Str(s) => forall i :: 0 <= i < |s| ==> IsBlankChar(s[i])
    case Sym(n) => n == ""
    case List(items) => items == []
    case Hash(m) => m == map[]
    case Ref(_) => false
  }

  /** The text one element contributes to a `join`. */
  function JoinWord(v: Value, sep: string): string
    decreases v
  {
    if v.List? then Join(v.items, sep) else ToS(v)
  }

  /** `compact` works element by element. */
  lemma CompactCons(x: Value, rest: seq<Value>)
    ensures Compact([x] + rest) == (if x == Nil then [] else [x]) + Compact(rest)
  {
    assert ([x] + rest)[1..] == rest;
  }

  /** Regrouping four concatenated strings. */
  lemma AppendAssoc(a: string, b: string, c: string, d: string)
    ensures a + b + c + d == a + (b + c + d)
  {
  }

  /** `join` puts the separator between consecutive elements. */
  lemma JoinCons(x: Value, rest: seq<Value>, sep: string)
    ensures Join([x] + rest, sep) == JoinWord(x, sep) + (if rest == [] then "" else sep + Join(rest, sep))
  {
    var xs := [x] + rest;
    assert xs[0] == x && xs[1..] == rest;
    if rest == [] {
      assert |xs| == 1;
    } else {
      assert Join(xs, sep) == JoinWord(x, sep) + sep + Join(rest, sep);
    }
  }

  /** Joining after a leading string: the string, then the separator and the
      rest when anything is left after `compact`. */
  lemma CompactJoinCons(a: string, vs: seq<Value>, sep: string)
    ensures CompactJoin([Str(a)] + vs, sep) == a + (if Compact(vs) == [] then "" else sep + CompactJoin(vs, sep))
  {
    CompactCons(Str(a), vs);
    JoinCons(Str(a), Compact(vs), sep);
  }

  /** Joining a string with a word that may be absent. */
  lemma JoinOptionalWord(a: string, word: string, present: bool, sep: string)
    ensures CompactJoin([Str(a)] + (if present then [Str(word)] else []), sep) == a + (if present then sep + word else "")
  {
    var extra := if present then [Str(word)] else [];
    CompactJoinCons(a, extra, sep);
    if present {
      CompactJoinSingle(Str(word), sep);
    }
  }

  /** Joining two strings and a third that may be absent. */
  lemma JoinTwoAndOptional(a: string, b: string, word: string, present: bool, sep: string)
    ensures CompactJoin([Str(a), Str(b)] + (if present then [Str(word)] else []), sep)
            == a + sep + b + (if present then sep + word else "")
  {
    var extra := if present then [Str(word)] else [];
    var rest := [Str(b)] + extra;
    var tail := if present then sep + word else "";
    assert CompactJoin(rest, sep) == b + tail by {
      JoinOptionalWord(b, word, present, sep);
    }
    assert CompactJoin([Str(a), Str(b)] + extra, sep) == a + (sep + CompactJoin(rest, sep)) by {
      assert [Str(a), Str(b)] + extra == [Str(a)] + rest;
      CompactJoinCons(a, rest, sep);
      CompactCons(Str(b), extra);
    }
    AppendAssoc(a, sep, b, tail);
  }

  /** Joining an optional leading string, two strings and an optional
      trailing word. */
  lemma JoinClassList(u: Value, a: string, c: string, extra: bool, w: string, sep: string)
    requires u == Nil || u.Str?
    ensures CompactJoin([u, Str(a), Str(c)] + (if extra then [Str(w)] else []), sep)
            == (if u == Nil then "" else u.s + sep) + (a + sep) + c + (if extra then sep + w else "")
  {
    var ext := if extra then [Str(w)] else [];
    var rest := [Str(a), Str(c)] + ext;
    var tail := if extra then sep + w else "";
    assert CompactJoin(rest, sep) == a + sep + c + tail by {
      JoinTwoAndOptional(a, c, w, extra, sep);
    }
    assert [u, Str(a), Str(c)] + ext == [u] + rest;
    if u == Nil {
      assert CompactJoin([u] + rest, sep) == CompactJoin(rest, sep) by {
        CompactCons(Nil, rest);
      }
      assert "" + (a + sep) + c + tail == a + sep + c + tail;
    } else {
      assert CompactJoin([u] + rest, sep) == u.s + (sep + CompactJoin(rest, sep)) by {
        assert rest == [Str(a)] + ([Str(c)] + ext);
        CompactCons(Str(a), [Str(c)] + ext);
        CompactJoinCons(u.s, rest, sep);
      }
      AppendAssoc(u.s, sep, a + sep + c, tail);
      assert u.s + sep + (a + sep + c) == (u.s + sep) + (a + sep) + c;
    }
  }

  /** `[v].compact.join`: nothing for nil, otherwise the element's text. */
  lemma CompactJoinSingle(v: Value, sep: string)
    ensures Compact([v]) == [] <==> v == Nil
    ensures CompactJoin([v], sep) == (if v == Nil then "" else JoinWord(v, sep))
  {
    CompactCons(v, []);
    assert [v] + [] == [v];
    if v != Nil {
      JoinCons(v, [], sep);
    }
  }

  /** The two-element idiom `[a, v].compact.join(sep)` the builder uses for
      every class attribute. */
  lemma CompactJoinPair(a: string, v: Value, sep: string)
    ensures CompactJoin([Str(a), v], sep) == a + (if v == Nil then "" else sep + JoinWord(v, sep))
  {
    CompactJoinCons(a, [v], sep);
    CompactJoinSingle(v, sep);
    assert [Str(a), v] == [Str(a)] + [v];
  }

  /** The three-element idiom `[a, v, w].compact.join(sep)`. */
  lemma CompactJoinTriple(a: string, v: Value, w: Value, sep: string)
    ensures CompactJoin([Str(a), v, w], sep)
            == a + (if v == Nil then "" else sep + JoinWord(v, sep)) + (if w == Nil then "" else sep + JoinWord(w, sep))
  {
    var tail := if w == Nil then "" else sep + JoinWord(w, sep);
    assert [Str(a), v, w] == [Str(a)] + [v, w];
    CompactJoinCons(a, [v, w], sep);
    assert Compact([v, w]) == (if v == Nil then [] else [v]) + Compact([w]) by {
      assert [v, w] == [v] + [w];
      CompactCons(v, [w]);
    }
    CompactJoinSingle(w, sep);
    if v != Nil {
      assert CompactJoin([v, w], sep) == JoinWord(v, sep) + tail by {
        JoinCons(v, Compact([w]), sep);
      }
      assert a + (sep + (JoinWord(v, sep) + tail)) == a + (sep + JoinWord(v, sep)) + tail;
    } else {
      assert a + "" + tail == a + tail;
    }
  }
}
