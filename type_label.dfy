/** The type-label resolver of `src/lib/Utils.js`: `schemaToType` turns a
    datatype URI into a display word and `readPropertyTypeLabel` walks a
    shape tree to produce labels such as "List of String" or
    "String or Integer". */
module TypeLabel {
  import opened JsValues

  /** The vocabulary URIs a shape's `types` list may hold that the resolver
      tests for; every other URI is `OtherFacet`. */
  datatype Facet =
    | ScalarShape
    | ArrayShape
    | NodeShape
    | UnionShape
    | FileShape
    | OtherFacet(uri: string)

  /** A node of the shape graph, with the attributes the resolver reads.
      A node may declare several facets in `types`. */
  datatype Shape = Shape(
    types: seq<Facet>,
    dataType: Option<string>,
    items: Option<Shape>,
    name: Option<string>,
    anyOf: seq<Shape>)

  // ---------------------------------------------------------------------
  // schemaToType
  // ---------------------------------------------------------------------

  /** `s.lastIndexOf(c)`: the last position of `c`, or -1. */
  function LastIndexOf(s: string, c: char): (r: int)
    ensures -1 <= r < |s|
    ensures r >= 0 ==> s[r] == c
    ensures forall j :: r < j < |s| ==> s[j] != c
    decreases |s|
  {
    if |s| == 0 then -1
    else if s[|s| - 1] == c then |s| - 1
    else LastIndexOf(s[..|s| - 1], c)
  }

  /** `t` capitalised: the first character upper-cased, the rest kept. */
  function Capitalize(t: string): (r: string)
    ensures |r| == |t|
    ensures t != "" ==> r[0] == UpperAscii(t[0]) && r[1..] == t[1..]
  {
    if t == "" then "" else [UpperAscii(t[0])] + t[1..]
  }

  /** `r` is the capitalised text after the last `c` of `v`. */
  ghost predicate CapitalizedTail(v: string, c: char, r: string) {
    && |r| < |v|
    && v[|v| - |r| - 1] == c
    && c !in v[|v| - |r|..]
    && r == Capitalize(v[|v| - |r|..])
  }

  /** The display word for a datatype URI: the text after the last `#`, or
      failing that after the last `/`, or the whole string, with its first
      character upper-cased. */
  function SchemaToType(value: string): (r: string)
    ensures '#' in value ==> CapitalizedTail(value, '#', r)
    ensures '#' !in value && '/' in value ==> CapitalizedTail(value, '/', r)
    ensures '#' !in value && '/' !in value ==> r == Capitalize(value)
    ensures r == "" <==>
      (|value| == 0
       || ('#' in value && value[|value| - 1] == '#')
       || ('#' !in value && value[|value| - 1] == '/'))
  {
    var hash := LastIndexOf(value, '#');
    var index := if hash == -1 then LastIndexOf(value, '/') else hash;
    Capitalize(value[index + 1..])
  }

  // ---------------------------------------------------------------------
  // readPropertyTypeLabel
  // ---------------------------------------------------------------------

  /** The variant a node is treated as. */
  datatype Kind = KScalar | KArray | KNode | KUnion | KFile | KUnknown

  /** The facet whose presence selects a kind, and the kind's priority. */
  function KindFacet(k: Kind): Option<Facet> {
    match k
    case KScalar => Some(ScalarShape)
    case KArray => Some(ArrayShape)
    case KNode => Some(NodeShape)
    case KUnion => Some(UnionShape)
    case KFile => Some(FileShape)
    case KUnknown => None
  }

  function Priority(k: Kind): nat {
    match k
    case KScalar => 0
    case KArray => 1
    case KNode => 2
    case KUnion => 3
    case KFile => 4
    case KUnknown => 5
  }

  /** The kind of a node: the highest-priority kind whose facet it declares,
      `KUnknown` when it declares none of them. */
  function Classify(s: Shape): (k: Kind)
    ensures KindFacet(k).Some? ==> KindFacet(k).value in s.types
    ensures forall k' :: Priority(k') < Priority(k) ==> KindFacet(k').value !in s.types
  {
    if ScalarShape in s.types then KScalar
    else if ArrayShape in s.types then KArray
    else if NodeShape in s.types then KNode
    else if UnionShape in s.types then KUnion
    else if FileShape in s.types then KFile
    else KUnknown
  }

  /** The label of a present node (`readPropertyTypeLabel` past its
      `!schema` test). `None` is the `undefined` the source returns. */
  function ShapeLabel(s: Shape): (r: Option<string>)
    ensures r.None? <==> Classify(s) == KArray && s.items.None?
    ensures Classify(s) == KFile ==> r == Some("File")
    ensures Classify(s) == KUnknown ==> r == Some("Unknown")
    decreases s, 1
  {
    if ScalarShape in s.types then
      Some(SchemaToType(OrEmpty(s.dataType)))
    else if ArrayShape in s.types then
      if s.items.None? then None
      else Some("List of " + TemplateText(ShapeLabel(s.items.value)))
    else if NodeShape in s.types then
      var name := if s.name == Some("type") then None else s.name;
      Some(if TruthyStr(name) then name.value else "Object")
    else if UnionShape in s.types then
      Some(Join(MemberLabels(s.anyOf), " or "))
    else if FileShape in s.types then
      Some("File")
    else
      Some("Unknown")
  }

  /** `anyOf.map(readPropertyTypeLabel)` as `join` renders it: an undefined
      label becomes an empty segment. */
  function MemberLabels(xs: seq<Shape>): (r: seq<string>)
    ensures |r| == |xs|
    ensures forall i :: 0 <= i < |xs| ==> r[i] == OrEmpty(ShapeLabel(xs[i]))
    decreases xs, 0
  {
    seq(|xs|, i requires 0 <= i < |xs| => OrEmpty(ShapeLabel(xs[i])))
  }

  /** `readPropertyTypeLabel(schema)`: `undefined` in, `undefined` out. */
  function Label(schema: Option<Shape>): (r: Option<string>)
    ensures schema.None? ==> r.None?
    ensures schema.Some? ==> r == ShapeLabel(schema.value)
  {
    match schema
    case None => None
    case Some(s) => ShapeLabel(s)
  }

  /** What each kind yields, with the kinds tried in priority order. */
  lemma LabelByKind(s: Shape)
    ensures Classify(s) == KScalar ==> ShapeLabel(s) == Some(SchemaToType(OrEmpty(s.dataType)))
    ensures Classify(s) == KArray && s.items.Some? ==>
      ShapeLabel(s) == Some("List of " + TemplateText(ShapeLabel(s.items.value)))
    ensures Classify(s) == KNode ==>
      ShapeLabel(s) == Some(if s.name in {None, Some(""), Some("type")} then "Object" else s.name.value)
    ensures Classify(s) == KUnion ==> ShapeLabel(s) == Some(Join(MemberLabels(s.anyOf), " or "))
  {
  }

  /** A node declaring both the scalar and the array facet is labelled as a
      scalar, whatever its `items`. */
  lemma ScalarBeforeArray(s: Shape)
    requires ScalarShape in s.types && ArrayShape in s.types
    ensures ShapeLabel(s) == Some(SchemaToType(OrEmpty(s.dataType)))
  {
  }

  /** A scalar whose `dataType` is absent or empty is labelled `''`. */
  lemma ScalarWithoutDataType(s: Shape)
    requires Classify(s) == KScalar && !TruthyStr(s.dataType)
    ensures ShapeLabel(s) == Some("")
  {
  }

  // ---------------------------------------------------------------------
  // Arrays of arrays
  // ---------------------------------------------------------------------

  function Repeat(t: string, n: nat): string {
    if n == 0 then "" else t + Repeat(t, n - 1)
  }

  /** `inner` wrapped in `n` plain array nodes. */
  function Nest(n: nat, inner: Shape): Shape {
    if n == 0 then inner
    else Shape([ArrayShape], None, Some(Nest(n - 1, inner)), None, [])
  }

  /** One more level of nesting puts "List of " before the label. */
  lemma NestStep(n: nat, inner: Shape)
    requires n > 0
    ensures ShapeLabel(Nest(n, inner)) == Some("List of " + TemplateText(ShapeLabel(Nest(n - 1, inner))))
  {
    var outer := Nest(n, inner);
    assert outer.types == [ArrayShape] && outer.items == Some(Nest(n - 1, inner));
    assert ScalarShape !in outer.types && ArrayShape in outer.types;
  }

  /** `n` nested arrays around a labelled node read "List of " `n` times
      followed by the inner label. */
  lemma {:induction false} NestedArrayLabel(n: nat, inner: Shape, l: string)
    requires ShapeLabel(inner) == Some(l)
    ensures ShapeLabel(Nest(n, inner)) == Some(Repeat("List of ", n) + l)
  {
    if n > 0 {
      NestedArrayLabel(n - 1, inner, l);
      NestStep(n, inner);
      RepeatStep("List of ", n, l);
    } else {
      assert Repeat("List of ", 0) + l == l;
    }
  }

  lemma RepeatStep(t: string, n: nat, l: string)
    requires n > 0
    ensures Repeat(t, n) + l == t + (Repeat(t, n - 1) + l)
  {
    assert Repeat(t, n) == t + Repeat(t, n - 1);
  }

  /** An array whose item is an array without `items` renders the inner
      `undefined` literally. */
  lemma ListOfUndefined(outer: Shape, inner: Shape)
    requires Classify(outer) == KArray && outer.items == Some(inner)
    requires Classify(inner) == KArray && inner.items.None?
    ensures ShapeLabel(outer) == Some("List of undefined")
  {
    assert KindFacet(KScalar).value !in outer.types;
    assert ShapeLabel(inner).None?;
    assert ShapeLabel(outer) == Some("List of " + TemplateText(ShapeLabel(inner)));
    assert "List of " + "undefined" == "List of undefined";
  }

  // ---------------------------------------------------------------------
  // Unions
  // ---------------------------------------------------------------------

  function UnionOf(members: seq<Shape>): Shape {
    Shape([UnionShape], None, None, None, members)
  }

  lemma MemberLabelsConcat(a: seq<Shape>, b: seq<Shape>)
    ensures MemberLabels(a + b) == MemberLabels(a) + MemberLabels(b)
  {
    var l, la, lb := MemberLabels(a + b), MemberLabels(a), MemberLabels(b);
    forall i | 0 <= i < |a + b| ensures l[i] == (la + lb)[i] {
      if i < |a| { assert (a + b)[i] == a[i]; } else { assert (a + b)[i] == b[i - |a|]; }
    }
  }

  /** A union's label lists its members in declared order: splitting the
      member list splits the label at one " or ". */
  lemma UnionConcat(a: seq<Shape>, b: seq<Shape>)
    requires a != [] && b != []
    ensures ShapeLabel(UnionOf(a + b)).value
         == ShapeLabel(UnionOf(a)).value + " or " + ShapeLabel(UnionOf(b)).value
  {
    MemberLabelsConcat(a, b);
    JoinConcat(MemberLabels(a), MemberLabels(b), " or ");
  }

  /** An empty union is labelled `''`; a one-member union is labelled as
      that member, with `undefined` read as `''`. */
  lemma SmallUnions(m: Shape)
    ensures ShapeLabel(UnionOf([])) == Some("")
    ensures ShapeLabel(UnionOf([m])) == Some(OrEmpty(ShapeLabel(m)))
  {
  }

  /** A union does not deduplicate: the same member twice appears twice. */
  lemma UnionKeepsDuplicates(m: Shape)
    ensures ShapeLabel(UnionOf([m, m])) == Some(OrEmpty(ShapeLabel(m)) + " or " + OrEmpty(ShapeLabel(m)))
  {
    var t := OrEmpty(ShapeLabel(m));
    var u := UnionOf([m, m]);
    assert ScalarShape !in u.types && ArrayShape !in u.types && NodeShape !in u.types && UnionShape in u.types;
    assert ShapeLabel(u) == Some(Join(MemberLabels([m, m]), " or "));
    assert MemberLabels([m, m]) == [t, t];
    assert [t, t][1..] == [t];
    assert Join([t, t], " or ") == t + " or " + Join([t], " or ");
  }
}
