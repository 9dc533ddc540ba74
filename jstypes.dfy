/**
 * The type renderers of the JavaScript generator (goagen/jsgen): the Flow
 * type a design data type is written as, and the helpers the generated
 * code uses (tabulation and temporary variable names).
 */
module JsTypes {
  import opened Wrappers
  import opened Text
  import opened Design
  import opened Identifiers

  /** Metadata naming the Flow type of a field explicitly. */
  const StructFieldType := "struct:field:type"

  /** Metadata naming a field explicitly. */
  const StructFieldName := "struct:field:name"

  /** `n` levels of indentation, two spaces each. */
  function Indent(n: nat): (r: string)
    ensures |r| == 2 * n
    ensures forall k :: 0 <= k < |r| ==> r[k] == ' '
  {
    if n == 0 then "" else Indent(n - 1) + "  "
  }

  /** The data type a user or media type stands for, with the names peeled off. */
  function Underlying(t: DataType): (u: DataType)
    ensures !u.UserType? && !u.MediaType?
  {
    match t
    case UserType(_, d) => Underlying(d.typ)
    case MediaType(_, d, _, _) => Underlying(d.typ)
    case _ => t
  }

  /** An error media type: the renderers write it as the built-in "error". */
  predicate IsErrorMedia(t: DataType) {
    t.MediaType? && t.isError
  }

  // ---------------------------------------------------------------------
  // JsNativeType
  // ---------------------------------------------------------------------

  function PrimitiveNative(k: PrimitiveKind): string {
    match k
    case BooleanKind => "boolean"
    case IntegerKind => "number"
    case NumberKind => "number"
    case StringKind => "string"
    case DateTimeKind => "string"
    case UUIDKind => "number"
    case AnyKind => "any"
  }

  /** JsNativeType: the built-in type from which instances of `t` can be initialised. */
  function JsNativeType(t: DataType): (r: string)
  {
    match t
    case Primitive(k) => PrimitiveNative(k)
    case Array(e) => "Array<" + JsNativeType(e.typ) + ">"
    case Object(_) => "Object"
    case Hash(k, e) => "{[" + JsNativeType(k.typ) + "]: " + JsNativeType(e.typ) + "}"
    case MediaType(_, d, _, _) => JsNativeType(d.typ)
    case UserType(_, d) => JsNativeType(d.typ)
  }

  /** A name is transparent to JsNativeType: only the underlying type counts. */
  lemma {:induction false} JsNativeTypeUnderlying(t: DataType)
    ensures JsNativeType(t) == JsNativeType(Underlying(t))
  {
    match t
    case UserType(_, d) => JsNativeTypeUnderlying(d.typ);
    case MediaType(_, d, _, _) => JsNativeTypeUnderlying(d.typ);
    case _ =>
  }

  /** The native type of a primitive is one of four built-in names. */
  predicate IsBuiltinName(r: string) {
    r == "boolean" || r == "number" || r == "string" || r == "any"
  }

  /**
   * The native type tells the shape of the data: "Object" exactly for
   * objects, an "Array<" form exactly for arrays, a "{[" form exactly for
   * hashes, and a built-in name exactly for primitives.
   */
  lemma {:induction false} JsNativeTypeShape(t: DataType)
    ensures IsObject(t) <==> JsNativeType(t) == "Object"
    ensures IsArray(t) <==> "Array<" <= JsNativeType(t)
    ensures IsHash(t) <==> "{[" <= JsNativeType(t)
    ensures Underlying(t).Primitive? <==> IsBuiltinName(JsNativeType(t))
  {
    match t
    case UserType(_, d) => JsNativeTypeShape(d.typ);
    case MediaType(_, d, _, _) => JsNativeTypeShape(d.typ);
    case Array(e) =>
      var r := JsNativeType(t);
      assert r[..6] == "Array<" && r[0] == 'A';
    case Hash(k, e) =>
      var r := JsNativeType(t);
      assert r[..2] == "{[" && r[0] == '{';
    case Object(_) =>
      assert JsNativeType(t)[0] == 'O';
    case Primitive(k) =>
      var r := JsNativeType(t);
      assert r[0] != 'A' && r[0] != '{';
  }

  /** JsNativeType, case by case, as the Go switch lists it. */
  lemma JsNativeTypePrimitives()
    ensures JsNativeType(Primitive(BooleanKind)) == "boolean"
    ensures JsNativeType(Primitive(IntegerKind)) == JsNativeType(Primitive(NumberKind)) == "number"
    ensures JsNativeType(Primitive(UUIDKind)) == "number"
    ensures JsNativeType(Primitive(StringKind)) == JsNativeType(Primitive(DateTimeKind)) == "string"
    ensures JsNativeType(Primitive(AnyKind)) == "any"
  {
  }

  // ---------------------------------------------------------------------
  // JsTypeDef, goTypeDefObject, JsTypeName, JsTypeRef
  // ---------------------------------------------------------------------

  /** The comment written before a field: its description, continued on every line. */
  function FieldComment(desc: string): (r: string)
    ensures desc == [] <==> r == []
  {
    if desc == [] then []
    else "// " + ReplaceAll(desc, "\n", "\n  // ") + "\n  "
  }

  /** The first value of metadata `key`, when it is present with a value. */
  function MetaValue(md: map<string, seq<string>>, key: string): (v: Option<string>)
    ensures v.Some? <==> key in md && |md[key]| > 0
    ensures v.Some? ==> v.value == md[key][0]
  {
    if key in md && |md[key]| > 0 then Some(md[key][0]) else None
  }

  /**
   * JsTypeDef: the Flow code defining the type of `att`. `tabs` is the
   * indentation of the definition; `priv` is the `private` flag.
   */
  function JsTypeDef(att: Attribute, tabs: nat, priv: bool): string
    decreases att.typ, 2, 0
  {
    match MetaValue(att.metadata, StructFieldType)
    case Some(tname) => Jsified(tname, false)
    case None =>
      match att.typ
      case Primitive(_) => JsTypeName(att.typ, tabs, priv)
      case Array(e) => "Array<" + JsTypeDef(e, tabs, priv) + ">"
      case Hash(k, e) => "{[" + JsTypeDef(k, tabs, priv) + "]: " + JsTypeDef(e, tabs, priv) + "}"
      case Object(fields) => ObjectDef(fields, tabs, priv)
      case UserType(_, _) => JsTypeName(att.typ, tabs, priv)
      case MediaType(_, _, _, _) => JsTypeName(att.typ, tabs, priv)
  }

  /** goTypeDefObject: the fields of an object, one line each, in ascending name order. */
  function ObjectDef(fields: map<string, Attribute>, tabs: nat, priv: bool): string
    decreases Object(fields), 0, |fields| + 1
  {
    " {\n" + FieldLines(fields, SortedSet(fields.Keys), tabs, priv) + Indent(tabs) + "}"
  }

  /** The line of field `name`: indentation, comment, name, type definition. */
  function FieldLine(fields: map<string, Attribute>, name: string, tabs: nat, priv: bool): string
    requires name in fields
    decreases Object(fields), 0, 0
  {
    Indent(tabs + 1) + FieldComment(fields[name].description) + name + ": "
      + JsTypeDef(fields[name], tabs + 1, priv) + ",\n"
  }

  function FieldLines(fields: map<string, Attribute>, names: seq<string>, tabs: nat, priv: bool): string
    requires forall n :: n in names ==> n in fields
    decreases Object(fields), 0, |names|
  {
    if names == [] then ""
    else FieldLine(fields, names[0], tabs, priv) + FieldLines(fields, names[1..], tabs, priv)
  }

  /**
   * JsTypeName: the Flow name of `t`. A user or media type goes by its
   * name, upper camel case unless `priv`; an error media type is "error".
   */
  function JsTypeName(t: DataType, tabs: nat, priv: bool): string
    decreases t, 1, 0
  {
    match t
    case Primitive(_) => JsNativeType(t)
    case Array(e) => "Array<" + JsTypeRef(e.typ, tabs + 1, priv) + ">"
    case Object(fields) => ObjectDef(fields, tabs, priv)
    case Hash(k, e) => "{[" + JsTypeRef(k.typ, tabs + 1, priv) + "]: " + JsTypeRef(e.typ, tabs + 1, priv) + "}"
    case UserType(name, _) => Jsified(name, !priv)
    case MediaType(name, _, _, isError) => if isError then "error" else Jsified(name, !priv)
  }

  /** JsTypeRef: how a value of type `t` is referred to; objects are referred to through "*". */
  function JsTypeRef(t: DataType, tabs: nat, priv: bool): string
    decreases t, 2, 0
  {
    var tname := JsTypeName(t, tabs, priv);
    if IsErrorMedia(t) then "error"
    else if IsObject(t) then "*" + tname
    else tname
  }

  /**
   * JsTypeName of an inline object goes through JsTypeDef of a fresh
   * attribute with no metadata, which is the object definition itself.
   */
  lemma JsTypeNameObject(fields: map<string, Attribute>, tabs: nat, priv: bool)
    ensures JsTypeName(Object(fields), tabs, priv) == JsTypeDef(Attribute(Object(fields), "", map[]), tabs, priv)
    ensures " {\n" <= JsTypeName(Object(fields), tabs, priv)
  {
  }

  /** An explicit "struct:field:type" wins over the type of the attribute. */
  lemma JsTypeDefOverride(att: Attribute, tabs: nat, priv: bool)
    requires StructFieldType in att.metadata && |att.metadata[StructFieldType]| > 0
    ensures JsTypeDef(att, tabs, priv) == Jsified(att.metadata[StructFieldType][0], false)
  {
  }

  /** A type name is never a reference: it does not start with "*". */
  lemma JsTypeNameNoStar(t: DataType, tabs: nat, priv: bool)
    ensures JsTypeName(t, tabs, priv) == [] || JsTypeName(t, tabs, priv)[0] != '*'
  {
    match t
    case Primitive(k) =>
    case Array(_) =>
    case Object(fields) =>
    case Hash(_, _) =>
    case UserType(name, _) => JsifiedNoStar(name, !priv);
    case MediaType(name, _, _, isError) => if !isError { JsifiedNoStar(name, !priv); }
  }

  lemma JsifiedNoStar(s: string, firstUpper: bool)
    ensures Jsified(s, firstUpper) == [] || Jsified(s, firstUpper)[0] != '*'
  {
    if s !in NumericAliases {
      JsifiedKeepsLetters(s, firstUpper);
    }
  }

  /**
   * JsTypeRef starts with "*" exactly for objects (named or not) that are
   * not error media types; otherwise it is the type name.
   */
  lemma JsTypeRefStar(t: DataType, tabs: nat, priv: bool)
    ensures var r := JsTypeRef(t, tabs, priv);
      (r != [] && r[0] == '*') <==> (IsObject(t) && !IsErrorMedia(t))
    ensures !IsObject(t) ==> JsTypeRef(t, tabs, priv) == JsTypeName(t, tabs, priv)
  {
    JsTypeNameNoStar(t, tabs, priv);
    if IsErrorMedia(t) {
      assert JsTypeRef(t, tabs, priv) == "error";
    }
  }

  // ---------------------------------------------------------------------
  // JsTypeDesc, typeName, JsifyAtt
  // ---------------------------------------------------------------------

  /** The description continued as a line comment on every line. */
  function CommentText(desc: string): string {
    ReplaceAll(desc, "\n", "\n// ")
  }

  /** The view suffix of a media type name: nothing for the default view. */
  function ViewSuffix(view: string): string {
    if view != "default" then Jsified(view, true) else ""
  }

  /**
   * JsTypeDesc: the description of a user or media type, continued as a
   * comment; without one, a sentence naming the type; "" for other types.
   */
  function JsTypeDesc(t: DataType, upper: bool): string
  {
    match t
    case UserType(name, d) =>
      if d.description != "" then CommentText(d.description)
      else Jsified(name, upper) + " user type."
    case MediaType(name, d, view, _) =>
      if d.description != "" then CommentText(d.description)
      else
        var mname := Jsified(name, upper) + ViewSuffix(view);
        if d.typ.Array? then
          mname + " media type is a collection of " + JsTypeName(d.typ.elem.typ, 0, !upper) + ViewSuffix(view) + "."
        else mname + " media type."
    case _ => ""
  }

  /** Removing the "// " after every newline gives the description back. */
  lemma JsTypeDescDescription(t: DataType, upper: bool)
    requires (t.UserType? || t.MediaType?) && t.def.description != ""
    ensures StripAfterNewline(JsTypeDesc(t, upper), "// ") == t.def.description
  {
    assert "\n// " == "\n" + "// ";
    assert JsTypeDesc(t, upper) == ReplaceAll(t.def.description, "\n", "\n" + "// ");
    StripAfterNewlineReplaceAll(t.def.description, "// ");
  }

  /** Types that are neither user nor media types have no description. */
  lemma JsTypeDescUnnamed(t: DataType, upper: bool)
    requires !t.UserType? && !t.MediaType?
    ensures JsTypeDesc(t, upper) == ""
  {
  }

  /**
   * typeName: the name of a user or media type as a JavaScript identifier in
   * upper camel case, "" for any other type.
   */
  function TypeName(att: Attribute): (name: string)
    ensures !att.typ.UserType? && !att.typ.MediaType? ==> name == ""
    ensures att.typ.UserType? || att.typ.MediaType? ==> JsIdentifierOf(name, att.typ.typeName, true)
  {
    match att.typ
    case UserType(n, _) => JsifiedIdentifier(n, true); Jsified(n, true)
    case MediaType(n, _, _, _) => JsifiedIdentifier(n, true); Jsified(n, true)
    case _ => ""
  }

  /**
   * JsifyAtt: the identifier made from the "struct:field:name" metadata when
   * the attribute has one with a value, from `name` otherwise.
   */
  function JsifyAtt(att: Attribute, name: string, firstUpper: bool): (r: string)
    ensures JsIdentifierOf(r, if StructFieldName in att.metadata && |att.metadata[StructFieldName]| > 0
                              then att.metadata[StructFieldName][0] else name, firstUpper)
  {
    match MetaValue(att.metadata, StructFieldName)
    case Some(n) => JsifiedIdentifier(n, firstUpper); Jsified(n, firstUpper)
    case None => JsifiedIdentifier(name, firstUpper); Jsified(name, firstUpper)
  }

  // ---------------------------------------------------------------------
  // Tabulation and temporary names
  // ---------------------------------------------------------------------

  /** The bytes.Buffer the generator writes code into. */
  class Buffer {
    var contents: string

    constructor ()
      ensures contents == ""
    {
      contents := "";
    }

    method WriteString(s: string)
      modifies this
      ensures contents == old(contents) + s
    {
      contents := contents + s;
    }

    /** WriteTabs: appends `count` levels of two-space indentation. */
    method WriteTabs(count: int)
      modifies this
      ensures contents == old(contents) + Indent(if count < 0 then 0 else count)
    {
      var i := 0;
      while i < count
        invariant 0 <= i && (count >= 0 ==> i <= count) && (count < 0 ==> i == 0)
        invariant contents == old(contents) + Indent(i)
      {
        contents := contents + "  ";
        i := i + 1;
      }
    }
  }

  lemma {:induction false} FieldLinesSnoc(fields: map<string, Attribute>, names: seq<string>, n: string, tabs: nat, priv: bool)
    requires forall m :: m in names ==> m in fields
    requires n in fields
    ensures FieldLines(fields, names + [n], tabs, priv) == FieldLines(fields, names, tabs, priv) + FieldLine(fields, n, tabs, priv)
  {
    var line := FieldLine(fields, n, tabs, priv);
    if names == [] {
      assert [] + [n] == [n] && [n][1..] == [];
      assert FieldLines(fields, [n], tabs, priv) == line + FieldLines(fields, [], tabs, priv);
    } else {
      var head, rest := FieldLine(fields, names[0], tabs, priv), FieldLines(fields, names[1..], tabs, priv);
      assert (names + [n])[0] == names[0] && (names + [n])[1..] == names[1..] + [n];
      assert FieldLines(fields, names + [n], tabs, priv) == head + FieldLines(fields, names[1..] + [n], tabs, priv);
      FieldLinesSnoc(fields, names[1..], n, tabs, priv);
      assert FieldLines(fields, names, tabs, priv) == head + rest;
      AppendAssoc(head, rest, line);
    }
  }

  /** The lines of one more name of `names`. */
  lemma FieldLinesPrefix(fields: map<string, Attribute>, names: seq<string>, j: nat, tabs: nat, priv: bool)
    requires forall n :: n in names ==> n in fields
    requires j < |names|
    ensures FieldLines(fields, names[..j + 1], tabs, priv) == FieldLines(fields, names[..j], tabs, priv) + FieldLine(fields, names[j], tabs, priv)
  {
    assert names[..j + 1] == names[..j] + [names[j]];
    FieldLinesSnoc(fields, names[..j], names[j], tabs, priv);
  }

  /** The keys of a map, in the order a loop over the map meets them (unspecified in Go). */
  method MapKeys<V>(fields: map<string, V>) returns (keys: seq<string>)
    ensures multiset(keys) == multiset(fields.Keys)
  {
    keys := [];
    var rest := fields.Keys;
    while rest != {}
      invariant rest <= fields.Keys
      invariant multiset(keys) + multiset(rest) == multiset(fields.Keys)
      decreases |rest|
    {
      var k :| k in rest;
      keys := keys + [k];
      assert multiset(rest) == multiset(rest - {k}) + multiset{k};
      rest := rest - {k};
    }
  }

  /** The body of the goTypeDefObject loop: writes the line of field `name`. */
  method WriteField(buffer: Buffer, fields: map<string, Attribute>, name: string, tabs: nat, priv: bool)
    requires name in fields
    modifies buffer
    ensures buffer.contents == old(buffer.contents) + FieldLine(fields, name, tabs, priv)
  {
    buffer.WriteTabs(tabs + 1);
    var field := fields[name];
    var typedef := JsTypeDef(field, tabs + 1, priv);
    var desc := field.description;
    if desc != "" {
      desc := ReplaceAll(desc, "\n", "\n  // ");
      desc := "// " + desc + "\n  ";
    }
    buffer.WriteString(desc + name + ": " + typedef + ",\n");
  }

  /** The loop of goTypeDefObject: writes the line of each field of `names`, in order. */
  method WriteFields(buffer: Buffer, fields: map<string, Attribute>, names: seq<string>, tabs: nat, priv: bool)
    requires forall n :: n in names ==> n in fields
    modifies buffer
    ensures buffer.contents == old(buffer.contents) + FieldLines(fields, names, tabs, priv)
  {
    ghost var start := buffer.contents;
    for j := 0 to |names|
      invariant buffer.contents == start + FieldLines(fields, names[..j], tabs, priv)
    {
      var name := names[j];
      ghost var done := FieldLines(fields, names[..j], tabs, priv);
      WriteField(buffer, fields, name, tabs, priv);
      FieldLinesPrefix(fields, names, j, tabs, priv);
      AppendAssoc(start, done, FieldLine(fields, name, tabs, priv));
    }
    assert names[..|names|] == names;
  }

  /** Sorting the collected keys of a map gives its keys in ascending order. */
  lemma SortedKeys<V>(fields: map<string, V>, collected: seq<string>)
    requires multiset(collected) == multiset(fields.Keys)
    ensures SortStrings(collected) == SortedSet(fields.Keys)
    ensures forall n :: n in SortStrings(collected) ==> n in fields
  {
    SortStringsSorted(collected);
    SortedSetSorted(fields.Keys);
    SortedUnique(SortStrings(collected), SortedSet(fields.Keys));
  }

  /**
   * goTypeDefObject, writing into a buffer: the field names are collected
   * from the map, sorted, and each field is written on its own line.
   */
  method GoTypeDefObject(fields: map<string, Attribute>, tabs: nat, priv: bool) returns (r: string)
    ensures r == ObjectDef(fields, tabs, priv)
  {
    var buffer := new Buffer();
    buffer.WriteString(" {\n");
    var collected := MapKeys(fields);
    var keys := SortStrings(collected);
    SortedKeys(fields, collected);
    WriteFields(buffer, fields, keys, tabs, priv);
    ghost var lines := FieldLines(fields, keys, tabs, priv);
    assert buffer.contents == " {\n" + lines;
    buffer.WriteTabs(tabs);
    buffer.WriteString("}");
    r := buffer.contents;
    assert r == " {\n" + lines + Indent(tabs) + "}";
  }

  /** TempCount and Tempvar: a counter that names temporary variables. */
  class TempCounter {
    var count: nat

    constructor ()
      ensures count == 0
    {
      count := 0;
    }

    /** Tempvar: bumps the counter and names a variable after it. */
    method Tempvar() returns (name: string)
      modifies this
      ensures count == old(count) + 1
      ensures name == TempName(count)
    {
      count := count + 1;
      name := "tmp" + Decimal(count);
    }
  }

  /** The name Tempvar gives for counter value `n`. */
  function TempName(n: nat): (r: string)
    ensures |r| > 3 && r[..3] == "tmp"
  {
    "tmp" + Decimal(n)
  }

  /** Different counter values give different names, so Tempvar never repeats itself. */
  lemma TempNameInjective(a: nat, b: nat)
    requires a != b
    ensures TempName(a) != TempName(b)
  {
    if TempName(a) == TempName(b) {
      assert Decimal(a) == TempName(a)[3..] == TempName(b)[3..] == Decimal(b);
      DecimalInjective(a, b);
    }
  }
}
