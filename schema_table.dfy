/**
 * The `schema-table` component: it turns a normalised schema tree (objects whose
 * `'::'`-prefixed keys carry metadata, leaves encoded as `~|~`-separated descriptor
 * strings) into the rows of a table. The model keeps the rows' content and drops
 * their HTML.
 */
module SchemaTable {
  import opened Wrappers
  import opened Strings
  import opened JsValues

  /** Separator between the alternatives of a primitive type (a mis-decoded glyph, kept as its code points). */
  const Divider: string := "\U{201A}\U{EE}\U{C9}"
  /** Read-only and write-only markers of a primitive descriptor (mis-decoded glyphs, kept as their code points). */
  const ReadOnlyMark: string := "\U{F8FF}\U{FC}\U{DC}\U{C5}"
  const WriteOnlyMark: string := "\U{F8FF}\U{FC}\U{DC}\U{DC}"
  /** The separator of a primitive descriptor's fields. */
  const FieldSeparator: string := "~|~"
  /** The expand level that stands for "expand everything". */
  const ExpandAll: int := 99999

  // ---------------------------------------------------------------------------------
  // Configuration

  /**
   * What `generateTree` reads from the component: the expand level (`None` when unset),
   * and whether the hide flags equal `'true'`.
   */
  datatype TreeConfig = TreeConfig(expandLevel: Option<int>, hideReadOnly: bool, hideWriteOnly: bool)

  /** `level <= this.schemaExpandLevel`; a comparison with `undefined` is false. */
  predicate AtMost(level: int, bound: Option<int>) {
    bound.Some? && level <= bound.value
  }

  /** `level < this.schemaExpandLevel`. */
  predicate Below(level: int, bound: Option<int>) {
    bound.Some? && level < bound.value
  }

  // ---------------------------------------------------------------------------------
  // Keys and labels

  /** The label and description read off a property key, and whether it names a `oneOf`/`anyOf` group. */
  datatype KeyParts = KeyParts(keyLabel: Option<string>, keyDescr: Option<string>, oneOf: bool)

  /** `parts[i]`, `undefined` past the end. */
  function At(parts: seq<string>, i: nat): Option<string> {
    if i < |parts| then Some(parts[i]) else None
  }

  /** `::ONE~OF…`/`::ANY~OF…` lose `::` and their first `~`; `::OPTION~a~b` gives `a` and `b`; any other key is its own label. */
  function ParseKey(key: string): (k: KeyParts)
    ensures !StartsWith(key, "::OPTION") ==> k.keyLabel.Some?
  {
    if StartsWith(key, "::ONE~OF") || StartsWith(key, "::ANY~OF") then
      KeyParts(Some(ReplaceFirst(ReplaceFirst(key, "::", ""), "~", " ")), Some(""), true)
    else if StartsWith(key, "::OPTION") then
      var parts := Split(key, "~");
      KeyParts(At(parts, 1), At(parts, 2), false)
    else
      KeyParts(Some(key), Some(""), false)
  }

  /** Dropping the leading `::` and turning the first `~` into a space. */
  lemma GroupKeyRewrite(word: string, rest: string)
    requires Lacks(word, '~')
    ensures ReplaceFirst(ReplaceFirst("::" + word + "~" + rest, "::", ""), "~", " ") == word + " " + rest
  {
    var key := "::" + word + "~" + rest;
    assert ReplaceFirst(key, "::", "") == word + "~" + rest by {
      ReplaceFirstAfterFreePrefix("", "::", word + "~" + rest, "");
      assert "" + "::" + (word + "~" + rest) == key;
      assert "" + "" + (word + "~" + rest) == word + "~" + rest;
    }
    ReplaceFirstAfterFreePrefix(word, "~", rest, " ");
  }

  /** `::ONE~OF` + rest is labelled `ONE OF` + rest, and likewise for `::ANY~OF`. */
  lemma OneOfKeyLabel(word: string, rest: string)
    requires word == "ONE" || word == "ANY"
    ensures ParseKey("::" + word + "~OF" + rest) == KeyParts(Some(word + " OF" + rest), Some(""), true)
  {
    var tail := "OF" + rest;
    var key := "::" + word + "~" + tail;
    assert "::" + word + "~OF" + rest == key;
    assert ReplaceFirst(ReplaceFirst(key, "::", ""), "~", " ") == word + " OF" + rest by {
      GroupKeyRewrite(word, tail);
      assert word + " " + tail == word + " OF" + rest;
    }
    GroupLeadStarts(word, rest);
    GroupKeyParse(key);
  }

  /** A `::ONE~OF` or `::ANY~OF` key starts with one of the two group leads. */
  lemma GroupLeadStarts(word: string, rest: string)
    requires word == "ONE" || word == "ANY"
    ensures StartsWith("::" + word + "~OF" + rest, "::ONE~OF") || StartsWith("::" + word + "~OF" + rest, "::ANY~OF")
  {
    var lead := "::" + word + "~OF";
    assert (lead + rest)[..|lead|] == lead;
    assert lead == "::ONE~OF" || lead == "::ANY~OF" by {
      assert |lead| == 8;
      assert lead[0] == ':' && lead[1] == ':' && lead[5] == '~' && lead[6] == 'O' && lead[7] == 'F';
      assert lead[2..5] == word;
    }
  }

  /** A group key takes the first branch of the key parser. */
  lemma GroupKeyParse(key: string)
    requires StartsWith(key, "::ONE~OF") || StartsWith(key, "::ANY~OF")
    ensures ParseKey(key) == KeyParts(Some(ReplaceFirst(ReplaceFirst(key, "::", ""), "~", " ")), Some(""), true)
  {
  }

  /** A key starting with `::OPTION` takes the option branch of the key parser. */
  lemma OptionKeyParse(key: string)
    requires StartsWith(key, "::OPTION")
    ensures ParseKey(key) == KeyParts(At(Split(key, "~"), 1), At(Split(key, "~"), 2), false)
  {
    assert key[2] == "::OPTION"[2] == 'O';
    assert key[3] == "::OPTION"[3] == 'P';
    DiffersAt(key, "::ONE~OF", 3);
    DiffersAt(key, "::ANY~OF", 2);
  }

  /** `::OPTION~a~b` is labelled `a` and described by `b` when neither holds a `~`. */
  lemma OptionKeyParts(a: string, b: string)
    requires Lacks(a, '~') && Lacks(b, '~')
    ensures ParseKey("::OPTION~" + a + "~" + b) == KeyParts(Some(a), Some(b), false)
  {
    var key := "::OPTION~" + a + "~" + b;
    var parts := ["::OPTION", a, b];
    assert key == Join(parts, "~") by {
      assert parts[1..] == [a, b];
      assert [a, b][1..] == [b];
      assert Join([b], "~") == b;
      assert Join([a, b], "~") == a + "~" + b;
      assert Join(parts, "~") == "::OPTION" + "~" + (a + "~" + b);
    }
    assert Split(key, "~") == parts by {
      assert AllLack(parts, '~');
      SplitJoin(parts, "~");
    }
    assert StartsWith(key, "::OPTION") by {
      assert key[..8] == "::OPTION";
    }
    OptionKeyParse(key);
  }

  /** `::OPTION~a` alone has label `a` and an undefined description. */
  lemma OptionKeyWithoutDescription(a: string)
    requires Lacks(a, '~')
    ensures ParseKey("::OPTION~" + a) == KeyParts(Some(a), None, false)
  {
    var key := "::OPTION~" + a;
    var parts := ["::OPTION", a];
    assert Split(key, "~") == parts by {
      assert key == Join(parts, "~") by {
        assert parts[1..] == [a];
      }
      assert AllLack(parts, '~');
      SplitJoin(parts, "~");
    }
    assert StartsWith(key, "::OPTION") by {
      assert key[..8] == "::OPTION";
    }
    OptionKeyParse(key);
  }

  /** Starting with a lead means starting with each of its prefixes. */
  lemma StartsWithPrefix(s: string, lead: string, n: nat)
    requires n <= |lead|
    ensures StartsWith(s, lead) ==> StartsWith(s, lead[..n])
  {
    if StartsWith(s, lead) {
      assert s[..n] == s[..|lead|][..n];
    }
  }

  /** A key that does not start with `::` is its own label. */
  lemma PlainKeyParts(key: string)
    requires !StartsWith(key, "::")
    ensures ParseKey(key) == KeyParts(Some(key), Some(""), false)
  {
    StartsWithPrefix(key, "::ONE~OF", 2);
    StartsWithPrefix(key, "::ANY~OF", 2);
    StartsWithPrefix(key, "::OPTION", 2);
    assert "::ONE~OF"[..2] == "::ANY~OF"[..2] == "::OPTION"[..2] == "::";
  }

  // ---------------------------------------------------------------------------------
  // Type labels

  /** `::dataTypeLabel || ::type`. */
  function DeclaredTypeLabel(data: Json): string {
    match StrProp(data, "::dataTypeLabel")
    case Some(s) => if |s| > 0 then s else StrPropOrEmpty(data, "::type")
    case None => StrPropOrEmpty(data, "::type")
  }

  /** The type text of an object or array node, given the type of the node that holds it. */
  function ObjectTypeLabel(data: Json, dataType: string, arrayType: string): string {
    var t := StrProp(data, "::type");
    if t == Some("object") then
      if dataType == "array" then "array of object" else DeclaredTypeLabel(data)
    else if t == Some("array") then
      if dataType == "array" then "array of array " + (if arrayType != "object" then "of " + arrayType else "")
      else DeclaredTypeLabel(data)
    else ""
  }

  /** An object held by an array is an `array of object`, whatever label it declares. */
  lemma ObjectInArrayLabel(data: Json, arrayType: string)
    requires StrProp(data, "::type") == Some("object")
    ensures ObjectTypeLabel(data, "array", arrayType) == "array of object"
  {
  }

  /** An array held by an array is an `array of array of T`; with `T` = `object` the `of T` is dropped. */
  lemma ArrayInArrayLabel(data: Json, arrayType: string)
    requires StrProp(data, "::type") == Some("array")
    ensures arrayType != "object" ==> ObjectTypeLabel(data, "array", arrayType) == "array of array of " + arrayType
    ensures arrayType == "object" ==> ObjectTypeLabel(data, "array", arrayType) == "array of array "
  {
  }

  /** Outside an array the declared label wins, then the declared type. */
  lemma DeclaredLabelOutsideArray(data: Json, dataType: string, arrayType: string)
    requires StrProp(data, "::type") == Some("object") || StrProp(data, "::type") == Some("array")
    requires dataType != "array"
    ensures StrProp(data, "::dataTypeLabel").Some? && |StrProp(data, "::dataTypeLabel").value| > 0 ==>
      ObjectTypeLabel(data, dataType, arrayType) == StrProp(data, "::dataTypeLabel").value
    ensures !(StrProp(data, "::dataTypeLabel").Some? && |StrProp(data, "::dataTypeLabel").value| > 0) ==>
      ObjectTypeLabel(data, dataType, arrayType) == StrProp(data, "::type").value
  {
  }

  // ---------------------------------------------------------------------------------
  // Primitive descriptors

  /** The fields of a primitive descriptor; title and deprecation are optional. */
  datatype Descriptor = Descriptor(
    typeName: string, access: string, constraint: string, defaultValue: string,
    allowedValues: string, pattern: string, description: string,
    title: Option<string>, deprecated: Option<string>)

  /** The descriptor's fields, or `None` when it has fewer than seven, where reading the description's length throws. */
  function ParseDescriptor(s: string): (d: Option<Descriptor>)
    ensures d.Some? <==> |Split(s, FieldSeparator)| >= 7
    ensures d.Some? ==> d.value.typeName == Split(s, FieldSeparator)[0]
  {
    var parts := Split(s, FieldSeparator);
    if |parts| < 7 then None
    else Some(Descriptor(parts[0], parts[1], parts[2], parts[3], parts[4], parts[5], parts[6],
                         At(parts, 7), At(parts, 8)))
  }

  /** The field list a descriptor is written from (the producer of descriptors is not part of this model). */
  function DescriptorFields(d: Descriptor): seq<string>
    requires d.deprecated.Some? ==> d.title.Some?
  {
    [d.typeName, d.access, d.constraint, d.defaultValue, d.allowedValues, d.pattern, d.description]
    + (if d.title.Some? then [d.title.value] else [])
    + (if d.deprecated.Some? then [d.deprecated.value] else [])
  }

  /** No field holds a `~`, and a deprecation flag comes with a title. */
  predicate Encodable(d: Descriptor) {
    (d.deprecated.Some? ==> d.title.Some?) && AllLack(DescriptorFields(d), '~')
  }

  /** Splitting a descriptor written with `~|~` gives its fields back. */
  lemma DescriptorRoundTrip(d: Descriptor)
    requires Encodable(d)
    ensures ParseDescriptor(Join(DescriptorFields(d), FieldSeparator)) == Some(d)
  {
    var fields := DescriptorFields(d);
    SplitJoin(fields, FieldSeparator);
  }

  /** A line terminator, where a regular expression's `.` stops. */
  predicate IsLineTerminator(c: char) {
    c == '\n' || c == '\r' || c == '\U{2028}' || c == '\U{2029}'
  }

  /** Drops characters up to (not including) the next line terminator. */
  function DropToLineEnd(s: string): (r: string)
    ensures |r| <= |s|
    ensures |r| > 0 ==> IsLineTerminator(r[0])
  {
    if |s| == 0 || IsLineTerminator(s[0]) then s else DropToLineEnd(s[1..])
  }

  /** `s.replace(/<Divider>.*&#47;g, '')`: every divider and the rest of its line are removed. */
  function StripDividerTails(s: string): (r: string)
    ensures |r| <= |s|
    decreases |s|
  {
    if |s| == 0 then ""
    else if StartsWith(s, Divider) then StripDividerTails(DropToLineEnd(s[|Divider|..]))
    else [s[0]] + StripDividerTails(s[1..])
  }

  /** `[a-zA-Z0-9+]`. */
  predicate IsCssSource(c: char) {
    'a' <= c <= 'z' || 'A' <= c <= 'Z' || '0' <= c <= '9' || c == '+'
  }

  /** `[a-z0-9+]`. */
  predicate IsCssChar(c: char) {
    'a' <= c <= 'z' || '0' <= c <= '9' || c == '+'
  }

  /** At most four characters from `[a-z0-9+]`. */
  predicate WellFormedCss(css: string) {
    |css| <= 4 && forall i :: 0 <= i < |css| ==> IsCssChar(css[i])
  }

  /** The CSS class of a primitive's type cell. */
  function CssClass(typeName: string): (css: string)
    ensures WellFormedCss(css)
  {
    var kept := Filter(StripDividerTails(typeName), IsCssSource);
    var short := if |kept| <= 4 then kept else kept[..4];
    ToLowerAscii(short)
  }

  /** Text free of the divider's first character passes the divider stripping unchanged. */
  lemma {:induction false} StripAfterFree(a: string, t: string)
    requires Lacks(a, Divider[0])
    ensures StripDividerTails(a + t) == a + StripDividerTails(t)
    decreases |a|
  {
    if |a| > 0 {
      var s := a + t;
      DiffersAt(s, Divider, 0);
      assert s[1..] == a[1..] + t;
      StripAfterFree(a[1..], t);
      assert a == [a[0]] + a[1..];
    } else {
      assert a + t == t;
    }
  }

  /** A one-line text free of line terminators is dropped entirely. */
  lemma {:induction false} DropWholeLine(b: string)
    requires forall i :: 0 <= i < |b| ==> !IsLineTerminator(b[i])
    ensures DropToLineEnd(b) == ""
    decreases |b|
  {
    if |b| > 0 {
      DropWholeLine(b[1..]);
    }
  }

  /** On one line, the CSS class depends only on the text before the first divider. */
  lemma CssClassBeforeDivider(a: string, b: string)
    requires Lacks(a, Divider[0])
    requires forall i :: 0 <= i < |b| ==> !IsLineTerminator(b[i])
    ensures CssClass(a + Divider + b) == CssClass(a)
  {
    DividerTailDropped(a, b);
    StripAfterFree(a, "");
    assert a + "" == a;
  }

  /** A divider and the rest of its line are stripped after divider-free text. */
  lemma DividerTailDropped(a: string, b: string)
    requires Lacks(a, Divider[0])
    requires forall i :: 0 <= i < |b| ==> !IsLineTerminator(b[i])
    ensures StripDividerTails(a + Divider + b) == a
  {
    StripAfterFree(a, Divider + b);
    assert a + Divider + b == a + (Divider + b);
    LeadingDividerDropped(b);
    assert a + "" == a;
  }

  /** A line that starts with the divider is stripped entirely. */
  lemma LeadingDividerDropped(b: string)
    requires forall i :: 0 <= i < |b| ==> !IsLineTerminator(b[i])
    ensures StripDividerTails(Divider + b) == ""
  {
    var t := Divider + b;
    assert t[..|Divider|] == Divider;
    assert t[|Divider|..] == b;
    DropWholeLine(b);
  }

  /** A type name already made of `[a-z0-9+]`, without a divider, is its own class cut to four characters. */
  lemma CssClassOfPlainName(a: string)
    requires Lacks(a, Divider[0])
    requires forall i :: 0 <= i < |a| ==> IsCssChar(a[i])
    ensures CssClass(a) == if |a| <= 4 then a else a[..4]
  {
    StripAfterFree(a, "");
    assert a + "" == a;
    assert forall i :: 0 <= i < |a| ==> IsCssSource(a[i]);
    FilterKeepsAll(a, IsCssSource);
    var short := if |a| <= 4 then a else a[..4];
    assert forall i :: 0 <= i < |short| ==> LowerAscii(short[i]) == short[i];
  }

  /** An upper-case letter is kept, lower-cased. */
  lemma CssClassLowersUpper(c: char, rest: string)
    requires 'A' <= c <= 'Z'
    ensures |CssClass([c] + rest)| > 0 && CssClass([c] + rest)[0] == LowerAscii(c)
  {
    LeadCharStripped(c, rest);
    assert ([c] + StripDividerTails(rest))[1..] == StripDividerTails(rest);
  }

  /** A character outside `[a-zA-Z0-9+]` that does not start a divider leaves no trace in the class. */
  lemma CssClassDropsOther(c: char, rest: string)
    requires !IsCssSource(c) && c != Divider[0]
    ensures CssClass([c] + rest) == CssClass(rest)
  {
    LeadCharStripped(c, rest);
    assert ([c] + StripDividerTails(rest))[1..] == StripDividerTails(rest);
  }

  /** A first character other than the divider's survives the divider stripping. */
  lemma LeadCharStripped(c: char, rest: string)
    requires c != Divider[0]
    ensures StripDividerTails([c] + rest) == [c] + StripDividerTails(rest)
  {
    StripAfterFree([c], rest);
  }

  /** `type.replaceAll(<Divider>, ' | ')`. */
  function TypeDivider(typeName: string): string {
    ReplaceAll(typeName, Divider, " | ")
  }

  /** No divider glyph survives in the displayed type. */
  lemma NoDividerShown(typeName: string)
    ensures !Contains(TypeDivider(typeName), Divider)
  {
    assert Disjoint(Divider, " | ");
    ReplaceAllRemovesPattern(typeName, Divider, " | ");
  }

  /** Text free of the pattern's first character passes `replaceAll` unchanged, whatever follows. */
  lemma {:induction false} ReplaceAllAfterFree(a: string, t: string)
    requires Lacks(a, Divider[0])
    ensures ReplaceAll(a + t, Divider, " | ") == a + ReplaceAll(t, Divider, " | ")
    decreases |a|
  {
    if |a| > 0 {
      var s := a + t;
      DiffersAt(s, Divider, 0);
      assert s[1..] == a[1..] + t;
      ReplaceAllAfterFree(a[1..], t);
      assert a == [a[0]] + a[1..];
    } else {
      assert a + t == t;
    }
  }

  /** Every divider between alternatives is shown as ` | `, and nothing else changes. */
  lemma {:induction false} TypeDividerJoins(alternatives: seq<string>)
    requires |alternatives| >= 1 && AllLack(alternatives, Divider[0])
    ensures TypeDivider(Join(alternatives, Divider)) == Join(alternatives, " | ")
    decreases |alternatives|
  {
    var a := alternatives[0];
    assert Lacks(a, Divider[0]);
    if |alternatives| == 1 {
      ReplaceAllAfterFree(a, "");
      assert a + "" == a;
    } else {
      var rest := Join(alternatives[1..], Divider);
      ReplaceAllAfterFree(a, Divider + rest);
      assert Join(alternatives, Divider) == a + (Divider + rest);
      assert (Divider + rest)[..|Divider|] == Divider;
      assert (Divider + rest)[|Divider|..] == rest;
      TypeDividerJoins(alternatives[1..]);
    }
  }

  // ---------------------------------------------------------------------------------
  // Rows

  /** The read/write marking of an object node. */
  datatype Access = ReadWrite | ReadOnly | WriteOnly

  /** The expand/collapse control of an object row: its CSS state and its text. */
  datatype Toggle = NoToggle | Toggle(expanded: bool, text: string)

  /** How a row shows its key. */
  datatype KeyCell =
    | PairCell(keyLabel: Option<string>, keyDescr: Option<string>, oneOf: bool)  // label, then description
    | RequiredCell(name: string)                                                 // name with a red `*`
    | PlainCell(name: string)
    | TitleCell(title: Option<string>)                                           // no label: the schema title

  /** One row of the table; `level` is its schema level and `indent` its indent level (padding is 10 × indent). */
  datatype Row =
    | UndefinedRow(keyText: string, typeText: string, description: string, level: int, indent: int)
    | EmptyObjectRow(keyText: string, level: int, indent: int)
    | ObjectRow(expanded: bool, nodeType: Option<string>, cell: KeyCell, toggle: Toggle, arrayMark: bool,
                typeText: string, access: Access, description: string, deprecated: bool, level: int, indent: int)
    | ArrayTypeRow(typeText: string, level: int, indent: int)
    | PrimitiveRow(cell: KeyCell, typeText: string, cssClass: string, fields: Descriptor,
                   description: string, allowedCaption: string, expandable: bool, level: int, indent: int)

  /** Left padding in pixels; a row for missing data is padded by its schema level. */
  function Padding(r: Row): int {
    if r.UndefinedRow? then (r.level + 1) * 10 else 10 * r.indent
  }

  /** The arguments of one `generateTree` call. */
  datatype Node = Node(data: Json, dataType: string, arrayType: string, key: string, description: string,
                       schemaLevel: int, indentLevel: int, readOrWrite: string)

  /** The node's `::type`, when it is a string. */
  function NodeType(data: Json): Option<string> {
    StrProp(data, "::type")
  }

  /** The `::type` starts with `xxx-of`: a `oneOf`/`anyOf`/`allOf` grouping node. */
  predicate IsGroupType(t: Option<string>) {
    t.Some? && StartsWith(t.value, "xxx-of")
  }

  /** The node is filtered out by the hide-read-only or hide-write-only setting. */
  predicate Hidden(cfg: TreeConfig, n: Node) {
    (cfg.hideReadOnly
     && ((n.dataType == "array" && n.readOrWrite == "readonly")
         || (Truthy(n.data) && StrProp(n.data, "::readwrite") == Some("readonly"))))
    || (cfg.hideWriteOnly
        && ((n.dataType == "array" && n.readOrWrite == "writeonly")
            || (Truthy(n.data) && StrProp(n.data, "::readwrite") == Some("writeonly"))))
  }

  /** Grouping nodes stay on their parent's schema level; every other node goes one deeper. */
  function NextSchemaLevel(n: Node): int {
    if IsGroupType(NodeType(n.data)) then n.schemaLevel else n.schemaLevel + 1
  }

  /** Options of a grouping node stay on their parent's indent level; every other node is indented once more. */
  function NextIndent(n: Node): int {
    if n.dataType == "xxx-of-option" || NodeType(n.data) == Some("xxx-of-option") || StartsWith(n.key, "::OPTION")
    then n.indentLevel
    else n.indentLevel + 1
  }

  /** The marking of an object node. */
  function AccessOf(data: Json): Access {
    var rw := StrProp(data, "::readwrite");
    if rw == Some("readonly") then ReadOnly
    else if rw == Some("writeonly") then WriteOnly
    else ReadWrite
  }

  /** The placeholder type of a node without data. */
  function PlaceholderType(dataType: string): string {
    if dataType == "array" then "[ ]" else if dataType == "object" then "{ }" else "schema undefined"
  }

  /** The key cell of an object row. */
  function ObjectCell(n: Node, k: KeyParts): KeyCell
    requires !StartsWith(n.key, "::OPTION") ==> k.keyLabel.Some?
  {
    var t := NodeType(n.data);
    if t == Some("xxx-of-option") || t == Some("xxx-of-array") || StartsWith(n.key, "::OPTION") then
      PairCell(k.keyLabel, k.keyDescr, k.oneOf)
    else
      var name := k.keyLabel.value;
      if EndsWith(name, "*") then RequiredCell(name[..|name| - 1])
      else PlainCell(if name == "::props" then "" else name)
  }

  /** A non-empty string. */
  predicate Filled(s: Option<string>) {
    s.Some? && |s.value| > 0
  }

  /** The row of an object node with a key. */
  function ObjectHeader(cfg: TreeConfig, n: Node): Row {
    var k := ParseKey(n.key);
    var level := NextSchemaLevel(n);
    var t := NodeType(n.data);
    ObjectRow(
      AtMost(level, cfg.expandLevel),
      t,
      ObjectCell(n, k),
      if Filled(k.keyLabel) || Filled(k.keyDescr)
      then Toggle(Below(level, cfg.expandLevel), if Below(n.schemaLevel, cfg.expandLevel) then "-" else "+")
      else NoToggle,
      t == Some("xxx-of") && n.dataType == "array",
      if Contains(t.GetOr(""), "xxx-of") then "" else ObjectTypeLabel(n.data, n.dataType, n.arrayType),
      AccessOf(n.data),
      n.description,
      Truthy(Prop(n.data, "::deprecated")),
      level,
      NextIndent(n))
  }

  /** What precedes the children of an object or array node: its own row, or for a nested array its element type. */
  function HeaderRows(cfg: TreeConfig, n: Node): seq<Row> {
    var level := NextSchemaLevel(n);
    if level >= 0 && |n.key| > 0 then [ObjectHeader(cfg, n)]
    else if NodeType(n.data) == Some("array") && n.dataType == "array" then
      [ArrayTypeRow(if |n.arrayType| > 0 && n.arrayType != "object" then n.dataType + " of " + n.arrayType else n.dataType,
                    level, NextIndent(n))]
    else []
  }

  /** The key cell of a primitive row. */
  function PrimitiveCell(n: Node, k: KeyParts, title: Option<string>): KeyCell {
    if k.keyLabel.Some? && EndsWith(k.keyLabel.value, "*") then
      RequiredCell(k.keyLabel.value[..|k.keyLabel.value| - 1])
    else if StartsWith(n.key, "::OPTION") then PairCell(k.keyLabel, k.keyDescr, k.oneOf)
    else if Filled(k.keyLabel) then PlainCell(k.keyLabel.value)
    else TitleCell(title)
  }

  /** The rows of a primitive (descriptor string) node; `None` when the descriptor is too short and the source throws. */
  function PrimitiveRows(cfg: TreeConfig, n: Node, descriptor: string): Option<seq<Row>> {
    var parts := Split(descriptor, FieldSeparator);
    var rw := At(parts, 1);
    if (rw == Some(ReadOnlyMark) && cfg.hideReadOnly) || (rw == Some(WriteOnlyMark) && cfg.hideWriteOnly) then
      Some([])
    else
      match ParseDescriptor(descriptor)
      case None => None
      case Some(d) =>
        var typeText :=
          if n.dataType == "array" then
            "[" + TypeDivider(d.typeName) + "] "
            + (if n.readOrWrite == "readonly" then ReadOnlyMark
               else if n.readOrWrite == "writeonly" then WriteOnlyMark else "")
          else TypeDivider(d.typeName) + " " + d.access;
        Some([PrimitiveRow(
          PrimitiveCell(n, ParseKey(n.key), d.title),
          typeText,
          CssClass(d.typeName),
          d,
          if n.dataType == "array" then n.description else d.description,
          if d.typeName == "const" then "Value" else "Allowed",
          Utf16Length(d.description) >= 50 || |d.constraint| > 0 || |d.defaultValue| > 0 || |d.allowedValues| > 0 || |d.pattern| > 0,
          NextSchemaLevel(n),
          NextIndent(n))])
  }

  // ---------------------------------------------------------------------------------
  // What every emitted row satisfies

  /** An object row is expanded exactly up to the expand level and never shows what is hidden; its toggle reads `-` exactly when the parent level is below the expand level. */
  predicate RowOk(cfg: TreeConfig, r: Row) {
    match r
    case ObjectRow(_, _, _, _, _, _, _, _, _, _, _) =>
      r.expanded == AtMost(r.level, cfg.expandLevel)
      && !(cfg.hideReadOnly && r.access == ReadOnly)
      && !(cfg.hideWriteOnly && r.access == WriteOnly)
      && (r.toggle.Toggle? ==>
            r.toggle.expanded == Below(r.level, cfg.expandLevel)
            && (r.toggle.text == "-" <==> AtMost(if IsGroupType(r.nodeType) then r.level + 1 else r.level, cfg.expandLevel)))
    case PrimitiveRow(_, _, _, _, _, _, _, _, _) =>
      WellFormedCss(r.cssClass)
      && !(cfg.hideReadOnly && r.fields.access == ReadOnlyMark)
      && !(cfg.hideWriteOnly && r.fields.access == WriteOnlyMark)
    case _ => true
  }

  /** Every row is well formed and sits at or below the given schema and indent levels. */
  predicate RowsOk(cfg: TreeConfig, level: int, indent: int, rows: seq<Row>) {
    forall k :: 0 <= k < |rows| ==> RowOk(cfg, rows[k]) && rows[k].level >= level && rows[k].indent >= indent
  }

  lemma RowsOkConcat(cfg: TreeConfig, level: int, indent: int, a: seq<Row>, b: seq<Row>)
    requires RowsOk(cfg, level, indent, a) && RowsOk(cfg, level, indent, b)
    ensures RowsOk(cfg, level, indent, a + b)
  {
    forall k | 0 <= k < |a + b|
      ensures RowOk(cfg, (a + b)[k]) && (a + b)[k].level >= level && (a + b)[k].indent >= indent
    {
      if k < |a| {
        assert (a + b)[k] == a[k];
      } else {
        assert (a + b)[k] == b[k - |a|];
      }
    }
  }

  lemma RowsOkWeaken(cfg: TreeConfig, level: int, indent: int, level': int, indent': int, rows: seq<Row>)
    requires RowsOk(cfg, level', indent', rows) && level <= level' && indent <= indent'
    ensures RowsOk(cfg, level, indent, rows)
  {
  }

  /** A visible object node's own row satisfies `RowOk`. */
  lemma HeaderRowsOk(cfg: TreeConfig, n: Node)
    requires !Hidden(cfg, n) && Truthy(n.data)
    ensures RowsOk(cfg, n.schemaLevel, n.indentLevel, HeaderRows(cfg, n))
  {
  }

  // ---------------------------------------------------------------------------------
  // The tree walk

  /** The property names that carry metadata rather than a child schema. */
  predicate IsMetaKey(key: string) {
    key in ["::title", "::description", "::type", "::props", "::deprecated", "::array-type", "::readwrite", "::dataTypeLabel"]
  }

  /** The call made for the child stored under `e.key`: an array child passes its `::props`. */
  function ChildNode(e: Field, level: int, indent: int): Node {
    var child := e.value;
    var t := NodeType(child);
    Node(if t == Some("array") then Prop(child, "::props") else child,
         t.GetOr("object"),
         StrPropOrEmpty(child, "::array-type"),
         e.key,
         StrPropOrEmpty(child, "::description"),
         level,
         indent,
         StrPropOrEmpty(child, "::readwrite"))
  }

  /** The call made for the first element of an array node, one level below the node. */
  function ElementNode(n: Node): Node
    requires n.data.Arr? && |n.data.elems| > 0
  {
    Node(n.data.elems[0], "xxx-of-option", "", "::ARRAY~OF", "", NextSchemaLevel(n), NextIndent(n), "")
  }

  /**
   * `generateTree`: the rows of one node and its descendants, or `None` when the source
   * throws a `TypeError` (a `null` child, or a descriptor with fewer than seven fields).
   */
  function GenerateTree(cfg: TreeConfig, n: Node): (r: Option<seq<Row>>)
    ensures r.Some? ==> RowsOk(cfg, n.schemaLevel, n.indentLevel, r.value)
    ensures !Hidden(cfg, n) && !Truthy(n.data) ==>
      r.Some? && |r.value| == 1 && r.value[0].level == n.schemaLevel && Padding(r.value[0]) == (n.schemaLevel + 1) * 10
    decreases Size(n.data), 1
  {
    if Hidden(cfg, n) then Some([])
    else if !Truthy(n.data) then
      Some([UndefinedRow(ReplaceFirst(n.key, "::OPTION~", ""), PlaceholderType(n.dataType), n.description,
                         n.schemaLevel, n.indentLevel)])
    else if KeyCount(n.data) == 0 then
      Some([EmptyObjectRow(n.key, NextSchemaLevel(n), NextIndent(n))])
    else if n.data.Obj? || n.data.Arr? then
      var level := NextSchemaLevel(n);
      var indent := NextIndent(n);
      var header := HeaderRows(cfg, n);
      HeaderRowsOk(cfg, n);
      var body :=
        if n.data.Arr? && Truthy(n.data.elems[0]) then (
          EntrySmaller(n.data, 0);
          GenerateTree(cfg, ElementNode(n)))
        else
          Children(cfg, n.data, 0, level, indent);
      match body
      case None => None
      case Some(rows) =>
        RowsOkWeaken(cfg, n.schemaLevel, n.indentLevel, level, indent, rows);
        RowsOkConcat(cfg, n.schemaLevel, n.indentLevel, header, rows);
        Some(header + rows)
    else
      PrimitiveRows(cfg, n, n.data.s)
  }

  /**
   * A visible object or array node with a key opens with its own row, one schema level
   * deeper unless it groups options and one indent deeper unless it is an option, padded
   * by its indent; its children, or its first element, are walked at exactly those levels
   * and never come out shallower than the node's row.
   */
  lemma NestedLevels(cfg: TreeConfig, n: Node)
    requires !Hidden(cfg, n) && Truthy(n.data) && KeyCount(n.data) > 0 && (n.data.Obj? || n.data.Arr?)
    requires NextSchemaLevel(n) >= 0 && |n.key| > 0
    ensures var body :=
        if n.data.Arr? && Truthy(n.data.elems[0]) then GenerateTree(cfg, ElementNode(n))
        else Children(cfg, n.data, 0, NextSchemaLevel(n), NextIndent(n));
      GenerateTree(cfg, n) == if body.Some? then Some([ObjectHeader(cfg, n)] + body.value) else None
    ensures GenerateTree(cfg, n).Some? ==>
      var rows := GenerateTree(cfg, n).value;
      && |rows| > 0
      && rows[0].ObjectRow?
      && rows[0].level == n.schemaLevel + (if IsGroupType(NodeType(n.data)) then 0 else 1)
      && rows[0].indent == n.indentLevel +
           (if n.dataType == "xxx-of-option" || NodeType(n.data) == Some("xxx-of-option") || StartsWith(n.key, "::OPTION")
            then 0 else 1)
      && Padding(rows[0]) == 10 * rows[0].indent
      && RowsOk(cfg, rows[0].level, rows[0].indent, rows[1..])
  {
    var header := ObjectHeader(cfg, n);
    match GenerateTree(cfg, n)
    case None =>
    case Some(rows) =>
      var body :=
        if n.data.Arr? && Truthy(n.data.elems[0]) then GenerateTree(cfg, ElementNode(n))
        else Children(cfg, n.data, 0, NextSchemaLevel(n), NextIndent(n));
      assert rows == [header] + body.value;
      assert rows[1..] == body.value;
  }

  /** The rows of the children of `parent` from entry `i` on, in key order. */
  function Children(cfg: TreeConfig, parent: Json, i: nat, level: int, indent: int): (r: Option<seq<Row>>)
    requires i <= |Entries(parent)|
    ensures r.Some? ==> RowsOk(cfg, level, indent, r.value)
    ensures r.Some? ==> forall j :: i <= j < |Entries(parent)| ==> !Entries(parent)[j].value.Undefined?
    decreases Size(parent), 0, |Entries(parent)| - i
  {
    if i == |Entries(parent)| then Some([])
    else
      match ChildRows(cfg, parent, i, level, indent)
      case None => None
      case Some(rows) =>
        match Children(cfg, parent, i + 1, level, indent)
        case None => None
        case Some(rest) =>
          assert !Entries(parent)[i].value.Undefined?;
          RowsOkConcat(cfg, level, indent, rows, rest);
          Some(rows + rest)
  }

  /** The rows of entry `i` of `parent`: none for a `::` key other than an array or object, and a throw for a `null` value. */
  function ChildRows(cfg: TreeConfig, parent: Json, i: nat, level: int, indent: int): (r: Option<seq<Row>>)
    requires i < |Entries(parent)|
    ensures r.Some? ==> RowsOk(cfg, level, indent, r.value)
    ensures Entries(parent)[i].value.Undefined? ==> r == None
    decreases Size(parent), 0, |Entries(parent)| - i, 0
  {
    var e := Entries(parent)[i];
    var t := NodeType(e.value);
    if e.value.Undefined? then None
    else if IsMetaKey(e.key) && t != Some("array") && t != Some("object") then Some([])
    else (
      EntrySmaller(parent, i);
      PropNoLarger(e.value, "::props");
      GenerateTree(cfg, ChildNode(e, level, indent)))
  }

  /** `render`: the table body for the component's `data`; an array schema starts from its `::props`. */
  function RenderRows(cfg: TreeConfig, data: Json): (r: Option<seq<Row>>)
    ensures r.Some? ==> RowsOk(cfg, 0, 0, r.value)
  {
    if !Truthy(data) then Some([])
    else
      var t := NodeType(data);
      GenerateTree(cfg, Node(if t == Some("array") then Prop(data, "::props") else data,
                             t.GetOr("object"), StrPropOrEmpty(data, "::array-type"), "", "", 0, 0, ""))
  }

  // ---------------------------------------------------------------------------------
  // Properties of the tree walk

  /** With read-only hiding on, an object marked read-only, or an array inherited as read-only, yields nothing (and likewise for write-only). */
  lemma HiddenNodeYieldsNothing(cfg: TreeConfig, n: Node)
    requires (cfg.hideReadOnly && (StrProp(n.data, "::readwrite") == Some("readonly")
                                   || (n.dataType == "array" && n.readOrWrite == "readonly")))
          || (cfg.hideWriteOnly && (StrProp(n.data, "::readwrite") == Some("writeonly")
                                    || (n.dataType == "array" && n.readOrWrite == "writeonly")))
    ensures GenerateTree(cfg, n) == Some([])
  {
    assert StrProp(n.data, "::readwrite").Some? ==> n.data.Obj?;
  }

  /** With read-only hiding on, a primitive whose descriptor is marked read-only yields nothing (and likewise for write-only). */
  lemma HiddenPrimitiveYieldsNothing(cfg: TreeConfig, n: Node, descriptor: string)
    requires n.data == Str(descriptor)
    requires var rw := At(Split(descriptor, FieldSeparator), 1);
      (cfg.hideReadOnly && rw == Some(ReadOnlyMark)) || (cfg.hideWriteOnly && rw == Some(WriteOnlyMark))
    ensures GenerateTree(cfg, n) == Some([])
  {
    assert |descriptor| > 0;
  }

  /** A visible primitive whose descriptor has fewer than seven fields makes the whole walk throw. */
  lemma ShortDescriptorThrows(cfg: TreeConfig, n: Node, descriptor: string)
    requires n.data == Str(descriptor) && |descriptor| > 0 && !Hidden(cfg, n)
    requires var rw := At(Split(descriptor, FieldSeparator), 1);
      !(cfg.hideReadOnly && rw == Some(ReadOnlyMark)) && !(cfg.hideWriteOnly && rw == Some(WriteOnlyMark))
    requires |Split(descriptor, FieldSeparator)| < 7
    ensures GenerateTree(cfg, n) == None
  {
  }

  /**
   * A visible primitive with a full descriptor is one row, one schema level below the node
   * and indented once more unless it is an option, padded by its indent; its CSS class
   * and its type text come from the descriptor's type.
   */
  lemma PrimitiveRowShown(cfg: TreeConfig, n: Node, descriptor: string, d: Descriptor)
    requires n.data == Str(descriptor) && !Hidden(cfg, n)
    requires ParseDescriptor(descriptor) == Some(d)
    requires !(cfg.hideReadOnly && d.access == ReadOnlyMark) && !(cfg.hideWriteOnly && d.access == WriteOnlyMark)
    ensures GenerateTree(cfg, n).Some? && |GenerateTree(cfg, n).value| == 1
    ensures var r := GenerateTree(cfg, n).value[0];
      && r.PrimitiveRow?
      && r.fields == d
      && r.level == n.schemaLevel + 1
      && r.indent == n.indentLevel + (if n.dataType == "xxx-of-option" || StartsWith(n.key, "::OPTION") then 0 else 1)
      && Padding(r) == 10 * r.indent
      && r.cssClass == CssClass(d.typeName)
      && (r.expandable <==> Utf16Length(d.description) >= 50 || |d.constraint| > 0 || |d.defaultValue| > 0
                            || |d.allowedValues| > 0 || |d.pattern| > 0)
      && r.typeText ==
           if n.dataType == "array" then
             "[" + TypeDivider(d.typeName) + "] "
             + (if n.readOrWrite == "readonly" then ReadOnlyMark
                else if n.readOrWrite == "writeonly" then WriteOnlyMark else "")
           else TypeDivider(d.typeName) + " " + d.access
  {
    SplitShort("", FieldSeparator);
    assert NodeType(n.data) == None;
  }

  /** A truthy node without keys (a number, `true`, `{}` or `[]`) is one row at the node's next levels, padded by its indent. */
  lemma EmptyObjectRowShown(cfg: TreeConfig, n: Node)
    requires !Hidden(cfg, n) && Truthy(n.data) && KeyCount(n.data) == 0
    ensures GenerateTree(cfg, n).Some? && |GenerateTree(cfg, n).value| == 1
    ensures var r := GenerateTree(cfg, n).value[0];
      && r == EmptyObjectRow(n.key, r.level, r.indent)
      && r.level == n.schemaLevel + (if IsGroupType(NodeType(n.data)) then 0 else 1)
      && r.indent == n.indentLevel +
           (if n.dataType == "xxx-of-option" || NodeType(n.data) == Some("xxx-of-option") || StartsWith(n.key, "::OPTION")
            then 0 else 1)
      && Padding(r) == 10 * r.indent
  {
  }

  /** Twenty-five characters outside the Basic Multilingual Plane are fifty code units: enough for the description expander. */
  lemma AstralDescriptionExpands(cfg: TreeConfig, n: Node, descriptor: string, d: Descriptor)
    requires n.data == Str(descriptor) && !Hidden(cfg, n)
    requires ParseDescriptor(descriptor) == Some(d)
    requires !(cfg.hideReadOnly && d.access == ReadOnlyMark) && !(cfg.hideWriteOnly && d.access == WriteOnlyMark)
    requires d.description == seq(25, _ => '\U{1F600}')
    ensures GenerateTree(cfg, n).Some? && |GenerateTree(cfg, n).value| == 1
    ensures GenerateTree(cfg, n).value[0].expandable
  {
    PrimitiveRowShown(cfg, n, descriptor, d);
    AstralLength(d.description);
  }

  /** Outside grouping nodes, an object row's toggle reads `-` exactly when the row is expanded. */
  lemma ToggleTextMatchesRow(cfg: TreeConfig, r: Row)
    requires RowOk(cfg, r) && r.ObjectRow? && r.toggle.Toggle? && !IsGroupType(r.nodeType)
    ensures r.toggle.text == "-" <==> r.expanded
  {
  }

  // ---------------------------------------------------------------------------------
  // Component state

  /** `'true false'.includes(v)` for a non-empty `v`: the test `connectedCallback` applies to a flag. */
  predicate AcceptedFlag(v: string) {
    |v| > 0 && Contains("true false", v)
  }

  /** A flag keeps its value when accepted, and otherwise takes `fallback`. */
  function NormalizeFlag(v: Option<string>, fallback: string): string {
    if v.Some? && AcceptedFlag(v.value) then v.value else fallback
  }

  /** A missing or less-than-one expand level becomes "expand everything". */
  function NormalizeExpandLevel(level: Option<int>): (r: int)
    ensures r >= 1
    ensures level.Some? && level.value >= 1 ==> r == level.value
    ensures !(level.Some? && level.value >= 1) ==> r == ExpandAll
  {
    if level.None? || level.value < 1 then ExpandAll else level.value
  }

  lemma TrueFalseAccepted()
    ensures AcceptedFlag("true") && AcceptedFlag("false")
  {
    ContainsIff("true false", "true", 0);
    ContainsIff("true false", "false", 5);
    assert "true false"[0..4] == "true";
    assert "true false"[5..10] == "false";
  }

  /** A normalised flag is accepted, so normalising again changes nothing. */
  lemma NormalizeFlagIdempotent(v: Option<string>, fallback: string)
    requires fallback == "true" || fallback == "false"
    ensures AcceptedFlag(NormalizeFlag(v, fallback))
    ensures NormalizeFlag(Some(NormalizeFlag(v, fallback)), fallback) == NormalizeFlag(v, fallback)
  {
    TrueFalseAccepted();
  }

  /** The test is a substring test: `rue` is kept (and then hides nothing), while `yes` falls back. */
  lemma FlagSubstringTest()
    ensures NormalizeFlag(Some("rue"), "true") == "rue"
    ensures NormalizeFlag(Some("yes"), "true") == "true"
  {
    ContainsIff("true false", "rue", 1);
    assert "true false"[1..4] == "rue";
    AbsentCharNotContained("true false", "yes", 0);
  }

  /** The multiline toggle's new value: `'true'` becomes `'false'`, anything else `'true'`. */
  function FlipFlag(v: Option<string>): string {
    if v == Some("true") then "false" else "true"
  }

  /** Flipping twice restores `'true'` or `'false'`. */
  lemma FlipTwice(v: string)
    requires v == "true" || v == "false"
    ensures FlipFlag(Some(FlipFlag(Some(v)))) == v
    ensures FlipFlag(Some(v)) != v
  {
  }

  /** The classes of a row after `toggleObjectExpand`. */
  function Toggled(classes: set<string>): set<string> {
    if "expanded" in classes then classes + {"collapsed"} - {"expanded"}
    else classes - {"collapsed"} + {"expanded"}
  }

  /** Afterwards exactly one of `expanded` and `collapsed` is present, and no other class changes. */
  lemma ToggledState(classes: set<string>)
    ensures ("expanded" in Toggled(classes)) != ("collapsed" in Toggled(classes))
    ensures ("expanded" in Toggled(classes)) <==> "expanded" !in classes
    ensures forall c :: c != "expanded" && c != "collapsed" ==> (c in Toggled(classes) <==> c in classes)
  {
  }

  /** Toggling twice restores a row that had exactly one of the two classes. */
  lemma ToggleTwice(classes: set<string>)
    requires ("expanded" in classes) != ("collapsed" in classes)
    ensures Toggled(Toggled(classes)) == classes
  {
  }

  /** A DOM element, reduced to its class list and its text. */
  class Element {
    var classList: set<string>
    var innerText: string

    constructor (classes: set<string>, text: string)
      ensures classList == classes && innerText == text
    {
      classList := classes;
      innerText := text;
    }
  }

  /** The component: its attributes and its schema data. */
  class SchemaTableElement {
    var schemaExpandLevel: Option<int>
    var schemaDescriptionExpanded: Option<string>
    var schemaHideReadOnly: Option<string>
    var schemaHideWriteOnly: Option<string>
    var data: Json

    constructor (expandLevel: Option<int>, descriptionExpanded: Option<string>,
                 hideReadOnly: Option<string>, hideWriteOnly: Option<string>, schema: Json)
      ensures schemaExpandLevel == expandLevel && schemaDescriptionExpanded == descriptionExpanded
      ensures schemaHideReadOnly == hideReadOnly && schemaHideWriteOnly == hideWriteOnly && data == schema
    {
      schemaExpandLevel := expandLevel;
      schemaDescriptionExpanded := descriptionExpanded;
      schemaHideReadOnly := hideReadOnly;
      schemaHideWriteOnly := hideWriteOnly;
      data := schema;
    }

    /** Every attribute holds a value `connectedCallback` would keep. */
    predicate Connected()
      reads this
    {
      schemaExpandLevel.Some? && schemaExpandLevel.value >= 1
      && schemaDescriptionExpanded.Some? && AcceptedFlag(schemaDescriptionExpanded.value)
      && schemaHideReadOnly.Some? && AcceptedFlag(schemaHideReadOnly.value)
      && schemaHideWriteOnly.Some? && AcceptedFlag(schemaHideWriteOnly.value)
    }

    /** What the tree walk reads. */
    function Config(): TreeConfig
      reads this
    {
      TreeConfig(schemaExpandLevel, schemaHideReadOnly == Some("true"), schemaHideWriteOnly == Some("true"))
    }

    /** The rendered rows. */
    function Rows(): (r: Option<seq<Row>>)
      reads this
      ensures r.Some? ==> RowsOk(Config(), 0, 0, r.value)
    {
      RenderRows(Config(), data)
    }

    /** `connectedCallback`: default the expand level and the three flags. */
    method ConnectedCallback()
      modifies this
      ensures schemaExpandLevel == Some(NormalizeExpandLevel(old(schemaExpandLevel)))
      ensures schemaDescriptionExpanded == Some(NormalizeFlag(old(schemaDescriptionExpanded), "false"))
      ensures schemaHideReadOnly == Some(NormalizeFlag(old(schemaHideReadOnly), "true"))
      ensures schemaHideWriteOnly == Some(NormalizeFlag(old(schemaHideWriteOnly), "true"))
      ensures data == old(data)
      ensures Connected()
      ensures old(Connected()) ==> unchanged(this)
    {
      TrueFalseAccepted();
      if schemaExpandLevel.None? || schemaExpandLevel.value < 1 {
        schemaExpandLevel := Some(ExpandAll);
      }
      if schemaDescriptionExpanded.None? || !AcceptedFlag(schemaDescriptionExpanded.value) {
        schemaDescriptionExpanded := Some("false");
      }
      if schemaHideReadOnly.None? || !AcceptedFlag(schemaHideReadOnly.value) {
        schemaHideReadOnly := Some("true");
      }
      if schemaHideWriteOnly.None? || !AcceptedFlag(schemaHideWriteOnly.value) {
        schemaHideWriteOnly := Some("true");
      }
    }

    /** `toggleObjectExpand`: flip the enclosing row between expanded and collapsed and set the toggle's text. */
    method ToggleObjectExpand(target: Element, row: Element)
      modifies target, row
      ensures row.classList == Toggled(old(row.classList))
      ensures target.innerText == (if "expanded" in old(row.classList) then "+" else "-")
      ensures target != row ==> target.classList == old(target.classList) && row.innerText == old(row.innerText)
    {
      if "expanded" in row.classList {
        row.classList := row.classList + {"collapsed"};
        row.classList := row.classList - {"expanded"};
        target.innerText := "+";
      } else {
        row.classList := row.classList - {"collapsed"};
        row.classList := row.classList + {"expanded"};
        target.innerText := "-";
      }
    }

    /**
     * `handleAllEvents`: a click on an object toggle, on the multiline toggle, or on a
     * description expander; `row` is the enclosing table row, when there is one.
     */
    method HandleAllEvents(target: Element, row: Element?)
      requires "obj-toggle" in target.classList ==> row != null
      modifies this, target, row
      ensures "obj-toggle" in old(target.classList) ==>
        row.classList == Toggled(old(row.classList)) && unchanged(this)
        && target.innerText == (if "expanded" in old(row.classList) then "+" else "-")
        && (target != row ==> target.classList == old(target.classList) && row.innerText == old(row.innerText))
      ensures "obj-toggle" !in old(target.classList) && "schema-multiline-toggle" in old(target.classList) ==>
        schemaDescriptionExpanded == Some(FlipFlag(old(schemaDescriptionExpanded)))
        && unchanged(target) && (row != null ==> unchanged(row))
      ensures "obj-toggle" !in old(target.classList) && "schema-multiline-toggle" !in old(target.classList) ==>
        unchanged(this)
        && ("descr-expand-toggle" in old(target.classList) && row != null ==>
              row.classList == (if "expanded-descr" in old(row.classList) then old(row.classList) - {"expanded-descr"}
                                else old(row.classList) + {"expanded-descr"})
              && row.innerText == old(row.innerText) && (target != row ==> unchanged(target)))
        && (("descr-expand-toggle" !in old(target.classList) || row == null) ==> unchanged(target) && (row != null ==> unchanged(row)))
    {
      if "obj-toggle" in target.classList {
        ToggleObjectExpand(target, row);
      } else if "schema-multiline-toggle" in target.classList {
        schemaDescriptionExpanded := Some(FlipFlag(schemaDescriptionExpanded));
      } else if "descr-expand-toggle" in target.classList && row != null {
        if "expanded-descr" in row.classList {
          row.classList := row.classList - {"expanded-descr"};
        } else {
          row.classList := row.classList + {"expanded-descr"};
        }
      }
    }
  }
}
