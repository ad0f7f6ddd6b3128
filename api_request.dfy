/**
 * The request panel of one operation (`ApiRequest`): how query parameters pick their
 * serialisation settings, how the request-body media type and example are chosen, how a
 * response to "Try" is classified and shown, and how the object URL of a blob response
 * is created and released.
 */
module ApiRequest {
  import opened Wrappers
  import opened Strings
  import opened JsValues

  // ---------------------------------------------------------------------------------
  // Parameters (`inputParametersTemplate`)
  // ---------------------------------------------------------------------------------

  /**
   * A parameter object as the template sees it. `hasSchema` says whether
   * `getSchemaFromParam` found a declared schema, `hasTypeInfo` whether `getTypeInfo`
   * gave a truthy result for it, and `serializeStyle` is the media type that
   * `getSchemaFromParam` returns for a parameter described through `content`.
   */
  datatype Parameter = Parameter(
    name: string,
    location: string,
    style: Json,
    explode: Json,
    allowReserved: Json,
    hasSchema: bool,
    hasTypeInfo: bool,
    serializeStyle: Option<string>)

  /** The serialisation settings a listed parameter's row carries. */
  datatype ParamRow = ParamRow(name: string, style: string, explode: bool, allowReserved: bool)

  /** The text whose substrings a query parameter's `style` is tested against. */
  const DelimitedStyles: string := "form spaceDelimited pipeDelimited"

  /** `typeof v === 'boolean' ? v : d`. */
  function BoolOr(v: Json, d: bool): bool {
    if v.Bool? then v.b else d
  }

  /** The style of a query parameter: its own when the list contains it, else the media type, else `form`. */
  function QueryStyle(p: Parameter): string {
    if p.style.Str? && |p.style.s| > 0 && Contains(DelimitedStyles, p.style.s) then p.style.s
    else if p.serializeStyle.Some? && |p.serializeStyle.value| > 0 then p.serializeStyle.value
    else "form"
  }

  /** The settings of a parameter shown in the table of `paramType`; only query parameters override the defaults. */
  function Settings(p: Parameter, paramType: string): ParamRow {
    if paramType == "query" then
      ParamRow(p.name, QueryStyle(p), BoolOr(p.explode, true), BoolOr(p.allowReserved, false))
    else
      ParamRow(p.name, "form", true, false)
  }

  /** The parameter gets a row in the table of `paramType`. */
  predicate Listed(p: Parameter, paramType: string, schemeNames: seq<string>) {
    p.location == paramType && p.hasSchema && p.hasTypeInfo && p.name !in schemeNames
  }

  /** The rows of the table, in the order of the parameters. */
  function ParamRows(params: seq<Parameter>, paramType: string, schemeNames: seq<string>): seq<ParamRow> {
    if |params| == 0 then []
    else
      var last := params[|params| - 1];
      ParamRows(params[..|params| - 1], paramType, schemeNames)
        + (if Listed(last, paramType, schemeNames) then [Settings(last, paramType)] else [])
  }

  /**
   * The loop of `inputParametersTemplate`: parameters of another location are filtered
   * out, a parameter without a schema or type information is skipped, and a parameter
   * named like a security scheme gets no row. An absent parameter list gives no rows.
   */
  method InputParameterRows(parameters: Option<seq<Parameter>>, paramType: string, schemeNames: seq<string>)
    returns (rows: seq<ParamRow>)
    ensures rows == ParamRows(parameters.GetOr([]), paramType, schemeNames)
  {
    var params := parameters.GetOr([]);
    rows := [];
    var i := 0;
    while i < |params|
      invariant 0 <= i <= |params|
      invariant rows == ParamRows(params[..i], paramType, schemeNames)
    {
      var p := params[i];
      assert params[..i + 1][..i] == params[..i];
      if p.location == paramType && p.hasSchema && p.hasTypeInfo {
        var settings := Settings(p, paramType);
        if p.name !in schemeNames {
          rows := rows + [settings];
        }
      }
      i := i + 1;
    }
    assert params[..|params|] == params;
  }

  /** Every row belongs to a listed parameter, in order, and every listed parameter has its row. */
  lemma {:induction false} ParamRowsExactlyListed(params: seq<Parameter>, paramType: string, schemeNames: seq<string>)
    ensures |ParamRows(params, paramType, schemeNames)| <= |params|
    ensures forall r :: r in ParamRows(params, paramType, schemeNames) ==>
      exists k :: 0 <= k < |params| && Listed(params[k], paramType, schemeNames) && r == Settings(params[k], paramType)
    ensures forall k :: 0 <= k < |params| && Listed(params[k], paramType, schemeNames) ==>
      Settings(params[k], paramType) in ParamRows(params, paramType, schemeNames)
  {
    if |params| > 0 {
      var init := params[..|params| - 1];
      ParamRowsExactlyListed(init, paramType, schemeNames);
      forall k | 0 <= k < |init| ensures init[k] == params[k] {
      }
    }
  }

  /** No row is named like a security scheme, and outside the query table every row has the defaults. */
  lemma RowsOutsideQueryHaveDefaults(params: seq<Parameter>, paramType: string, schemeNames: seq<string>)
    ensures forall r :: r in ParamRows(params, paramType, schemeNames) ==> r.name !in schemeNames
    ensures paramType != "query" ==> forall r :: r in ParamRows(params, paramType, schemeNames) ==>
      r.style == "form" && r.explode && !r.allowReserved
  {
    ParamRowsExactlyListed(params, paramType, schemeNames);
  }

  /** `form` is in the list. */
  lemma FormListed()
    ensures Contains(DelimitedStyles, "form")
  {
    assert DelimitedStyles == "form" + " spaceDelimited pipeDelimited";
    ContainsIff(DelimitedStyles, "form", 0);
  }

  /** `spaceDelimited` is in the list. */
  lemma SpaceDelimitedListed()
    ensures Contains(DelimitedStyles, "spaceDelimited")
  {
    assert DelimitedStyles == "form spaceDelimited" + " pipeDelimited";
    assert "form spaceDelimited" == "form " + "spaceDelimited";
    ContainsIff(DelimitedStyles, "spaceDelimited", 5);
  }

  /** `pipeDelimited` is in the list. */
  lemma PipeDelimitedListed()
    ensures Contains(DelimitedStyles, "pipeDelimited")
  {
    assert DelimitedStyles[20..33] == "pipeDelimited" by {
      assert DelimitedStyles == "form spaceDelimited " + "pipeDelimited";
    }
    ContainsIff(DelimitedStyles, "pipeDelimited", 20);
  }

  /** The three styles of the list are adopted by a query parameter. */
  lemma DelimitedStyleAdopted(p: Parameter, s: string)
    requires s == "form" || s == "spaceDelimited" || s == "pipeDelimited"
    requires p.style == Str(s)
    ensures Settings(p, "query").style == s
  {
    FormListed();
    SpaceDelimitedListed();
    PipeDelimitedListed();
  }

  /** The test is a substring test: a fragment of the list such as `Delimited` is adopted too. */
  lemma StyleFragmentAdopted(p: Parameter)
    requires p.style == Str("Delimited")
    ensures Settings(p, "query").style == "Delimited"
  {
    assert DelimitedStyles == "form space" + "Delimited" + " pipeDelimited";
    ContainsIff(DelimitedStyles, "Delimited", 10);
  }

  /** A style holding a character that the list lacks (as `deepObject` holds `b`) falls back to the media type or `form`. */
  lemma ForeignStyleFallsBack(p: Parameter, k: nat)
    requires p.style.Str? && k < |p.style.s|
    requires forall i :: 0 <= i < |DelimitedStyles| ==> DelimitedStyles[i] != p.style.s[k]
    ensures Settings(p, "query").style ==
      if p.serializeStyle.Some? && |p.serializeStyle.value| > 0 then p.serializeStyle.value else "form"
  {
    AbsentCharNotContained(DelimitedStyles, p.style.s, k);
  }

  /** `deepObject` is not adopted. */
  lemma DeepObjectNotAdopted(p: Parameter)
    requires p.style == Str("deepObject") && p.serializeStyle == None
    ensures Settings(p, "query").style == "form"
  {
    ForeignStyleFallsBack(p, 5);
  }

  /** `explode` and `allowReserved` are taken only when they are booleans. */
  lemma NonBooleanFlagsIgnored(p: Parameter)
    requires !p.explode.Bool? && !p.allowReserved.Bool?
    ensures Settings(p, "query").explode && !Settings(p, "query").allowReserved
  {
  }

  // ---------------------------------------------------------------------------------
  // Request body (`requestBodyTemplate`, `onMimeTypeChange`)
  // ---------------------------------------------------------------------------------

  /** The keys of a list of properties. */
  function Keys(fields: seq<Field>): (keys: seq<string>)
    ensures |keys| == |fields|
    ensures forall i :: 0 <= i < |fields| ==> keys[i] == fields[i].key
  {
    seq(|fields|, i requires 0 <= i < |fields| => fields[i].key)
  }

  /** The media types a request body offers, in `for…in` order; none when the body is falsy or has no keys. */
  function BodyTypes(requestBody: Json): seq<string> {
    if !Truthy(requestBody) || KeyCount(requestBody) == 0 then []
    else Keys(Entries(Prop(requestBody, "content")))
  }

  /** The first non-empty key, or `''` when there is none. */
  function FirstNonEmpty(keys: seq<string>): (r: string)
    ensures r == "" <==> forall k :: 0 <= k < |keys| ==> keys[k] == ""
    ensures r != "" ==> exists k :: 0 <= k < |keys| && keys[k] == r && forall j :: 0 <= j < k ==> keys[j] == ""
  {
    if |keys| == 0 then ""
    else if keys[0] != "" then keys[0]
    else
      var r := FirstNonEmpty(keys[1..]);
      assert forall k :: 1 <= k < |keys| ==> keys[k] == keys[1..][k - 1];
      r
  }

  /** The first non-empty key of a prefix one longer. */
  lemma {:induction false} FirstNonEmptyExtend(keys: seq<string>, i: nat)
    requires i < |keys|
    ensures FirstNonEmpty(keys[..i + 1]) == if FirstNonEmpty(keys[..i]) != "" then FirstNonEmpty(keys[..i]) else keys[i]
  {
    if i > 0 && keys[0] == "" {
      FirstNonEmptyExtend(keys[1..], i - 1);
      assert keys[..i + 1][1..] == keys[1..][..i];
      assert keys[..i][1..] == keys[1..][..i - 1];
    }
  }

  /** The media type selected after the first loop: a selection is kept; an empty one takes the first non-empty type. */
  function ChosenType(selected: string, types: seq<string>): string {
    if selected != "" then selected else FirstNonEmpty(types)
  }

  /** Examples are generated for JSON, XML, text and JOSE media types. */
  predicate GeneratesExamples(mimeType: string) {
    Contains(mimeType, "json") || Contains(mimeType, "xml") || Contains(mimeType, "text") || Contains(mimeType, "jose")
  }

  /** The first generated example id, or `''`. */
  function FirstId(ids: seq<string>): string {
    if |ids| > 0 then ids[0] else ""
  }

  /** The example selected after the second loop: an empty selection takes the first id when the selected type is offered and generates examples. */
  function ChosenExample(selected: string, example: string, types: seq<string>, ids: seq<string>): string {
    if example == "" && GeneratesExamples(selected) && selected in types then FirstId(ids) else example
  }

  /** Rendering a second time with the same body and examples changes no selection. */
  lemma RenderTwiceStable(selected: string, example: string, types: seq<string>, ids: seq<string>)
    ensures ChosenType(ChosenType(selected, types), types) == ChosenType(selected, types)
    ensures var s := ChosenType(selected, types);
      ChosenExample(s, ChosenExample(s, example, types, ids), types, ids) == ChosenExample(s, example, types, ids)
  {
  }

  /** After the media type changes to an offered type that generates examples, the next render selects its first example. */
  lemma MimeChangeSelectsFirstExample(mimeType: string, types: seq<string>, ids: seq<string>)
    requires mimeType != "" && mimeType in types && GeneratesExamples(mimeType)
    ensures ChosenType(mimeType, types) == mimeType
    ensures ChosenExample(ChosenType(mimeType, types), "", types, ids) == FirstId(ids)
  {
  }

  /** `multipart/form-data` generates no example, so its example selection stays empty. */
  lemma FormDataHasNoExample(types: seq<string>, ids: seq<string>)
    ensures ChosenExample("multipart/form-data", "", types, ids) == ""
  {
    FormDataGeneratesNoExamples();
  }

  /** `multipart/form-data` holds none of `json`, `xml`, `text`, `jose`. */
  lemma FormDataGeneratesNoExamples()
    ensures !GeneratesExamples("multipart/form-data")
  {
    var t := "multipart/form-data";
    FormDataLacksJX();
    AbsentCharNotContained(t, "json", 0);
    AbsentCharNotContained(t, "xml", 0);
    AbsentCharNotContained(t, "text", 2);
    AbsentCharNotContained(t, "jose", 0);
  }

  /** `multipart/form-data` holds neither a `j` nor an `x`. */
  lemma FormDataLacksJX()
    ensures Lacks("multipart/form-data", 'j') && Lacks("multipart/form-data", 'x')
  {
    var t := "multipart/form-data";
    assert forall i :: 0 <= i < |t| ==> t[i] != 'j' && t[i] != 'x';
  }

  /**
   * The `for…in` loop of `requestBodyTemplate`: each media type is collected, and an
   * empty selection takes the media type being visited.
   */
  method CollectBodyTypes(content: seq<Field>, initial: string) returns (types: seq<string>, selected: string)
    ensures types == Keys(content)
    ensures selected == ChosenType(initial, types)
  {
    ghost var keys := Keys(content);
    types := [];
    selected := initial;
    var i := 0;
    while i < |content|
      invariant 0 <= i <= |content|
      invariant types == keys[..i]
      invariant selected == ChosenType(initial, keys[..i])
    {
      FirstNonEmptyExtend(keys, i);
      assert keys[..i + 1] == keys[..i] + [content[i].key];
      types := types + [content[i].key];
      if selected == "" {
        selected := content[i].key;
      }
      i := i + 1;
    }
    assert keys[..|content|] == keys;
  }

  /**
   * The `forEach` loop of `requestBodyTemplate`: at the selected media type, when it
   * generates examples, an empty example selection takes the first example id.
   */
  method SelectExample(selected: string, initial: string, types: seq<string>, ids: seq<string>) returns (example: string)
    ensures example == ChosenExample(selected, initial, types, ids)
  {
    example := initial;
    var j := 0;
    while j < |types|
      invariant 0 <= j <= |types|
      invariant example == ChosenExample(selected, initial, types[..j], ids)
    {
      assert types[..j + 1] == types[..j] + [types[j]];
      if GeneratesExamples(selected) && types[j] == selected {
        if example == "" {
          example := FirstId(ids);
        }
      }
      j := j + 1;
    }
    assert types[..|types|] == types;
  }

  /** The `headers.forEach` loop of `onTryClick`: one line per header, appended in order. */
  method HeaderText(headers: seq<Header>) returns (text: string)
    ensures text == HeaderLines(headers)
  {
    text := "";
    var k := 0;
    while k < |headers|
      invariant 0 <= k <= |headers|
      invariant text == HeaderLines(headers[..k])
    {
      assert headers[..k + 1][..k] == headers[..k];
      text := text + HeaderLine(headers[k]);
      k := k + 1;
    }
    assert headers[..|headers|] == headers;
  }

  // ---------------------------------------------------------------------------------
  // Responses (`onTryClick`)
  // ---------------------------------------------------------------------------------

  /** One response header, as `headers.forEach` visits it. */
  datatype Header = Header(name: string, value: string)

  /**
   * What `fetch` and the browser give for one response. `contentType` and
   * `contentDisposition` are what `headers.get` returns; `body` is the body as text.
   * Decoding, JSON parsing and printing and XML formatting are not modelled: their
   * results are fields — `charsetText` is the body decoded with the declared charset,
   * `charsetJson` its pretty-printed JSON (`None` when it does not parse), `json` the
   * pretty-printed JSON of `response.json()` (`None` when that throws, with the message
   * `jsonError`), `xmlText` the formatted XML, and `filenameError` the message of the
   * `TypeError` thrown when a content disposition has no `filename=`.
   */
  datatype Response = Response(
    status: nat,
    statusText: string,
    url: string,
    headers: seq<Header>,
    contentType: Option<string>,
    contentDisposition: Option<string>,
    body: string,
    charsetText: string,
    charsetJson: Option<string>,
    json: Option<string>,
    jsonError: string,
    xmlText: string,
    filenameError: string)

  /** How the request ended: a response, an abort through the request's controller, or any other failure with its message. */
  datatype FetchOutcome = Received(response: Response) | Aborted | Failed(message: string)

  /** How a response body is shown, in the order the source tests for it. */
  datatype BodyKind = EmptyBody | UntypedBody | NdjsonBody | JsonBody | DownloadBody | ViewBody | TextBody {
    /** The kinds reached only through a non-empty content type. */
    predicate Typed() {
      this != EmptyBody && this != UntypedBody
    }
    predicate IsBlob() {
      this == DownloadBody || this == ViewBody
    }
  }

  /** `/^font\/|tar$|zip$|7z$|rtf$|msword$|excel$|\/pdf$|\/octet-stream$|^application\/vnd\./`. */
  predicate DownloadType(ct: string) {
    StartsWith(ct, "font/") || EndsWith(ct, "tar") || EndsWith(ct, "zip") || EndsWith(ct, "7z")
    || EndsWith(ct, "rtf") || EndsWith(ct, "msword") || EndsWith(ct, "excel") || EndsWith(ct, "/pdf")
    || EndsWith(ct, "/octet-stream") || StartsWith(ct, "application/vnd.")
  }

  /** `/^audio|^image|^video/`. */
  predicate ViewType(ct: string) {
    StartsWith(ct, "audio") || StartsWith(ct, "image") || StartsWith(ct, "video")
  }

  /** `/charset=[^"']+/`: `charset=` followed by a character that is not a quote. */
  predicate DeclaresCharset(ct: string) {
    exists i :: 0 <= i && i + 8 < |ct| && OccursAt(ct, "charset=", i) && ct[i + 8] != '"' && ct[i + 8] != '\''
  }

  /** The NDJSON type holds `json`. */
  lemma NdjsonMentionsJson()
    ensures Contains("application/x-ndjson", "json")
  {
    var ct := "application/x-ndjson";
    assert ct[16..20] == "json";
    ContainsIff(ct, "json", 16);
  }

  /** The branch of `onTryClick` that shows the body. */
  function Classify(body: string, contentType: Option<string>): (k: BodyKind)
    ensures k.Typed() <==> |body| > 0 && contentType.Some? && |contentType.value| > 0
    ensures k == EmptyBody <==> |body| == 0
    ensures k.IsBlob() ==> !Contains(contentType.value, "json")
    ensures k == JsonBody ==> Contains(contentType.value, "json")
    ensures k.Typed() ==> var ct := contentType.value;
      && (k == NdjsonBody <==> ct == "application/x-ndjson")
      && (k == JsonBody <==> ct != "application/x-ndjson" && Contains(ct, "json"))
      && (k == DownloadBody <==> !Contains(ct, "json") && DownloadType(ct))
      && (k == ViewBody <==> !Contains(ct, "json") && !DownloadType(ct) && ViewType(ct))
      && (k == TextBody <==> !Contains(ct, "json") && !DownloadType(ct) && !ViewType(ct))
  {
    if |body| == 0 then EmptyBody
    else if contentType.None? || |contentType.value| == 0 then UntypedBody
    else
      var ct := contentType.value;
      if ct == "application/x-ndjson" then NdjsonMentionsJson(); NdjsonBody
      else if Contains(ct, "json") then JsonBody
      else if DownloadType(ct) then DownloadBody
      else if ViewType(ct) then ViewBody
      else TextBody
  }

  /** A vendor type with a JSON suffix is parsed as JSON, although `^application\/vnd\.` would make it a download. */
  lemma VendorJsonIsJson(body: string)
    requires |body| > 0
    ensures DownloadType("application/vnd.api+json")
    ensures Classify(body, Some("application/vnd.api+json")) == JsonBody
  {
    var ct := "application/vnd.api+json";
    assert ct[..|"application/vnd."|] == "application/vnd.";
    assert OccursAt(ct, "json", 20);
    ContainsIff(ct, "json", 20);
  }

  /** `application/zip; name=a` matches none of the download patterns: its `zip` is not at the end. */
  lemma ArchiveWithParameterNotDownload()
    ensures !DownloadType("application/zip; name=a")
  {
    var ct := "application/zip; name=a";
    DiffersAt(ct, "font/", 0);
    DiffersAt(ct, "application/vnd.", 12);
    DiffersAtEnd(ct, "tar", 0);
    DiffersAtEnd(ct, "zip", 0);
    DiffersAtEnd(ct, "7z", 0);
    DiffersAtEnd(ct, "rtf", 0);
    DiffersAtEnd(ct, "msword", 0);
    DiffersAtEnd(ct, "excel", 0);
    DiffersAtEnd(ct, "/pdf", 0);
    DiffersAtEnd(ct, "/octet-stream", 0);
  }

  /** `$` anchors at the end of the whole header: an archive type with a parameter is shown as text. */
  lemma ArchiveWithParameterIsText(body: string)
    requires |body| > 0
    ensures Classify(body, Some("application/zip; name=a")) == TextBody
  {
    var ct := "application/zip; name=a";
    assert !Contains(ct, "json") by {
      assert forall i :: 0 <= i < |ct| ==> ct[i] != 'j';
      AbsentCharNotContained(ct, "json", 0);
    }
    assert !DownloadType(ct) by {
      ArchiveWithParameterNotDownload();
    }
    ArchiveWithParameterNotView();
  }

  /** Nor does it match the media patterns. */
  lemma ArchiveWithParameterNotView()
    ensures !ViewType("application/zip; name=a")
  {
    var ct := "application/zip; name=a";
    DiffersAt(ct, "audio", 1);
    DiffersAt(ct, "image", 0);
    DiffersAt(ct, "video", 0);
  }

  /** `filename=`. */
  const FileNameMark: string := "filename="

  /** A character that is neither a double nor a single quote. */
  predicate NotQuote(c: char) {
    c != '"' && c != '\''
  }

  /** `s.replace(/"|'/g, '')`. */
  function Unquote(s: string): (r: string)
    ensures forall i :: 0 <= i < |r| ==> r[i] != '"' && r[i] != '\''
  {
    Filter(s, NotQuote)
  }

  /** Unquoting removes only quotes: a text without quotes is returned as it is. */
  lemma UnquoteKeepsPlain(s: string)
    requires forall i :: 0 <= i < |s| ==> NotQuote(s[i])
    ensures Unquote(s) == s
  {
    FilterKeepsAll(s, NotQuote);
  }

  /** A name wrapped in double or in single quotes is unwrapped to the name itself. */
  lemma UnquoteUnwraps(name: string)
    requires forall i :: 0 <= i < |name| ==> NotQuote(name[i])
    ensures Unquote("\"" + name + "\"") == name
    ensures Unquote("'" + name + "'") == name
  {
    UnquoteKeepsPlain(name);
    assert Filter("\"", NotQuote) == "";
    assert Filter("'", NotQuote) == "";
    FilterConcat("\"", name, NotQuote);
    FilterConcat("\"" + name, "\"", NotQuote);
    FilterConcat("'", name, NotQuote);
    FilterConcat("'" + name, "'", NotQuote);
  }

  /**
   * The file name shown for a blob: `'filename'` without a content disposition, else the
   * text after its first `filename=` up to a second one, unquoted; `None` when the header
   * has no `filename=`, where the source throws a `TypeError`.
   */
  function DispositionFileName(header: Option<string>): (r: Option<string>)
    ensures header.None? || header == Some("") ==> r == Some("filename")
    ensures r.Some? ==> forall i :: 0 <= i < |r.value| ==> r.value[i] != '"' && r.value[i] != '\''
  {
    if header.None? || |header.value| == 0 then Some("filename")
    else
      var parts := Split(header.value, FileNameMark);
      if |parts| < 2 then None else Some(Unquote(parts[1]))
  }

  /** A pattern that does not occur has no index. */
  lemma AbsentHasNoIndex(s: string, p: string)
    requires !Contains(s, p)
    ensures IndexOf(s, p) == None
  {
    match IndexOf(s, p)
    case None =>
    case Some(i) => ContainsIff(s, p, i);
  }

  /**
   * When the mark after `lead` is the first `filename=` of the header, the name is the
   * text after it up to the next `filename=`, unquoted; the whole rest when there is none.
   */
  lemma FileNameAfterMark(lead: string, value: string)
    requires IndexOf(lead + FileNameMark, FileNameMark) == Some(|lead|)
    ensures DispositionFileName(Some(lead + FileNameMark + value)) == Some(Unquote(Split(value, FileNameMark)[0]))
    ensures !Contains(value, FileNameMark) ==> DispositionFileName(Some(lead + FileNameMark + value)) == Some(Unquote(value))
  {
    var h := lead + FileNameMark + value;
    FirstMatchKept(lead + FileNameMark, value, FileNameMark, |lead|);
    assert h[..|lead|] == lead;
    assert h[|lead| + |FileNameMark|..] == value;
    assert Split(h, FileNameMark) == [lead] + Split(value, FileNameMark);
    if !Contains(value, FileNameMark) {
      AbsentHasNoIndex(value, FileNameMark);
    }
  }

  /** A lead without the letter `f` holds no earlier `filename=`. */
  lemma MarkFirstAfterPlainLead(lead: string)
    requires Lacks(lead, 'f')
    ensures IndexOf(lead + FileNameMark, FileNameMark) == Some(|lead|)
  {
    assert FileNameMark[0] == 'f';
    FreePrefixThenPattern(lead, FileNameMark, FileNameMark);
  }

  /** A quoted file name after the first mark is the name the blob downloads as. */
  lemma QuotedFileName(lead: string, name: string)
    requires IndexOf(lead + FileNameMark, FileNameMark) == Some(|lead|) && Lacks(name, '=')
    requires forall i :: 0 <= i < |name| ==> NotQuote(name[i])
    ensures DispositionFileName(Some(lead + FileNameMark + ("\"" + name + "\""))) == Some(name)
  {
    QuotedNameLacksMark(name);
    FileNameAfterMark(lead, "\"" + name + "\"");
    UnquoteUnwraps(name);
  }

  /** `attachment; filename="report.pdf"` downloads as `report.pdf`. */
  lemma ReportPdfFileName()
    ensures DispositionFileName(Some("attachment; " + FileNameMark + ("\"" + "report.pdf" + "\""))) == Some("report.pdf")
  {
    MarkFirstAfterPlainLead("attachment; ");
    QuotedFileName("attachment; ", "report.pdf");
  }

  /** An extended `filename*=` parameter before `filename=` is no match: the plain parameter names the file. */
  lemma ExtendedParameterSkipped()
    ensures DispositionFileName(Some("attachment; " + "filename*" + "=UTF-8''a.txt; " + FileNameMark + ("\"" + "a.txt" + "\"")))
      == Some("a.txt")
  {
    ExtendedMarkSkipped("attachment; ", "=UTF-8''a.txt; ");
    QuotedFileName("attachment; " + "filename*" + "=UTF-8''a.txt; ", "a.txt");
  }

  /** `filename*` is not `filename=`: between texts without `f`, the first `filename=` is the one after them. */
  lemma ExtendedMarkSkipped(a: string, b: string)
    requires Lacks(a, 'f') && Lacks(b, 'f')
    ensures IndexOf(a + "filename*" + b + FileNameMark, FileNameMark) == Some(|a + "filename*" + b|)
  {
    var ext := "filename*";
    var lead := a + ext + b;
    var s := lead + FileNameMark;
    assert s[|lead|..|lead| + |FileNameMark|] == FileNameMark;
    assert FileNameMark[0] == 'f' && FileNameMark[8] == '=';
    assert ext[8] == '*' && forall k :: 1 <= k < |ext| ==> ext[k] != 'f';
    forall j | 0 <= j < |lead| ensures !OccursAt(s, FileNameMark, j) {
      if j + |FileNameMark| <= |s| {
        var w := s[j..j + |FileNameMark|];
        if j < |a| {
          assert w[0] == a[j] != FileNameMark[0];
        } else if j == |a| {
          assert w[8] == ext[8] != FileNameMark[8];
        } else if j < |a| + |ext| {
          assert w[0] == ext[j - |a|] != FileNameMark[0];
        } else {
          assert w[0] == b[j - |a| - |ext|] != FileNameMark[0];
        }
      }
    }
    FirstOccurrence(s, FileNameMark, |lead|);
  }

  /** A quoted name without `=` holds no second `filename=`. */
  lemma QuotedNameLacksMark(name: string)
    requires Lacks(name, '=')
    ensures !Contains("\"" + name + "\"", FileNameMark)
  {
    var value := "\"" + name + "\"";
    assert FileNameMark[8] == '=';
    assert forall i :: 0 <= i < |value| ==> value[i] != FileNameMark[8];
    AbsentCharNotContained(value, FileNameMark, 8);
  }

  /** A content disposition without `filename=` makes the source throw. */
  lemma MissingFileNameThrows(header: string)
    requires |header| > 0 && !Contains(header, FileNameMark)
    ensures DispositionFileName(Some(header)) == None
  {
    AbsentHasNoIndex(header, FileNameMark);
  }

  /** One line of the headers text. */
  function HeaderLine(h: Header): string {
    h.name + ": " + h.value + "\n"
  }

  /** The headers text, one line per header in `forEach` order. */
  function HeaderLines(headers: seq<Header>): string {
    if |headers| == 0 then ""
    else HeaderLines(headers[..|headers| - 1]) + HeaderLine(headers[|headers| - 1])
  }

  /** A pattern occurring in `a` occurs in `a + b`. */
  lemma ContainsInLonger(a: string, b: string, p: string)
    requires Contains(a, p)
    ensures Contains(a + b, p)
  {
    var i := IndexOf(a, p).value;
    ContainsIff(a, p, i);
    assert (a + b)[i..i + |p|] == a[i..i + |p|];
    ContainsIff(a + b, p, i);
  }

  /** A text ending in `b` contains `b`. */
  lemma ContainsAtEnd(a: string, b: string)
    ensures Contains(a + b, b)
  {
    assert (a + b)[|a|..|a| + |b|] == b;
    ContainsIff(a + b, b, |a|);
  }

  /** Every header appears on its own line of the headers text. */
  lemma {:induction false} EveryHeaderShown(headers: seq<Header>)
    ensures forall k :: 0 <= k < |headers| ==> Contains(HeaderLines(headers), HeaderLine(headers[k]))
  {
    if |headers| > 0 {
      var init := headers[..|headers| - 1];
      var last := HeaderLine(headers[|headers| - 1]);
      EveryHeaderShown(init);
      assert HeaderLines(headers) == HeaderLines(init) + last;
      forall k | 0 <= k < |headers|
        ensures Contains(HeaderLines(init) + last, HeaderLine(headers[k]))
      {
        if k < |init| {
          assert init[k] == headers[k];
          ContainsInLonger(HeaderLines(init), last, HeaderLine(headers[k]));
        } else {
          ContainsAtEnd(HeaderLines(init), last);
        }
      }
    }
  }

  /** `statusText:status`, or the status alone when there is no status text. */
  function StatusLine(r: Response): string {
    if |r.statusText| > 0 then r.statusText + ":" + NatToString(r.status) else NatToString(r.status)
  }

  const AbortedText: string := "Request Aborted"
  const NetworkSuffix: string := " (CORS or Network Issue)"

  /** The response part of the panel. */
  datatype ResponsePanel = ResponsePanel(
    message: string,
    status: string,
    headers: string,
    text: string,
    url: string,
    isBlob: bool,
    blobType: string,
    disposition: string,
    blobUrl: string)

  /** The panel as `clearResponseData` leaves it. */
  const ClearedPanel: ResponsePanel := ResponsePanel("", "success", "", "", "", false, "", "", "")

  /** What `onTryClick` resets before sending: everything but the blob type. */
  function ResetForTry(v: ResponsePanel): ResponsePanel {
    ResponsePanel("", "success", "", "", "", false, v.blobType, "", "")
  }

  /** A blob response: the file name from the content disposition, then the object URL. */
  function BlobPanel(p: ResponsePanel, r: Response, objectUrl: string): ResponsePanel {
    match DispositionFileName(r.contentDisposition)
    case None => p.(message := r.filenameError + NetworkSuffix)
    case Some(name) => p.(disposition := name, blobUrl := objectUrl)
  }

  /** The body part of a received response. */
  function ReceivedPanel(p: ResponsePanel, r: Response, objectUrl: string): ResponsePanel {
    var kind := Classify(r.body, r.contentType);
    match kind
    case EmptyBody => p.(text := "")
    case UntypedBody => p.(text := r.body)
    case NdjsonBody => p.(text := r.body)
    case JsonBody =>
      if DeclaresCharset(r.contentType.value) then p.(text := r.charsetJson.GetOr(r.charsetText))
      else if r.json.Some? then p.(text := r.json.value)
      else p.(message := r.jsonError + NetworkSuffix)
    case DownloadBody => BlobPanel(p.(isBlob := true, blobType := "download"), r, objectUrl)
    case ViewBody => BlobPanel(p.(isBlob := true, blobType := "view"), r, objectUrl)
    case TextBody => p.(text := if Contains(r.contentType.value, "xml") then r.xmlText else r.body)
  }

  /** The panel after a try; `objectUrl` is the URL `URL.createObjectURL` gives for a blob. */
  function TryPanel(v: ResponsePanel, outcome: FetchOutcome, objectUrl: string): ResponsePanel {
    var base := ResetForTry(v);
    match outcome
    case Aborted => base.(message := AbortedText, text := AbortedText)
    case Failed(m) => base.(message := m + NetworkSuffix)
    case Received(r) =>
      ReceivedPanel(base.(message := StatusLine(r), url := r.url, headers := HeaderLines(r.headers)), r, objectUrl)
  }

  /** The status shown is `success` after every try, whatever the response status. */
  lemma TryStatusAlwaysSuccess(v: ResponsePanel, outcome: FetchOutcome, objectUrl: string)
    ensures TryPanel(v, outcome, objectUrl).status == "success"
  {
  }

  /** A try shows nothing of the previous response: the result depends on the old panel only through its blob type. */
  lemma TryForgetsPreviousResponse(v: ResponsePanel, w: ResponsePanel, outcome: FetchOutcome, objectUrl: string)
    requires v.blobType == w.blobType
    ensures TryPanel(v, outcome, objectUrl) == TryPanel(w, outcome, objectUrl)
  {
  }

  /** A non-blob response keeps the previous blob type (the source does not reset it). */
  lemma NonBlobKeepsBlobType(v: ResponsePanel, r: Response, objectUrl: string)
    requires !Classify(r.body, r.contentType).IsBlob()
    ensures !TryPanel(v, Received(r), objectUrl).isBlob
    ensures TryPanel(v, Received(r), objectUrl).blobType == v.blobType
  {
  }

  /** An object URL is shown exactly for a blob response whose file name could be read, and then no text is. */
  lemma BlobUrlExactlyForBlobs(v: ResponsePanel, outcome: FetchOutcome, objectUrl: string)
    requires objectUrl != ""
    ensures var p := TryPanel(v, outcome, objectUrl);
      p.blobUrl != "" <==>
        outcome.Received? && Classify(outcome.response.body, outcome.response.contentType).IsBlob()
        && DispositionFileName(outcome.response.contentDisposition).Some?
    ensures var p := TryPanel(v, outcome, objectUrl);
      p.blobUrl != "" ==>
        (p.blobUrl == objectUrl && p.isBlob && p.text == ""
         && p.disposition == DispositionFileName(outcome.response.contentDisposition).value)
  {
  }

  /** A response whose content type mentions `json` is never a blob. */
  lemma JsonNeverBlob(v: ResponsePanel, r: Response, objectUrl: string)
    requires r.contentType.Some? && Contains(r.contentType.value, "json")
    ensures !TryPanel(v, Received(r), objectUrl).isBlob
    ensures TryPanel(v, Received(r), objectUrl).blobUrl == ""
  {
  }

  /** An aborted request shows `Request Aborted` as message and text, and nothing else. */
  lemma AbortedPanel(v: ResponsePanel, objectUrl: string)
    ensures TryPanel(v, Aborted, objectUrl)
      == ClearedPanel.(message := AbortedText, text := AbortedText, blobType := v.blobType)
  {
  }

  /** A failed request shows its error message followed by the network hint, and no text. */
  lemma FailureShowsNetworkHint(v: ResponsePanel, message: string, objectUrl: string)
    ensures EndsWith(TryPanel(v, Failed(message), objectUrl).message, NetworkSuffix)
    ensures TryPanel(v, Failed(message), objectUrl).text == ""
  {
    var m := message + NetworkSuffix;
    assert m[|m| - |NetworkSuffix|..] == NetworkSuffix;
  }

  /** `application/json` declares no charset. */
  lemma PlainJsonHasNoCharset()
    ensures !DeclaresCharset("application/json")
  {
    var ct := "application/json";
    assert forall i :: 0 <= i < |ct| ==> ct[i] != 'h';
    AbsentCharNotContained(ct, "charset=", 1);
    forall i | 0 <= i && i + 8 < |ct| ensures !OccursAt(ct, "charset=", i) {
      ContainsIff(ct, "charset=", i);
    }
  }

  /** A JSON response that `response.json()` cannot parse shows the parser's message followed by the network hint, and no text. */
  lemma UnparsableJsonShowsNetworkHint(v: ResponsePanel, r: Response, objectUrl: string)
    requires r.contentType == Some("application/json") && |r.body| > 0 && r.json == None
    ensures EndsWith(TryPanel(v, Received(r), objectUrl).message, NetworkSuffix)
    ensures TryPanel(v, Received(r), objectUrl).message == r.jsonError + NetworkSuffix
    ensures TryPanel(v, Received(r), objectUrl).text == ""
    ensures TryPanel(v, Received(r), objectUrl).url == r.url
    ensures TryPanel(v, Received(r), objectUrl).headers == HeaderLines(r.headers)
    ensures !TryPanel(v, Received(r), objectUrl).isBlob
  {
    var ct := "application/json";
    assert ct[12..16] == "json";
    ContainsIff(ct, "json", 12);
    PlainJsonHasNoCharset();
    var m := r.jsonError + NetworkSuffix;
    assert m[|m| - |NetworkSuffix|..] == NetworkSuffix;
  }

  // ---------------------------------------------------------------------------------
  // The element
  // ---------------------------------------------------------------------------------

  /** No element occurs twice. */
  ghost predicate NoDuplicates(s: seq<string>) {
    forall i, j :: 0 <= i < j < |s| ==> s[i] != s[j]
  }

  /**
   * Object URLs are released once and never leak: every URL created is the one shown
   * or has been revoked, none is revoked twice, and the one shown is still live.
   */
  ghost predicate UrlsAccounted(created: seq<string>, revoked: seq<string>, shown: string) {
    "" !in created
    && NoDuplicates(revoked)
    && (forall u :: u in revoked ==> u in created)
    && (forall u :: u in created ==> u == shown || u in revoked)
    && (shown != "" ==> shown in created && shown !in revoked)
  }

  /**
   * The state of the request panel the operations above change. `created` and
   * `revoked` record the object URLs handed out by `URL.createObjectURL` and those
   * passed to `URL.revokeObjectURL`.
   */
  class ApiRequestElement {
    var responseMessage: string
    var responseStatus: string
    var responseHeaders: string
    var responseText: string
    var responseUrl: string
    var responseIsBlob: bool
    var responseBlobType: string
    var respContentDisposition: string
    var responseBlobUrl: string
    var codeExample: string
    var selectedRequestBodyType: string
    var selectedRequestBodyExample: string
    ghost var created: seq<string>
    ghost var revoked: seq<string>

    /** The response part of the state. */
    function Panel(): ResponsePanel
      reads this
    {
      ResponsePanel(responseMessage, responseStatus, responseHeaders, responseText, responseUrl,
        responseIsBlob, responseBlobType, respContentDisposition, responseBlobUrl)
    }

    /** The object URLs of this element are accounted for. */
    ghost predicate Valid()
      reads this
    {
      UrlsAccounted(created, revoked, responseBlobUrl)
    }

    /** The URLs that releasing the shown blob URL revokes. */
    static function Released(blobUrl: string): seq<string> {
      if blobUrl != "" then [blobUrl] else []
    }

    /** The constructor's initial state; the blob fields start `undefined`, shown here as their falsy values. */
    constructor()
      ensures Valid()
      ensures Panel() == ClearedPanel
      ensures codeExample == "" && selectedRequestBodyType == "" && selectedRequestBodyExample == ""
      ensures created == [] && revoked == []
    {
      responseMessage := "";
      responseStatus := "success";
      responseHeaders := "";
      responseText := "";
      responseUrl := "";
      codeExample := "";
      selectedRequestBodyType := "";
      selectedRequestBodyExample := "";
      responseIsBlob := false;
      responseBlobType := "";
      respContentDisposition := "";
      responseBlobUrl := "";
      created := [];
      revoked := [];
    }

    /** `if (this.responseBlobUrl) { URL.revokeObjectURL(…); this.responseBlobUrl = ''; }` */
    method ReleaseBlobUrl()
      requires Valid()
      modifies this`responseBlobUrl, this`revoked
      ensures Valid() && responseBlobUrl == ""
      ensures revoked == old(revoked) + Released(old(responseBlobUrl))
      ensures Panel() == old(Panel()).(blobUrl := "")
    {
      if responseBlobUrl != "" {
        revoked := revoked + [responseBlobUrl];
        responseBlobUrl := "";
      }
    }

    /** `clearResponseData`: the response part is cleared and its object URL released; no object URL is left unrevoked. */
    method ClearResponseData()
      requires Valid()
      modifies this`responseUrl, this`responseHeaders, this`responseText, this`responseStatus, this`responseMessage
      modifies this`responseIsBlob, this`responseBlobType, this`respContentDisposition, this`responseBlobUrl, this`revoked
      ensures Valid()
      ensures Panel() == ClearedPanel
      ensures revoked == old(revoked) + Released(old(responseBlobUrl))
      ensures forall u :: u in created ==> u in revoked
    {
      ResetShownResponse();
      responseBlobType := "";
      ReleaseBlobUrl();
    }

    /** `disconnectedCallback`: the code example is dropped and the object URL released; no object URL is left unrevoked. */
    method DisconnectedCallback()
      requires Valid()
      modifies this`codeExample, this`responseBlobUrl, this`revoked
      ensures Valid()
      ensures codeExample == ""
      ensures Panel() == old(Panel()).(blobUrl := "")
      ensures revoked == old(revoked) + Released(old(responseBlobUrl))
      ensures forall u :: u in created ==> u in revoked
    {
      codeExample := "";
      ReleaseBlobUrl();
    }

    /** `afterNavigationFocusedMode`: both body selections and the response are cleared. */
    method AfterNavigationFocusedMode()
      requires Valid()
      modifies this`selectedRequestBodyType, this`selectedRequestBodyExample
      modifies this`responseUrl, this`responseHeaders, this`responseText, this`responseStatus, this`responseMessage
      modifies this`responseIsBlob, this`responseBlobType, this`respContentDisposition, this`responseBlobUrl, this`revoked
      ensures Valid()
      ensures selectedRequestBodyType == "" && selectedRequestBodyExample == ""
      ensures Panel() == ClearedPanel
      ensures revoked == old(revoked) + Released(old(responseBlobUrl))
    {
      selectedRequestBodyType := "";
      selectedRequestBodyExample := "";
      ClearResponseData();
    }

    /** `onSelectExample`: the chosen example id becomes the selection. */
    method OnSelectExample(value: string)
      modifies this`selectedRequestBodyExample
      ensures selectedRequestBodyExample == value
    {
      selectedRequestBodyExample := value;
    }

    /** `onMimeTypeChange`: the chosen media type becomes the selection and the example selection is emptied. */
    method OnMimeTypeChange(value: string)
      modifies this`selectedRequestBodyType, this`selectedRequestBodyExample
      ensures selectedRequestBodyType == value && selectedRequestBodyExample == ""
    {
      selectedRequestBodyType := value;
      selectedRequestBodyExample := "";
    }

    /**
     * The selection part of `requestBodyTemplate`: the media types the body offers, the
     * type selected by the first loop and the example selected by the second; `ids` are
     * the example ids `generateExample` gives for the selected type.
     */
    method RequestBodyTemplate(requestBody: Json, ids: seq<string>) returns (types: seq<string>)
      modifies this`selectedRequestBodyType, this`selectedRequestBodyExample
      ensures types == BodyTypes(requestBody)
      ensures selectedRequestBodyType == ChosenType(old(selectedRequestBodyType), types)
      ensures selectedRequestBodyExample
        == ChosenExample(selectedRequestBodyType, old(selectedRequestBodyExample), types, ids)
    {
      types := [];
      if !Truthy(requestBody) || KeyCount(requestBody) == 0 {
        return;
      }
      var selected;
      types, selected := CollectBodyTypes(Entries(Prop(requestBody, "content")), selectedRequestBodyType);
      selectedRequestBodyType := selected;
      selectedRequestBodyExample := SelectExample(selected, selectedRequestBodyExample, types, ids);
    }

    /** The resets at the start of `onTryClick`: everything of the response but its blob type, with the object URL released. */
    method ResetForTryClick()
      requires Valid()
      modifies this`responseUrl, this`responseHeaders, this`responseStatus, this`responseIsBlob
      modifies this`respContentDisposition, this`responseText, this`responseMessage, this`responseBlobUrl, this`revoked
      ensures Valid() && responseBlobUrl == ""
      ensures Panel() == ResetForTry(old(Panel()))
      ensures revoked == old(revoked) + Released(old(responseBlobUrl))
    {
      ResetShownResponse();
      ReleaseBlobUrl();
    }

    /** The response fields but the blob type and the object URL are reset. */
    method ResetShownResponse()
      modifies this`responseUrl, this`responseHeaders, this`responseStatus, this`responseIsBlob
      modifies this`respContentDisposition, this`responseText, this`responseMessage
      ensures Panel() == ResetForTry(old(Panel())).(blobUrl := old(responseBlobUrl))
    {
      responseUrl := "";
      responseHeaders := "";
      responseStatus := "success";
      responseIsBlob := false;
      respContentDisposition := "";
      responseText := "";
      responseMessage := "";
    }

    /**
     * `onTryClick`, given how the request ended and the object URL a blob response
     * would get: the response part is reset, the old object URL released, and the panel
     * filled from the outcome.
     */
    method OnTryClick(outcome: FetchOutcome, objectUrl: string)
      requires Valid()
      requires objectUrl != "" && objectUrl !in created
      modifies this`responseUrl, this`responseHeaders, this`responseText, this`responseStatus, this`responseMessage
      modifies this`responseIsBlob, this`responseBlobType, this`respContentDisposition, this`responseBlobUrl
      modifies this`created, this`revoked
      ensures Valid()
      ensures Panel() == TryPanel(old(Panel()), outcome, objectUrl)
      ensures revoked == old(revoked) + Released(old(responseBlobUrl))
      ensures created == old(created) + Released(responseBlobUrl)
    {
      ResetForTryClick();
      match outcome
      case Aborted =>
        responseMessage := AbortedText;
        responseText := AbortedText;
      case Failed(m) =>
        responseMessage := m + NetworkSuffix;
      case Received(r) =>
        ShowResponse(r, objectUrl);
    }

    /** A received response: status line, URL and headers, then the body. */
    method ShowResponse(r: Response, objectUrl: string)
      requires Valid() && responseBlobUrl == "" && !responseIsBlob
      requires objectUrl != "" && objectUrl !in created
      modifies this`responseUrl, this`responseHeaders, this`responseText, this`responseMessage
      modifies this`responseIsBlob, this`responseBlobType, this`respContentDisposition, this`responseBlobUrl, this`created
      ensures Valid()
      ensures Panel() == ReceivedPanel(old(Panel()).(message := StatusLine(r), url := r.url, headers := HeaderLines(r.headers)), r, objectUrl)
      ensures created == old(created) + Released(responseBlobUrl)
    {
      responseMessage := StatusLine(r);
      responseUrl := r.url;
      responseHeaders := HeaderText(r.headers);
      ReceiveBody(r, objectUrl);
    }

    /** The body part of `onTryClick` for a received response. */
    method ReceiveBody(r: Response, objectUrl: string)
      requires Valid() && responseBlobUrl == ""
      requires objectUrl != "" && objectUrl !in created
      modifies this`responseText, this`responseMessage, this`responseIsBlob, this`responseBlobType
      modifies this`respContentDisposition, this`responseBlobUrl, this`created
      ensures Valid()
      ensures Panel() == ReceivedPanel(old(Panel()), r, objectUrl)
      ensures created == old(created) + Released(responseBlobUrl)
    {
      var kind := Classify(r.body, r.contentType);
      if kind.IsBlob() {
        responseIsBlob := true;
        responseBlobType := if kind == DownloadBody then "download" else "view";
        ShowBlob(r, objectUrl);
      } else {
        ShowBodyText(r, objectUrl);
      }
    }

    /** The text branches of the body part of `onTryClick`. */
    method ShowBodyText(r: Response, objectUrl: string)
      requires !Classify(r.body, r.contentType).IsBlob()
      modifies this`responseText, this`responseMessage
      ensures Panel() == ReceivedPanel(old(Panel()), r, objectUrl)
    {
      match Classify(r.body, r.contentType)
      case EmptyBody =>
        responseText := "";
      case UntypedBody =>
        responseText := r.body;
      case NdjsonBody =>
        responseText := r.body;
      case JsonBody =>
        if DeclaresCharset(r.contentType.value) {
          responseText := r.charsetJson.GetOr(r.charsetText);
        } else if r.json.Some? {
          responseText := r.json.value;
        } else {
          responseMessage := r.jsonError + NetworkSuffix;
        }
      case TextBody =>
        responseText := if Contains(r.contentType.value, "xml") then r.xmlText else r.body;
    }

    /** The blob part of `onTryClick`: the file name, then a new object URL. */
    method ShowBlob(r: Response, objectUrl: string)
      requires Valid() && responseBlobUrl == ""
      requires objectUrl != "" && objectUrl !in created
      modifies this`responseMessage, this`respContentDisposition, this`responseBlobUrl, this`created
      ensures Valid()
      ensures Panel() == BlobPanel(old(Panel()), r, objectUrl)
      ensures created == old(created) + Released(responseBlobUrl)
    {
      match DispositionFileName(r.contentDisposition)
      case None =>
        responseMessage := r.filenameError + NetworkSuffix;
      case Some(name) =>
        respContentDisposition := name;
        responseBlobUrl := objectUrl;
        created := created + [objectUrl];
    }
  }
}
