# RapiDoc request panel, schema table, blockquotes and security check in Dafny

This project models four parts of the RapiDoc web component (the vtexdocs fork):

- `renderBlockquote` picks the CSS class of a markdown blockquote from the marker emoji that follows `<p>`. It also removes the first occurrence of that marker (module `Blockquote`).
- `isSecuritySchemeIdValid` decides whether a request may go out under a security scheme without scopes (module `SecurityUtils`).
- The `schema-table` component walks a normalised schema tree. The model keeps the rows' content and drops their HTML. It also covers the component's attribute defaults, the object toggle and the event dispatcher (module `SchemaTable`).
- The `api-request` component (module `ApiRequest`) covers:
  - how query parameters get their style, `explode` and `allowReserved` settings
  - how the request-body media type and example are selected
  - how a response to "Try" is classified and shown
  - how the object URL of a blob response is created and released. This is the class `ApiRequestElement`, whose ghost `created` and `revoked` lists prove that no object URL leaks and none is revoked twice.

Shared modules:

- `Wrappers` holds `Option`.
- `Strings` holds the JavaScript string operations used: `startsWith`, `endsWith`, `includes`, `indexOf`, `replace` with a string pattern, `replaceAll`, `split`, `join`, `trim`, ASCII lower-casing and `length` in UTF-16 code units. A string is a sequence of Unicode characters. The only length the model compares with a bound is the description's, which is counted in code units as JavaScript does; every other string length the model uses is compared with zero or counts only ASCII characters, where both counts agree.
- `JsValues` holds a JSON-like value with JavaScript truthiness, property lookup and `Object.keys`. An object's properties are stored in the order `Object.keys` and `for…in` list them: integer-like keys first, ascending, then the other keys in insertion order.

JavaScript `undefined` and `null` are both `Undefined`. A JavaScript `TypeError` that ends a computation is `None`: a `null` child in the schema tree, a primitive descriptor with fewer than seven fields, a content disposition without `filename=`, or a `null` entry met in the security list before a granting one.

## Model

| member | source | states |
|---|---|---|
| Blockquote.Marker | src/utils/renderBlockquote.js:6-15 | the info marker is chosen exactly when the text starts with `<p>` and the info marker; the book marker exactly when it does not but starts with `<p>` and the book marker; the warning marker exactly when neither holds and it starts with `<p>`, the warning marker and a space |
| Blockquote.Wrap | src/utils/renderBlockquote.js:8-18 | the block starts with its opening tag and ends with `</blockquote>`, and its length is exactly the tag, the content and the closing tag |
| Blockquote.RenderBlockquote | src/utils/renderBlockquote.js:1-19 | every result is a `<blockquote class="…">` element closed by `</blockquote>` |
| Blockquote.MarkerAfterParagraph | src/utils/renderBlockquote.js:8 | removing the first marker after `<p>` and trimming keeps `<p>` and the rest with its trailing blanks trimmed |
| Blockquote.InfoPrefix | src/utils/renderBlockquote.js:6-8 | a text led by `<p>` and the info marker becomes an info block of `<p>` and the trimmed rest |
| Blockquote.BookPrefix | src/utils/renderBlockquote.js:9-11 | a text led by `<p>` and the book marker becomes an info block of `<p>` and the trimmed rest |
| Blockquote.WarningPrefix | src/utils/renderBlockquote.js:12-14 | a text led by `<p>`, the warning marker and a space becomes a warning block of `<p>` and the trimmed space and rest |
| Blockquote.WarningClassIff | src/utils/renderBlockquote.js:12-18 | the result is a warning block if and only if the text starts with `<p>`, the warning marker and a space |
| Blockquote.UnchangedIffNoPrefix | src/utils/renderBlockquote.js:6-18 | the text is wrapped unchanged in an info block if and only if it has none of the three leads |
| Blockquote.InfoIsNotWarning | src/utils/renderBlockquote.js:8-18 | an info block never starts like a warning block |
| Blockquote.LeadHoldsMarker | src/utils/renderBlockquote.js:6-14 | a text led by `<p>` and a marker holds that marker at index 3 |
| Blockquote.RemovalShortens | src/utils/renderBlockquote.js:8-14 | removing an occurring marker and trimming gives a strictly shorter text |
| SecurityUtils.AnyGrants | src/utils/security-utils.js:4-10 | scanning from the front, the answer is `true` exactly when an object with the id as an own property holding an empty array comes before any `null` or `undefined` entry; the scan throws exactly when such an entry comes before any granting object; it is `false` exactly when every entry is defined and none grants |
| SecurityUtils.IsSecuritySchemeIdValid | src/utils/security-utils.js:2-11 | an absent list allows every id; an empty list allows none; otherwise the check throws exactly when a `null` or `undefined` entry is reached before a granting object, and allows the id exactly when a granting object is reached first |
| SecurityUtils.DefinedListAnswers | src/utils/security-utils.js:4-10 | over a list without `null` or `undefined` entries the check never throws and allows the id exactly when some object grants it without scopes |
| SecurityUtils.NullEntryThrowsOnlyBeforeGrant | src/utils/security-utils.js:4-10 | a `null` entry before the granting object throws; after it, the id is allowed |
| SecurityUtils.ConcatScansInOrder | src/utils/security-utils.js:4-10 | a concatenated list answers as its first part, unless that part answers `false`, in which case it answers as its second part |
| SecurityUtils.ScopedEntryDoesNotGrant | src/utils/security-utils.js:6-8 | a one-entry list whose entry is not an empty array answers `false`, or throws when the entry is `null` |
| SecurityUtils.ConcatValidIff | src/utils/security-utils.js:4-10 | without `null` entries, a concatenated list grants an id exactly when one of its two parts does |
| SecurityUtils.OrderIrrelevant | src/utils/security-utils.js:4-10 | without `null` entries, two lists holding the same objects in any order give the same answer |
| SchemaTable.ParseKey | src/components/schema-table.js:212-224 | every key that does not start with `::OPTION` yields a label |
| SchemaTable.GroupKeyRewrite | src/components/schema-table.js:216 | dropping the first `::` and turning the first `~` into a space rewrites `::W~rest` to `W rest` when `W` has no `~` |
| SchemaTable.OneOfKeyLabel | src/components/schema-table.js:215-217 | `::ONE~OF…` and `::ANY~OF…` are labelled `ONE OF…` and `ANY OF…`, have an empty description and are marked as a group |
| SchemaTable.GroupLeadStarts | src/components/schema-table.js:215 | a `::ONE~OF` or `::ANY~OF` key passes the group test |
| SchemaTable.GroupKeyParse | src/components/schema-table.js:215-217 | a key that passes the group test takes the group branch |
| SchemaTable.OptionKeyParse | src/components/schema-table.js:218-221 | a key starting with `::OPTION` takes the option branch, labelled by the second `~` part and described by the third |
| SchemaTable.OptionKeyParts | src/components/schema-table.js:218-221 | `::OPTION~a~b` is labelled `a` and described by `b` |
| SchemaTable.OptionKeyWithoutDescription | src/components/schema-table.js:218-221 | `::OPTION~a` is labelled `a` and its description is undefined |
| SchemaTable.PlainKeyParts | src/components/schema-table.js:222-224 | a key not starting with `::` is its own label with an empty description |
| SchemaTable.ObjectInArrayLabel | src/components/schema-table.js:227-229 | an object held by an array is labelled `array of object` |
| SchemaTable.ArrayInArrayLabel | src/components/schema-table.js:233-236 | an array held by an array is labelled `array of array of T`, or `array of array ` when `T` is `object` |
| SchemaTable.DeclaredLabelOutsideArray | src/components/schema-table.js:230-231 | outside an array a non-empty `::dataTypeLabel` wins, and otherwise `::type` is shown |
| SchemaTable.ParseDescriptor | src/components/schema-table.js:320 | a descriptor parses exactly when it has at least seven fields separated by tilde, bar, tilde, and its type is the first field |
| SchemaTable.DescriptorRoundTrip | src/components/schema-table.js:320 | splitting a descriptor joined with that separator gives back every field, the title and the deprecation flag |
| SchemaTable.CssClass | src/components/schema-table.js:327 | the CSS class has at most four characters, all from `[a-z0-9+]` |
| SchemaTable.CssClassOfPlainName | src/components/schema-table.js:327 | a divider-free type name made of `[a-z0-9+]` is its own class, cut to its first four characters |
| SchemaTable.CssClassLowersUpper | src/components/schema-table.js:327 | an upper-case first letter is kept as the class's first character, lower-cased |
| SchemaTable.CssClassDropsOther | src/components/schema-table.js:327 | a first character outside `[a-zA-Z0-9+]` that does not start a divider does not affect the class |
| SchemaTable.CssClassBeforeDivider | src/components/schema-table.js:327 | on one line, only the text before the first divider decides the CSS class |
| SchemaTable.DividerTailDropped | src/components/schema-table.js:327 | a divider and the rest of its line are removed, and the text before it is kept |
| SchemaTable.LeadingDividerDropped | src/components/schema-table.js:327 | a line that starts with the divider is removed entirely |
| SchemaTable.StripAfterFree | src/components/schema-table.js:327 | divider-free text passes the divider removal unchanged |
| SchemaTable.NoDividerShown | src/components/schema-table.js:328 | no divider survives in the displayed type |
| SchemaTable.TypeDividerJoins | src/components/schema-table.js:328 | alternatives joined by the divider are shown joined by a bar between two spaces |
| SchemaTable.HeaderRowsOk | src/components/schema-table.js:244-280 | the own row of a visible object node is expanded exactly up to the expand level, shows nothing hidden, and sits at or below the node's levels (its exact levels are in `NestedLevels`) |
| SchemaTable.NestedLevels | src/components/schema-table.js:206-311 | a visible object or array node with a key emits its own row first, one schema level deeper unless its type starts with `xxx-of` and one indent deeper unless it is an `xxx-of-option` or an `::OPTION` key, padded by 10 times its indent; its children, or its first element, are walked at exactly those two levels, and every later row sits at or below the first |
| SchemaTable.PrimitiveRowShown | src/components/schema-table.js:206-208 | a visible primitive with a full descriptor emits one row, one schema level deeper and one indent deeper unless it is an `xxx-of-option` or an `::OPTION` key, padded by 10 times its indent; its CSS class is that of the descriptor's type, its type text is the type with each divider shown as a bar between two spaces, written `[type] ` plus the inherited read/write mark inside an array and `type access` elsewhere, and it has an expander exactly when the description is at least 50 UTF-16 code units or a constraint, default, allowed values or pattern is given |
| SchemaTable.EmptyObjectRowShown | src/components/schema-table.js:206-211 | a truthy node without keys emits one row with its key, one schema level deeper unless its type starts with `xxx-of`, one indent deeper unless it is an option, padded by 10 times its indent |
| SchemaTable.AstralDescriptionExpands | src/components/schema-table.js:329 | a description of 25 characters outside the Basic Multilingual Plane is 50 code units long and gets the expander |
| SchemaTable.GenerateTree | src/components/schema-table.js:167-371 | every row emitted for a node is well formed: object rows follow the expand level and hide settings, primitive rows have a well-formed CSS class and respect the hide settings, and all rows sit at or below the node's schema and indent levels; a visible node without data gives one row at its schema level, padded by 10 times that level plus one |
| SchemaTable.Children | src/components/schema-table.js:286-311 | the children's rows are well formed, and the walk over them succeeds only when none of the remaining children is `null` |
| SchemaTable.ChildRows | src/components/schema-table.js:287-309 | one child's rows are well formed, and a `null` child throws |
| SchemaTable.RenderRows | src/components/schema-table.js:153-159 | the table body starts at level 0 and all its rows are well formed |
| SchemaTable.HiddenNodeYieldsNothing | src/components/schema-table.js:168-187 | with hiding on, a node marked (or inherited as) read-only or write-only yields no rows |
| SchemaTable.HiddenPrimitiveYieldsNothing | src/components/schema-table.js:320-326 | with hiding on, a primitive whose descriptor is marked read-only or write-only yields no rows |
| SchemaTable.ShortDescriptorThrows | src/components/schema-table.js:320-329 | a visible primitive with fewer than seven descriptor fields makes the walk throw |
| SchemaTable.ToggleTextMatchesRow | src/components/schema-table.js:246-252 | outside grouping nodes, an object row's toggle reads `-` exactly when the row is expanded |
| SchemaTable.NormalizeExpandLevel | src/components/schema-table.js:22 | the expand level is at least 1; one of at least 1 is kept, and anything else becomes 99999 |
| SchemaTable.TrueFalseAccepted | src/components/schema-table.js:23-25 | `true` and `false` pass the flag test |
| SchemaTable.NormalizeFlagIdempotent | src/components/schema-table.js:23-25 | a defaulted flag passes the test, so defaulting again changes nothing |
| SchemaTable.FlagSubstringTest | src/components/schema-table.js:23-25 | the flag test is a substring test: `rue` is kept and `yes` falls back |
| SchemaTable.FlipTwice | src/components/schema-table.js:378 | the multiline toggle changes `true` or `false`, and flipping twice restores it |
| SchemaTable.ToggledState | src/components/schema-table.js:388-399 | after a toggle exactly one of `expanded` and `collapsed` is present, `expanded` exactly when it was absent, and no other class changes |
| SchemaTable.ToggleTwice | src/components/schema-table.js:388-399 | toggling twice restores a row that had exactly one of the two classes |
| SchemaTable.SchemaTableElement.Rows | src/components/schema-table.js:153-159 | the rendered rows are well formed under the element's current settings |
| SchemaTable.SchemaTableElement.ConnectedCallback | src/components/schema-table.js:20-26 | the expand level and the three flags are defaulted, the data is kept, every attribute then passes its test, and an element that already passed is unchanged |
| SchemaTable.SchemaTableElement.ToggleObjectExpand | src/components/schema-table.js:388-399 | the row's classes are toggled and the toggle's text becomes `+` when collapsing and `-` when expanding |
| SchemaTable.SchemaTableElement.HandleAllEvents | src/components/schema-table.js:374-386 | a click on an object toggle toggles the row; a click on the multiline toggle flips the flag; a click on a description expander toggles `expanded-descr` on the row and leaves the row's text and a distinct target alone; the object toggle also sets the target's text to `+` or `-` as `ToggleObjectExpand` does; any other click changes neither the element, the target nor the row |
| ApiRequest.InputParameterRows | src/components/api-request.js:368-437 | the table rows are exactly the rows of the parameters of that location that have a schema and type information and are not named like a security scheme, in order; an absent list gives none |
| ApiRequest.ParamRowsExactlyListed | src/components/api-request.js:369-437 | there are no more rows than parameters; every row belongs to a listed parameter; every listed parameter has its row |
| ApiRequest.RowsOutsideQueryHaveDefaults | src/components/api-request.js:395-411 | no row is named like a security scheme, and outside the query table every row has style `form`, `explode` true and `allowReserved` false |
| ApiRequest.DelimitedStyleAdopted | src/components/api-request.js:400-401 | a query parameter with style `form`, `spaceDelimited` or `pipeDelimited` keeps it |
| ApiRequest.StyleFragmentAdopted | src/components/api-request.js:400-401 | a fragment of the list such as `Delimited` is adopted as well |
| ApiRequest.ForeignStyleFallsBack | src/components/api-request.js:400-404 | a style holding a character that the list lacks falls back to the media type's style, or else to `form` |
| ApiRequest.DeepObjectNotAdopted | src/components/api-request.js:400-404 | `deepObject` without a media type becomes `form` |
| ApiRequest.NonBooleanFlagsIgnored | src/components/api-request.js:406-411 | non-boolean `explode` and `allowReserved` leave the defaults `true` and `false` |
| ApiRequest.FirstNonEmpty | src/components/api-request.js:623-632 | the result is empty exactly when every key is empty, and otherwise it is the first non-empty key |
| ApiRequest.FirstNonEmptyExtend | src/components/api-request.js:630-632 | visiting one more key selects it only when nothing was selected yet |
| ApiRequest.CollectBodyTypes | src/components/api-request.js:621-632 | the loop collects every media type in order and selects the kept or first non-empty one |
| ApiRequest.SelectExample | src/components/api-request.js:648-667 | the loop selects the first example id exactly when no example was selected and the selected type is offered and generates examples |
| ApiRequest.RenderTwiceStable | src/components/api-request.js:621-667 | rendering a second time changes neither the selected type nor the selected example |
| ApiRequest.MimeChangeSelectsFirstExample | src/components/api-request.js:593-596 | after the media type changes to an offered type that generates examples, the next render selects its first example |
| ApiRequest.FormDataHasNoExample | src/components/api-request.js:652-667 | `multipart/form-data` gets no example selection |
| ApiRequest.FormDataGeneratesNoExamples | src/components/api-request.js:652 | `multipart/form-data` contains none of `json`, `xml`, `text` and `jose` |
| ApiRequest.HeaderText | src/components/api-request.js:1253-1256 | the loop builds exactly one `name: value` line per header, in order |
| ApiRequest.EveryHeaderShown | src/components/api-request.js:1253-1256 | every header appears as its own line in the headers text |
| ApiRequest.Classify | src/components/api-request.js:1258-1307 | a body is typed exactly when it is non-empty and has a non-empty content type; it is empty exactly when it has no text; for a typed body, it is NDJSON exactly when the type is `application/x-ndjson`, JSON exactly when the type is another one holding `json`, a download exactly when the type lacks `json` and matches a download pattern, viewable media exactly when it lacks `json`, matches no download pattern and starts with `audio`, `image` or `video`, and text otherwise |
| ApiRequest.VendorJsonIsJson | src/components/api-request.js:1264-1284 | `application/vnd.api+json` matches the download pattern but is shown as JSON |
| ApiRequest.ArchiveWithParameterNotDownload | src/components/api-request.js:1284 | `application/zip; name=a` matches none of the download patterns |
| ApiRequest.ArchiveWithParameterNotView | src/components/api-request.js:1287 | `application/zip; name=a` matches none of the media patterns |
| ApiRequest.ArchiveWithParameterIsText | src/components/api-request.js:1264-1296 | `application/zip; name=a` is shown as text |
| ApiRequest.Unquote | src/components/api-request.js:1300 | the result holds no quote characters |
| ApiRequest.UnquoteKeepsPlain | src/components/api-request.js:1300 | a text without quotes is kept as it is |
| ApiRequest.UnquoteUnwraps | src/components/api-request.js:1300 | a quote-free name wrapped in double or single quotes becomes the name |
| ApiRequest.QuotedFileName | src/components/api-request.js:1299-1300 | a quoted name without `=` after the header's first `filename=` is the file name shown |
| ApiRequest.MarkFirstAfterPlainLead | src/components/api-request.js:1300 | a lead without the letter `f` holds no earlier `filename=` |
| ApiRequest.ExtendedMarkSkipped | src/components/api-request.js:1300 | an extended `filename*=` parameter is not a match, so the first `filename=` is the one after it |
| ApiRequest.ExtendedParameterSkipped | src/components/api-request.js:1299-1300 | `attachment; filename*=UTF-8''a.txt; filename="a.txt"` gives `a.txt` |
| ApiRequest.ReportPdfFileName | src/components/api-request.js:1299-1300 | `attachment; filename="report.pdf"` gives `report.pdf` |
| ApiRequest.DispositionFileName | src/components/api-request.js:1299-1300 | a missing or empty disposition names `filename`, and any name has no quotes |
| ApiRequest.FileNameAfterMark | src/components/api-request.js:1300 | the name is the unquoted text after the header's first `filename=`, up to the next one or to the end |
| ApiRequest.MissingFileNameThrows | src/components/api-request.js:1300 | a disposition without `filename=` throws |
| ApiRequest.TryStatusAlwaysSuccess | src/components/api-request.js:1199 | the status after a try is `success`, whatever the response |
| ApiRequest.TryForgetsPreviousResponse | src/components/api-request.js:1197-1206 | a try's result depends on the old panel only through its blob type |
| ApiRequest.NonBlobKeepsBlobType | src/components/api-request.js:1197-1206 | a non-blob response is not a blob and keeps the previous blob type |
| ApiRequest.BlobUrlExactlyForBlobs | src/components/api-request.js:1284-1303 | an object URL is shown if and only if the response is a blob with a readable file name; then the URL is the one created, the panel is a blob, no text is shown and the file name is shown |
| ApiRequest.JsonNeverBlob | src/components/api-request.js:1264-1282 | a response whose type mentions `json` is never a blob and gets no object URL |
| ApiRequest.AbortedPanel | src/components/api-request.js:1321-1331 | an aborted try shows `Request Aborted` as message and text, and otherwise the cleared panel with the previous blob type |
| ApiRequest.FailureShowsNetworkHint | src/components/api-request.js:1332-1341 | a failed try's message ends with ` (CORS or Network Issue)` and no text is shown |
| ApiRequest.PlainJsonHasNoCharset | src/components/api-request.js:1265 | `application/json` declares no charset |
| ApiRequest.UnparsableJsonShowsNetworkHint | src/components/api-request.js:1251-1281 | an unparsable `application/json` body shows the parser's message followed by the network hint, no text and no blob, with the response's URL and headers |
| ApiRequest.ApiRequestElement.constructor | src/components/api-request.js:36-53 | the panel starts cleared with status `success`, with no selections and no object URLs |
| ApiRequest.ApiRequestElement.ReleaseBlobUrl | src/components/api-request.js:1203-1206 | the shown object URL, if any, is revoked once and cleared |
| ApiRequest.ApiRequestElement.ClearResponseData | src/components/api-request.js:1395-1408 | the panel is cleared, its object URL released, and every object URL ever created is then revoked |
| ApiRequest.ApiRequestElement.DisconnectedCallback | src/components/api-request.js:1410-1418 | the code example is dropped, the object URL released, and every object URL ever created is then revoked |
| ApiRequest.ApiRequestElement.AfterNavigationFocusedMode | src/components/api-request.js:572-577 | both body selections and the response are cleared |
| ApiRequest.ApiRequestElement.OnSelectExample | src/components/api-request.js:580-581 | the chosen example becomes the selection |
| ApiRequest.ApiRequestElement.OnMimeTypeChange | src/components/api-request.js:593-596 | the chosen media type becomes the selection and the example selection is emptied |
| ApiRequest.ApiRequestElement.RequestBodyTemplate | src/components/api-request.js:606-667 | the offered media types, the type kept or first offered, and the example kept or first generated |
| ApiRequest.ApiRequestElement.ResetForTryClick | src/components/api-request.js:1197-1243 | everything shown but the blob type is reset (the text and message reset at lines 1242-1243 included), and the old object URL is released |
| ApiRequest.ApiRequestElement.ResetShownResponse | src/components/api-request.js:1197-1243 | the shown response, with the text and message of lines 1242-1243, is reset except its blob type and object URL |
| ApiRequest.ApiRequestElement.OnTryClick | src/components/api-request.js:1191-1343 | the panel becomes the try's result; the old object URL is revoked; a new one is created exactly when one is shown; no object URL leaks |
| ApiRequest.ApiRequestElement.ShowResponse | src/components/api-request.js:1250-1307 | the status line, URL and headers are shown, then the body |
| ApiRequest.ApiRequestElement.ReceiveBody | src/components/api-request.js:1258-1307 | the body is shown as its kind says, with a new object URL only for a blob |
| ApiRequest.ApiRequestElement.ShowBodyText | src/components/api-request.js:1258-1297 | the text branches show the body, the decoded or printed JSON, or the formatted XML |
| ApiRequest.ApiRequestElement.ShowBlob | src/components/api-request.js:1298-1303 | a blob gets its file name and a fresh object URL, or the filename error |
| Strings.SplitJoin | src/components/schema-table.js:219-221 | splitting a join of parts free of the separator's first character gives the parts back |
| Strings.ReplaceAllRemovesPattern | src/components/schema-table.js:328 | after `replaceAll` with a replacement disjoint from the pattern, the pattern no longer occurs |
| Strings.TrimEndAfterSolid | src/utils/renderBlockquote.js:8 | trimming the end of a text that starts with a non-blank character keeps that start |
| Strings.Utf16Length | src/components/schema-table.js:329 | `length` counts between one and two code units per character, exactly one each when all lie in the Basic Multilingual Plane |
| Strings.AstralLength | src/components/schema-table.js:329 | a text of characters outside the Basic Multilingual Plane has twice as many code units as characters |

## Left out

- HTML, markdown rendering (`marked`, `unsafeHTML`), CSS and the Prism highlighting are not modelled. Rows and panels keep only their content.
- JSON parsing and printing, `TextDecoder`, `formatXml`, `response.blob()` and `URL.createObjectURL` cannot be expressed here. They enter as fields of `Response` or as parameters of `OnTryClick`.
- `getSchemaFromParam`, `getTypeInfo`, `schemaInObjectNotation` and `generateExample` enter as opaque inputs: `hasSchema`, `hasTypeInfo`, `serializeStyle` and the example ids.
- Timing (`performance.now`), the `before-try`, `after-try` and `request-aborted` events, cookies, the proxy URL and `updateCodeExample` are I/O. The timing text of the status message is dropped.
- ApiRequest.ApiRequestElement.OnTryClick: an abort is modelled only before a response arrives. An abort while the body is read would keep the status line, URL and headers.
- ApiRequest.ApiRequestElement.OnTryClick: concurrent tries (a second click before the first completes) are not modelled.
- ApiRequest.ResetForTry: `responseHeaders` is reset to `[]` in the source and to `""` in the model. Both show as empty.
- ApiRequest.ApiRequestElement.constructor: the source leaves `responseIsBlob`, `responseBlobType`, `respContentDisposition` and `responseBlobUrl` undefined. The model gives them their falsy values.
- ApiRequest.QueryStyle: a non-string `style` is treated as not adopted. The source would stringify it for `includes`.
- The parameter table's title, examples, deprecation marks and input widgets, and the early return for an empty filtered list, are left out. That return gives the same empty row list.
- `updateExamplesFromDataAttr` and the `setTimeout` DOM work of `onSelectExample` and `onMimeTypeChange` are DOM updates.
- The parts of `requestBodyTemplate` that build the form, file and schema views are HTML.
- SecurityUtils.AnyGrants: an entry that is an array, a string, a number or a boolean never grants in the model. In the source `hasOwnProperty` on an array entry can find an index key, so `[[[]]]` would grant the id `0`.
- SecurityUtils.IsSecuritySchemeIdValid: the security list is either absent or an array. A truthy value that is not an array would make `some` throw in the source; a falsy one such as `''` is treated as absent there as here.
- ApiRequest.InputParameterRows: the list of security schemes is assumed present. The source reads `resolvedSpec.securitySchemes.some` at api-request.js:437 and throws while `resolvedSpec` is still the `{}` set by the constructor at line 38.
- JsValues.Json: an object's properties are taken as already listed in `Object.keys` order. The reordering of integer-like keys is not computed.
- ApiRequest.ApiRequestElement.OnTryClick: the source resets the panel at lines 1197-1206 and clears the text and message at lines 1242-1243, just before `fetch`. The model does both resets at the start. Between the two points the source only builds the request, dispatches the `before-try` event and sets cookies, which the model leaves out, so a `before-try` listener could still see the previous text and message.
- Numbers are integers. Floating-point values in schemas are not modelled.
- SchemaTable.SchemaTableElement.HandleAllEvents: the `maxHeight` style set on the description expander's row is not modelled.
- The rendered toolbar and description of `schema-table` (`render`'s HTML) are not modelled. Only its choice of the tree's root is.
