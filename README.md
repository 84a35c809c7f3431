# api-documentation: a verified model of its logic

The `api-documentation` web components render documentation for an API
described by an AMF graph. Most of the code is templates and graph lookups.
Four pieces of it hold decision logic, and this project models those pieces
in Dafny and proves properties of them:

- **Type labels** (`src/lib/Utils.js`, module `TypeLabel`). `schemaToType`
  turns a datatype URI into a display word. `readPropertyTypeLabel` walks a
  shape tree and produces labels such as "List of String" or
  "String or Integer".
- **Code-snippet values** (`src/elements/ApiOperationDocumentElement.js`,
  module `OperationDocument`). These are:
  - the query dictionary built from the required query parameters;
  - the header lines, with a synthesized `content-type` line;
  - the choice of the example that feeds the payload;
  - the `server` getter and the `snippetsUri` getter;
  - the response preselection;
  - the joined trait names.

  The component is the class `ApiOperationDocument`. Its fields are the
  ones the source writes, and its methods change them as the source does.
- **Navigation** (`api-documentation.js`, module `ApiDocumentation`). These
  are:
  - the six view flags derived from the selected type;
  - the previous and next links in an endpoint or method list;
  - the render predicates and the declaration lookup;
  - the rule by which the shown endpoint model is replaced.

  The element is the class `ApiDocumentationElement`.
- **JavaScript values** (module `JsValues`). This holds the language
  behaviour the rest relies on:
  - truthiness;
  - `x || ''`;
  - template-literal rendering, where `undefined` becomes the text
    "undefined";
  - `Array.prototype.join`, which renders `undefined` and `null` as `''`;
  - `String(...)`;
  - ASCII case mapping.

The collaborators whose code is not part of this model appear as inputs:

- `ApiSchemaValues.generateDefaultValue` and `readInputValue` are the
  `generated` and `inputValue` fields of a `Parameter`.
- `QueryParameterProcessor.collectOperationParameters` is the
  `queryString` field of a `Request`.
- `UrlLib.computeEndpointUri`, `UrlLib.applyUrlParameters`,
  `evaluateExample` and `ApiSchemaGenerator.asExample` are function-typed
  parameters.
- `_computeEndpointModel`,
  `_computeMethodEndpoint`, `__computeMethodsListForMethod` and
  `_computeDeclares` are result parameters.

A JavaScript TypeError that the source can raise is returned as a
`threw` result, or as a `Fail` or `PayloadThrew` case. The source raises
one when a required query parameter has no schema, and when the matching
payload has no schema.

Every function of the model is total and terminates, so `readPropertyTypeLabel` terminates on every finite shape tree. It is also deterministic and changes nothing.

`readPropertyTypeLabel` takes only the schema. It has no array-item flag,
and it does not unwrap an object with a single property.

## Model

| member | source | states |
|---|---|---|
| TypeLabel.LastIndexOf | src/lib/Utils.js:14-17 | the result is -1 or a position of the character, and no later position holds it |
| TypeLabel.Capitalize | src/lib/Utils.js:19-21 | same length; the first character upper-cased, the rest unchanged |
| TypeLabel.SchemaToType | src/lib/Utils.js:12-23 | the capitalised text after the last `#`, else after the last `/`, else the whole string; the result is `''` exactly for `''` or a string ending in the separator chosen |
| TypeLabel.Classify | src/lib/Utils.js:34-63 | the chosen kind's facet is declared and no facet of a higher-priority kind (Scalar, Array, NodeShape, Union, File) is |
| TypeLabel.ShapeLabel | src/lib/Utils.js:30-64 | undefined exactly for an array without `items`; File gives "File", anything unrecognised gives "Unknown" |
| TypeLabel.MemberLabels | src/lib/Utils.js:57 | one label per union member, and the label at each position is that member's label with undefined read as `''` |
| TypeLabel.Label | src/lib/Utils.js:30-33 | an absent schema gives undefined |
| TypeLabel.LabelByKind | src/lib/Utils.js:35-58 | the label of each kind: scalar by `schemaToType(dataType \|\| '')`, array as "List of " + item label, node by name unless absent, empty or "type", union by " or "-joined member labels |
| TypeLabel.ScalarBeforeArray | src/lib/Utils.js:35-46 | a node declaring both the scalar and the array facet gets the scalar label |
| TypeLabel.ScalarWithoutDataType | src/lib/Utils.js:35-38 | a scalar without a truthy `dataType` is labelled `''` |
| TypeLabel.NestedArrayLabel | src/lib/Utils.js:39-46 | n nested arrays around a labelled node read "List of " n times, then the inner label |
| TypeLabel.NestStep | src/lib/Utils.js:39-46 | wrapping a node in one more array puts "List of " before its label |
| TypeLabel.ListOfUndefined | src/lib/Utils.js:39-46 | an array whose item is an array without `items` is labelled "List of undefined" |
| TypeLabel.MemberLabelsConcat | src/lib/Utils.js:57 | member labels of a concatenation are the concatenated member labels |
| TypeLabel.UnionConcat | src/lib/Utils.js:55-59 | splitting a union's members splits its label at one " or ", keeping declared order |
| TypeLabel.SmallUnions | src/lib/Utils.js:55-59 | an empty union is labelled `''`; a one-member union has its member's label, undefined read as `''` |
| TypeLabel.UnionKeepsDuplicates | src/lib/Utils.js:55-59 | a member listed twice appears twice in the label |
| OperationDocument.Put | src/elements/ApiOperationDocumentElement.js:466-475 | assigning a key adds it to the key set, keeps every existing key in place, and appends a new key last |
| OperationDocument.PutLookup | src/elements/ApiOperationDocumentElement.js:466-475 | after an assignment the key reads the new value and every other key reads what it read before |
| OperationDocument.PutKeepsKeysUnique | src/elements/ApiOperationDocumentElement.js:456-483 | a dictionary with distinct keys keeps them distinct |
| OperationDocument.EffectiveName | src/elements/ApiOperationDocumentElement.js:462 | `paramName` when truthy; otherwise `name`, or the text "undefined" when there is none |
| OperationDocument.Kept | src/elements/ApiOperationDocumentElement.js:474 | a generated value is kept unless it is `undefined`, `''` or `NaN` |
| OperationDocument.FirstWithValue | src/elements/ApiOperationDocumentElement.js:468 | the position of the first example with a truthy value, or the end |
| OperationDocument.QueryStep | src/elements/ApiOperationDocumentElement.js:458-476 | a parameter that is not required is skipped; a required one without a schema throws; a stored value is never `undefined`, `''` or `NaN` |
| OperationDocument.QueryValuePrecedence | src/elements/ApiOperationDocumentElement.js:465-476 | a truthy default wins; else, with examples, the value of the first example with a truthy value is stored, and nothing when none has one (no fallback); else the generated value unless `undefined`, `''` or `NaN` |
| OperationDocument.PutEntries | src/elements/ApiOperationDocumentElement.js:466-475 | after an assignment every entry is an old one or the new one |
| OperationDocument.Apply | src/elements/ApiOperationDocumentElement.js:457-476 | one pass of the loop throws exactly on a required parameter without a schema, and nothing runs after a throw |
| OperationDocument.Collect | src/elements/ApiOperationDocumentElement.js:457-483 | a completed dictionary has at most one entry per parameter, and no stored value is `undefined`, `''` or `NaN` |
| OperationDocument.CollectFails | src/elements/ApiOperationDocumentElement.js:457-464 | the loop throws exactly when some required parameter has no schema |
| OperationDocument.CollectKeysPrefix | src/elements/ApiOperationDocumentElement.js:456-483 | the keys are in declaration order: the dictionary of a prefix of the parameters is, key by key, a prefix of the completed one |
| OperationDocument.CollectContents | src/elements/ApiOperationDocumentElement.js:456-483 | a completed dictionary has distinct keys, and each key holds the value of the last required parameter with that key that produced one |
| OperationDocument.QuerySource | src/elements/ApiOperationDocumentElement.js:443-452 | non-empty `queryParameters` are used; otherwise the query-string decomposition when there is a query string, and nothing when there is none |
| OperationDocument.SnippetQuery | src/elements/ApiOperationDocumentElement.js:431-455 | a dictionary is produced only with an operation, a request and a non-empty parameter list |
| OperationDocument.StoreParameter | src/elements/ApiOperationDocumentElement.js:458-476 | one pass of the loop over a parameter that does not throw stores what `Apply` defines |
| OperationDocument.CollectQueryParameters | src/elements/ApiOperationDocumentElement.js:456-483 | the loop's dictionary, or the thrown error, is the one `Collect` defines |
| OperationDocument.HeaderLine | src/elements/ApiOperationDocumentElement.js:557-571 | a header yields a line exactly when its schema exists, is scalar and its value is defined; the line is `name: value`, with arrays joined by `,` |
| OperationDocument.SetsMime | src/elements/ApiOperationDocumentElement.js:566-570 | only a header that emits a line can set the content type |
| OperationDocument.HeaderLines | src/elements/ApiOperationDocumentElement.js:556-574 | at most one line per header |
| OperationDocument.MimeLineEmitted | src/elements/ApiOperationDocumentElement.js:556-574 | when some header sets the content type, at least one header line is emitted |
| OperationDocument.HeaderLinesAppend | src/elements/ApiOperationDocumentElement.js:556-574 | the lines of a concatenation are the lines of its parts, in declaration order |
| OperationDocument.HeaderLinesCount | src/elements/ApiOperationDocumentElement.js:556-574 | there is one line per header that has a scalar schema and a defined value |
| OperationDocument.HeaderLinesNonEmpty | src/elements/ApiOperationDocumentElement.js:571 | no emitted line is empty |
| OperationDocument.HeaderStep | src/elements/ApiOperationDocumentElement.js:557-572 | one pass of the header loop yields the header's line and whether it sets the content type |
| OperationDocument.SnippetHeaderLines | src/elements/ApiOperationDocumentElement.js:575-577 | the header lines come first; one `content-type: <type>` line follows exactly when no emitted header sets the content type, a media type is selected and the method is not `get` |
| OperationDocument.SnippetHeaders | src/elements/ApiOperationDocumentElement.js:540-579 | a header text exists exactly when the API is not asynchronous and there are an operation and a request |
| OperationDocument.SnippetHeadersEmpty | src/elements/ApiOperationDocumentElement.js:578 | the header text is `''` exactly when no line is produced |
| OperationDocument.CollectHeaderLines | src/elements/ApiOperationDocumentElement.js:554-574 | the loop's lines and `hasMime` flag are the emitted lines and whether one of them sets the content type |
| OperationDocument.FirstPayload | src/elements/ApiOperationDocumentElement.js:508 | the position of the first payload of the selected media type, or the end |
| OperationDocument.Populated | src/elements/ApiOperationDocumentElement.js:518 | the filter keeps exactly the examples that have a value or a structured value |
| OperationDocument.PopulatedConcat | src/elements/ApiOperationDocumentElement.js:518 | the filter keeps order: a concatenation is filtered part by part |
| OperationDocument.PopulatedKeepsFirst | src/elements/ApiOperationDocumentElement.js:518-521 | the filter does not change which example with a value is found first |
| OperationDocument.FirstValuedConcat | src/elements/ApiOperationDocumentElement.js:512-521 | the payload's own examples are searched before its schema's |
| OperationDocument.ChoosePayloadExample | src/elements/ApiOperationDocumentElement.js:491-525 | nothing is rendered for an asynchronous API or without a media type, an operation or a request; otherwise the TypeError occurs exactly when the first payload of the media type has no schema, that payload's schema is chosen exactly when it has one, and a chosen example has a value |
| OperationDocument.ChosenExample | src/elements/ApiOperationDocumentElement.js:508-525 | the chosen example is the first with a value among the matching payload's examples, then its schema's |
| OperationDocument.PayloadText | src/elements/ApiOperationDocumentElement.js:519-534 | a payload text exists only for a chosen payload and is never `''` |
| OperationDocument.FirstWithId | src/elements/ApiOperationDocumentElement.js:122 | the position of the first server with the id, or the end |
| OperationDocument.InsertByStatus | src/elements/ApiOperationDocumentElement.js:395-400 | inserting adds exactly the new response |
| OperationDocument.InsertKeepsSorted | src/elements/ApiOperationDocumentElement.js:395-400 | inserting into a list sorted by status code keeps it sorted |
| OperationDocument.SortByStatus | src/elements/ApiOperationDocumentElement.js:395-400 | the result is sorted ascending by status code and is a permutation of the input |
| OperationDocument.SortedFirstIsLowest | src/elements/ApiOperationDocumentElement.js:395-409 | after the sort the first code is the lowest, and the same codes are present |
| OperationDocument.TraitNames | src/elements/ApiOperationDocumentElement.js:680 | the names are exactly the traits' truthy names |
| OperationDocument.TraitNamesConcat | src/elements/ApiOperationDocumentElement.js:680 | the names keep the traits' order: a concatenation of traits gives the concatenation of their names |
| OperationDocument.TraitsText | src/elements/ApiOperationDocumentElement.js:674-690 | as written: no text without traits, and two names joined by " and " |
| OperationDocument.TraitsTextIntended | src/elements/ApiOperationDocumentElement.js:674-690 | corrected: no text without traits, two names joined by " and ", fewer than two by ", " |
| OperationDocument.TraitsTextAsWritten | src/elements/ApiOperationDocumentElement.js:674-690 | as written, two names are joined by " and " and every other count by ", " |
| OperationDocument.TraitsTextThreeNames | src/elements/ApiOperationDocumentElement.js:681-687 | for traits a, b and c the text as written is "a, b, c"; the intended text is "a, b, and c" |
| OperationDocument.TraitsTextIntendedSerial | src/elements/ApiOperationDocumentElement.js:682-687 | with the length test on the names, three or more names end in ", and " and the last name; as written, they end in ", " and the last name, so the two texts always differ |
| OperationDocument.ApiOperationDocument.constructor | src/elements/ApiOperationDocumentElement.js:255-303 | every modelled field starts undefined |
| OperationDocument.ApiOperationDocument.CurrentServer | src/elements/ApiOperationDocumentElement.js:116-128 | no servers gives undefined; a truthy id gives the first server with that id, undefined if none; otherwise the first server |
| OperationDocument.ApiOperationDocument.SnippetsUri | src/elements/ApiOperationDocumentElement.js:194-198 | the URL, or `''`, followed by the query string, or `''` |
| OperationDocument.ApiOperationDocument.ComputeParametersValue | src/elements/ApiOperationDocumentElement.js:431-486 | the field is the serialised dictionary, or undefined; it reports the TypeError exactly when parameters exist and the loop throws |
| OperationDocument.ApiOperationDocument.ComputeSnippetsHeaders | src/elements/ApiOperationDocumentElement.js:540-579 | the field becomes the header text defined by `SnippetHeaders` |
| OperationDocument.ApiOperationDocument.ComputeSnippetsPayload | src/elements/ApiOperationDocumentElement.js:491-535 | the field becomes the payload text of the chosen example, or undefined; it reports the TypeError of a matching payload without a schema |
| OperationDocument.ApiOperationDocument.PreselectResponse | src/elements/ApiOperationDocumentElement.js:389-410 | an absent or empty list changes nothing; otherwise the list becomes sorted by status code, and the selection is kept if some response has it, else it becomes the lowest code |
| OperationDocument.ApiOperationDocument.SetServerId | src/elements/ApiOperationDocumentElement.js:102-111 | the same id changes nothing; a new one is stored, then the URL is recomputed from the server the new id selects (unless the API is asynchronous), then the query string, with its TypeError reported as `ComputeParametersValue` reports it |
| OperationDocument.ApiOperationDocument.RequestMimeChanged | src/elements/ApiOperationDocumentElement.js:618-624 | the media type is stored; the payload text becomes the one of the example chosen for the new type; the headers are recomputed unless the payload step threw |
| ApiDocumentation.EndpointLink | api-documentation.js:349-361 | no item gives no link; the id is the item's, and the label is the schema name when truthy, else the path |
| ApiDocumentation.MethodLink | api-documentation.js:415-427 | no item gives no link; the id is the item's, and the label is the schema name when truthy, else the method |
| ApiDocumentation.FirstIndexOf | api-documentation.js:378-382 | the position of the first node with the id, or the end |
| ApiDocumentation.Neighbour | api-documentation.js:378-382 | a neighbour is a node of the list |
| ApiDocumentation.FindNeighbour | api-documentation.js:378-383 | the search loop returns the node beside the first match, or nothing |
| ApiDocumentation.EndpointNeighbour | api-documentation.js:370-384 | nothing without a web API, a truthy selection or an endpoint list; a neighbour is one of the endpoints |
| ApiDocumentation.FirstIndexIs | api-documentation.js:378-382 | a position that matches, or the end, with no match before it is the first match |
| ApiDocumentation.ComputeEndpointPrevious | api-documentation.js:370-384 | nothing without a web API, a truthy selection or endpoints; else the link of the endpoint before the first match |
| ApiDocumentation.ComputeEndpointNext | api-documentation.js:393-407 | nothing without a web API, a truthy selection or endpoints; else the link of the endpoint after the first match |
| ApiDocumentation.ComputeMethodPrevious | api-documentation.js:437-447 | nothing without a method list; else the link of the method before the first match |
| ApiDocumentation.ComputeMethodNext | api-documentation.js:457-467 | nothing without a method list; else the link of the method after the first match |
| ApiDocumentation.NeighbourMissing | api-documentation.js:378-383 | without a match there is no previous and no next node; the first node has no previous one |
| ApiDocumentation.NeighboursOfMatch | api-documentation.js:378-383 | the first match's neighbours are the nodes on either side of it, none before the first node and none after the last |
| ApiDocumentation.NextPreviousInverse | api-documentation.js:370-407 | with distinct ids, the previous of the next node and the next of the previous node are the selection |
| ApiDocumentation.DeclById | api-documentation.js:620-626 | the first declaration with the selected id; undefined exactly without declarations or a match |
| ApiDocumentation.RenderInlineEndpoint | api-documentation.js:519-524 | off outside inline mode; in inline mode, on exactly when a method or an endpoint is selected |
| ApiDocumentation.RenderEndpoint | api-documentation.js:531-533 | on exactly when an endpoint is selected and the inline view is not on for it |
| ApiDocumentation.RenderMethod | api-documentation.js:540-542 | on exactly when a method is selected and the inline view is not on for it |
| ApiDocumentation.RenderExclusive | api-documentation.js:519-542 | the inline and standalone views are never on together; with at most one of the endpoint and method flags set, at most one view is on; some view is on exactly when one of them is set |
| ApiDocumentation.FlagsFor | api-documentation.js:316-341 | at most one view flag is set, and one is set exactly when the type is one of the six view names |
| ApiDocumentation.Replacement | api-documentation.js:495-509 | the shown model follows the computed one in presence and `@id`, and remains the current object exactly when presence and `@id` already agree |
| ApiDocumentation.ReplacementIdempotent | api-documentation.js:479-510 | a second update with the same computed model changes nothing |
| ApiDocumentation.ApiDocumentationElement.constructor | api-documentation.js:261-264 | nothing is selected, no flag is set and no endpoint model is shown |
| ApiDocumentation.ApiDocumentationElement.NavigationHandler | api-documentation.js:304-310 | a passive event changes nothing; any other copies the selection and its type |
| ApiDocumentation.ApiDocumentationElement.NavigationOccured | api-documentation.js:316-341 | each flag becomes whether the type is its view name, so by `FlagsFor` at most one flag is set |
| ApiDocumentation.ApiDocumentationElement.UpdateEndpoint | api-documentation.js:479-510 | nothing changes without a selection, a web API, or either view; otherwise the shown model is replaced as `Replacement` states |

## Findings

| source | as written | input that shows it | evidently intended | confidence | as-written member | corrected member |
|---|---|---|---|---|---|---|
| src/elements/ApiOperationDocumentElement.js:684 | the serial-comma branch tests the length of the result string, which is still `''`, so it is never taken | traits named a, b and c render "a, b, c" | three or more names render "a, b, and c" | high; not executed | OperationDocument.TraitsTextThreeNames | OperationDocument.TraitsTextIntendedSerial |

`OperationDocument.TraitsText` models the code as written and
`OperationDocument.TraitsTextIntended` models the corrected test.

## Left out

- Templates, styles and rendering (`render`, the `*Template` methods, `src/elements/styles/ApiOperation.js`, the re-exports in `index.js`) are left out because they are presentation. Only the trait-name text of `traitsTemplate` is modelled.
- AMF graph lookups and serialisation (`_computeApi`, `_computeMethodModel`, `_computeMethodEndpoint`, `_computeEndpointModel`, `_getServers`, `_getValue`, `_ensureArray`, `_computeDeclares`) are left out because their code is not part of this model. Their results are inputs.
- `UrlLib.computeEndpointUri`, `UrlLib.applyUrlParameters`, `ApiSchemaValues`, `ApiSchemaGenerator`, `QueryParameterProcessor` and `evaluateExample` are left out because their code is not part of this model. Each is an input value or an uninterpreted function parameter.
- `processGraph`, its asynchronous ordering and the debounce in `src/elements/ApiDocumentationBase.js` are left out because they are timers and scheduling. A TypeError is reported to the caller, but nothing of how `processGraph` continues is modelled.
- DOM events, `requestUpdate`, the Polymer observers that call `_navigationOccured` and `_updateEndpoint`, listener registration and `dispatchEvent` are left out because they are event wiring.
- `src/elements/ApiDocumentationDocumentElement.js` and `demo/api-resource.js` are left out. The first only forwards to the serializer; the second is a demo page.
- The setters other than `serverId` (`operation`, `endpoint` and `baseUri`) are left out. They store a value and call the methods modelled here.
- `toUpperCase` and `toLowerCase` are modelled for ASCII letters only. Unicode case mapping is left out.
- Status codes are natural numbers. `Number()` parsing of non-numeric codes and the comparator's `NaN` behaviour are left out, and so is a selected status of `''`, which is modelled as no selection.
- Responses carry only their status code. The sort is therefore determined by sortedness and permutation, and the stability of `Array.prototype.sort` is not stated.
- OperationDocument.ApiOperationDocument.PreselectResponse: sorts a list held in the component, not the array it shares with the operation, so aliasing between the two is not modelled.
- The query dictionary is an ordered list of entries. JavaScript's placing of integer-like keys before other keys is not modelled.
- A shape's `types` and a union's `anyOf` are always present. A graph node missing them would throw in the source, and that case is not modelled.
- Number values are integers. Fractional numbers and their `String(...)` rendering are left out.
