# Product catalogue with AI enrichment, modelled in Dafny

The system is a small Next.js catalogue. Users upload basic product records
(name, brand, barcode, comma-separated image URLs). A product card asks a
large-language-model completion service to enrich the product with derived
attributes: weight, ingredients, description, storage, pack size, colour,
material, width, height and warranty. The card then saves the enrichment
back to the relational store.

This project models the parts of the system that compute or decide something:

- **The shared product types.** See `product_types.dfy`.
- **The store's row.** The row stores each Measure as a value column plus a
  unit column, and is read back as a Product. See `columns.dfy`.
- **The store's column typing and update semantics.** See `store_columns.dfy`.
- **The save route.** It validates the AI-echoed id and looks up the stored
  row. Its update keeps the identity fields and coerces the enrichable ones,
  and it answers with the row as a Product. See `save_route.dfy` and
  `field_rules.dfy`.
- **The enrichment route.** It fills the prompt template, builds the chat
  request, and turns the completion service's reply into a decoded
  enrichment or an error response. See `enrich_route.dfy`.
- **The fenced-block search of that route.** It is the leftmost match with
  the shortest lazy group. See `completion.dfy`.
- **The listing route and the create route.** See `list_route.dfy` and
  `create_route.dfy`.
- **The product card.** It flattens the AI reply into the save payload, and
  its enrich handler chains the two routes. See `card_payload.dfy` and
  `product_card.dfy`.
- **The home page.** It holds the product list, the search filter, the add
  and fetch handlers and the form toggles. See `home_page.dfy`.
- **The upload form.** Its image-field parsing and submit handler are in
  `upload_form.dfy`.

JavaScript values crossing JSON boundaries are a datatype. The JavaScript
operators the code applies to them each have a function: truthiness, `??`,
`||`, `?.`, `Array.isArray` and `Number(...)` (see `js_values.dfy`).

The surroundings are inputs, not models:

- The store is a map from id to row.
- The completion service's reply is a value.
- `JSON.parse` is a function parameter, and so is the string-to-number
  conversion inside `Number(...)`.
- An id the store's sequence assigns is an input known to be unused.
- Whether the store can be reached is a boolean input of the create and save
  routes. The listing route is given the rows its query returns, or None
  when the query throws.

Behaviour of the code worth noting:

- **The save route takes the row's id from the AI reply.** The
  `id` echoed by the completion selects the row. It is not the card's
  own id, so a reply echoing another stored id updates that product
  (`EnrichSavedWhen`).
- **There is no schema validator with an enumeration check or numeric-string
  rejection.** A storage value outside the four offered is stored as it is.
  A warranty such as `"2"` or `"2 years"` is not a number, so the card
  sends `null`.
- **The warranty, pack size and every Measure value are never stored as
  null after a card save.** The save route tests `!== undefined` and
  applies `Number(null)`, which is 0, to the card's `null`
  (`CardSaveMeasureValues`, `CardSaveCounts`, `NumberOrNullTwice`).
- **The identity fields are re-asserted from the stored row by the save
  route.** The card's copies of them are ignored (`UpdateKeepsIdentity`).

## Model

| member | source | states |
|---|---|---|
| ProductTypes.OmitIdRoundTrip | src/types/product.ts:25-27 | A ProductCreate is exactly a Product without its id: adding and removing the id are inverse. |
| Columns.DecodeMeasure | src/app/api/product/route.ts:26-34 | A Measure is present exactly when both its value and unit columns are non-null, and then holds them. |
| Columns.DecodeEncodeMeasure | src/app/api/save-product/route.ts:82-100 | Splitting a Measure into its columns and reassembling it gives it back. |
| Columns.HalfPopulatedPair | src/app/api/product/route.ts:26-34 | A half-null pair of columns reads as no Measure. A pair re-encodes to itself exactly when both or neither column is null. |
| Columns.RowToProduct | src/app/api/product/route.ts:14-42 | Every column is copied into the Product. Each Measure is present iff both its columns are, and holds their values. |
| Columns.ProductRowRoundTrip | src/app/api/product/route.ts:14-42 | Storing a Product with images and reading its row back gives the Product back. |
| Columns.RowProductRoundTrip | src/app/api/save-product/route.ts:75-102 | Reading a row as a Product and storing it again gives the row back exactly when no value/unit pair is half-null. |
| StoreColumns.ColumnsReadBackTheirValues | src/app/api/create-product/route.ts:11-31 | Each column type accepts the JSON form of the value it stores and reads that value back. |
| StoreColumns.WriteRow | src/app/api/save-product/route.ts:67-70 | An update is rejected when any entry has the wrong type for its column. Otherwise each written column takes its value and the id is kept. |
| StoreColumns.WriteRowReadsBack | src/app/api/save-product/route.ts:67-70 | After an accepted update, each written column reads back as the value written and every other column as it was. |
| StoreColumns.WritableAcceptsEveryEntry | src/app/api/save-product/route.ts:67-70 | In a writable update every entry is accepted by its column. |
| FieldRules.NumberOrNull | src/app/api/save-product/route.ts:42 | `v !== undefined ? Number(v) : null` is null exactly for undefined, otherwise the number. |
| FieldRules.ArrayOrEmpty | src/app/api/save-product/route.ts:44 | An array is kept and anything else becomes `[]`. |
| FieldRules.StorageList | src/app/api/save-product/route.ts:45-49 | An array is kept, another truthy value becomes a one-element list, and a falsy value becomes `[]`. |
| FieldRules.NormalisingTwiceIsOnce | src/components/ProductCard.tsx:47-54 | Normalising the ingredients or storage field twice, first on the card and then in the route, equals normalising it once. |
| FieldRules.NumberOrNullTwice | src/components/ProductCard.tsx:55-58 | Converting a number twice keeps it, but the card's null for a missing number becomes 0 at the route. |
| SaveProductRoute.UpdateData | src/app/api/save-product/route.ts:33-58 | The update has an entry for every column, and none of its entries is undefined. |
| SaveProductRoute.DropUndefined | src/app/api/save-product/route.ts:61-64 | The clean step removes exactly the undefined entries, keeping null and other falsy values. |
| SaveProductRoute.DropUndefinedEntry | src/app/api/save-product/route.ts:61-64 | Each entry survives the clean step unless its value is undefined. |
| SaveProductRoute.DropUndefinedKeepsDefined | src/app/api/save-product/route.ts:61-64 | The clean step changes nothing in an update without undefined values, such as the route's. |
| SaveProductRoute.UpdateAccepted | src/app/api/save-product/route.ts:67-70 | The store accepts the update exactly when the payload's string and list fields have their columns' types. |
| SaveProductRoute.UpdateKeepsIdentity | src/app/api/save-product/route.ts:33-38 | The update keeps the row's id, name, brand, barcode and images. |
| SaveProductRoute.UpdateWritesStrings | src/app/api/save-product/route.ts:41-56 | Each nullable string column takes the payload's string, or becomes null when the field is missing or null. |
| SaveProductRoute.UpdateWritesNumbers | src/app/api/save-product/route.ts:42-57 | Each numeric column takes Number() of the payload's field, or becomes null when the field is undefined. |
| SaveProductRoute.UpdateWritesLists | src/app/api/save-product/route.ts:44-49 | The ingredient and storage columns take the payload's normalised lists. |
| SaveProductRoute.SaveProduct | src/app/api/save-product/route.ts:8-121 | A failure is a non-2xx response and leaves the store as it was. A success writes only the row it names, keeps that row's identity fields, and answers with the row read back as a Product. |
| SaveProductRoute.SaveRejectsNonNumericId | src/app/api/save-product/route.ts:13-21 | A payload whose id is not a number is refused with 400 and its message, and nothing is written. |
| SaveProductRoute.SaveFailsWhenUnreachable | src/app/api/save-product/route.ts:24-27 | With a numeric id and an unreachable store, the lookup throws: 500, and nothing is written, whether or not the id is stored. |
| SaveProductRoute.SaveRejectsUnknownId | src/app/api/save-product/route.ts:24-31 | With the store reachable, a numeric id that names no stored row is refused with 404 and its message, and nothing is written. |
| SaveProductRoute.SaveWritesEnrichment | src/app/api/save-product/route.ts:24-70 | For a stored id the route succeeds exactly when the store can be reached and the payload is well typed. It then replaces that row by the updated row. |
| SaveProductRoute.SavedMeasures | src/app/api/save-product/route.ts:82-100 | Each Measure in the response is present exactly when the payload gives its number (null counts) and a string unit, and then holds them. |
| EnrichRoute.Fill | src/app/api/enrich/route.ts:8-34 | Whatever the template text, the filled prompt contains the serialised product and every offered storage value. |
| EnrichRoute.Prompt | src/app/api/enrich/route.ts:8-34 | The prompt embeds the serialised product and offers all four storage values. |
| EnrichRoute.PromptOffersStorageValues | src/app/api/enrich/route.ts:14-18 | Any text around the storage list still contains each of the four storage values. |
| EnrichRoute.Respond | src/app/api/enrich/route.ts:49-89 | A non-2xx reply gives an error with the upstream status and its text. A 2xx reply gives the decoded candidate when it parses, and a 500 parse error otherwise. |
| EnrichRoute.RespondErrorsAreNotOk | src/app/api/enrich/route.ts:49-55 | No error response of the route has a 2xx status, so the caller's `res.ok` check sees every failure. |
| EnrichRoute.UpstreamFailureSkipsParsing | src/app/api/enrich/route.ts:49-55 | On a non-2xx reply the answer depends only on the status and the body text. |
| EnrichRoute.RespondDecodesFencedBody | src/app/api/enrich/route.ts:63-80 | A 2xx completion with a fenced block is decoded from the fenced body alone. |
| Completion.OpeningIsUnique | src/app/api/enrich/route.ts:65 | The two opening forms cannot both start at one index, so a match's start fixes where its group begins. |
| Completion.FirstClose | src/app/api/enrich/route.ts:65 | The lazy group ends at the first closing fence at or after its start, and there is none before it. |
| Completion.MatchAt | src/app/api/enrich/route.ts:65 | A match tried at one index is found exactly when the regular expression matches there, with the shortest group. |
| Completion.Search | src/app/api/enrich/route.ts:65 | The search finds a match with the shortest group and nothing before it, or none when no match exists at or after its start. |
| Completion.FindFence | src/app/api/enrich/route.ts:65 | `raw.match` finds the leftmost match with the shortest group, and finds none exactly when there is no match. |
| Completion.FenceIsLeftmostShortest | src/app/api/enrich/route.ts:65 | The found match is the unique leftmost match with the shortest group. |
| Completion.Extract | src/app/api/enrich/route.ts:65-75 | The JSON candidate is never longer than the completion. ExtractFencedBody, ExtractEmptyBodyFallsBack and ExtractWithoutFence together fix its value on every input, and ExtractIsRawOrFencedBody bounds what it can be. |
| Completion.ExtractFencedBody | src/app/api/enrich/route.ts:65-69 | With a fenced block whose body is non-empty, the candidate is exactly that body. |
| Completion.ExtractEmptyBodyFallsBack | src/app/api/enrich/route.ts:68-75 | A fenced block with an empty body is falsy, so the whole completion is the candidate. |
| Completion.ExtractWithoutFence | src/app/api/enrich/route.ts:70-75 | Without a fenced block, the whole completion is the candidate, unchanged. |
| Completion.ShortestHasNoClosing | src/app/api/enrich/route.ts:65 | A group with no closing fence starting inside it contains no closing fence. |
| Completion.FencedBodyHasNoClosing | src/app/api/enrich/route.ts:65 | A fenced candidate never contains the closing fence. |
| Completion.ExtractIsRawOrFencedBody | src/app/api/enrich/route.ts:63-75 | The candidate is either the whole completion or a part of it that contains no closing fence. |
| Completion.NoBacktickNoFence | src/app/api/enrich/route.ts:63-75 | A completion without a backtick is its own candidate. |
| Completion.ExtractExampleFenced | src/app/api/enrich/route.ts:63-75 | Prose around a json-tagged fence yields only the fenced JSON `{"color":"red"}`. |
| Completion.ExtractExampleBare | src/app/api/enrich/route.ts:70-75 | Bare JSON is its own candidate. |
| ListProductsRoute.FormatProducts | src/app/api/product/route.ts:14-42 | It gives one Product per row, in order: the i-th Product is the i-th row read back, with the row's id. Each Product stores back to its row exactly when the row's pairs are consistent. |
| ListProductsRoute.GetProducts | src/app/api/product/route.ts:9-57 | The route fails exactly when the query throws, with 500 and its fixed message. Otherwise it answers with every row read back as a Product, in the query's order. |
| ListProductsRoute.ListingStoredProducts | src/app/api/product/route.ts:14-42 | Listing the rows stored for Products with images gives those Products back. |
| ListProductsRoute.ListingShowsSavedProduct | src/app/api/product/route.ts:14-42 | After a save, the listing shows the saved product exactly as the save route answered with it. |
| CreateProductRoute.CreateProduct | src/app/api/create-product/route.ts:7-46 | A failure is 500 with the fixed message and leaves the store unchanged. A success stores exactly one new row under the new id. |
| CreateProductRoute.CreateAccepted | src/app/api/create-product/route.ts:11-31 | With a reachable store, creation succeeds exactly when the name and brand are strings, the barcode is a string or falsy, and the images are a string list or falsy. |
| CreateProductRoute.CreateCopiesIdentity | src/app/api/create-product/route.ts:13-16 | Name and brand are stored as sent. A falsy barcode becomes null and falsy images become `[]`; truthy ones are stored as sent. |
| CreateProductRoute.EmptyBarcodeIsNull | src/app/api/create-product/route.ts:15 | The empty-string barcode of an untouched form field is stored as null. |
| CreateProductRoute.CreatedDefaults | src/app/api/create-product/route.ts:17-29 | Every enrichable column of a created row holds its fixed default, whatever the request contains. |
| CreateProductRoute.CreateIgnoresOtherFields | src/app/api/create-product/route.ts:11-31 | Requests that agree on the four identity fields create the same row. |
| CreateProductRoute.CreatedRowHasNoMeasures | src/app/api/create-product/route.ts:33-40 | The echoed row has consistent pairs and no Measures, and it is exactly the row that its Product is stored as. |
| CardPayload.Payload | src/components/ProductCard.tsx:35-73 | The save payload is an object literal. |
| CardPayload.PayloadReads | src/components/ProductCard.tsx:35-73 | Each of the eighteen payload keys reads back the value it was given. |
| CardPayload.Flatten | src/components/ProductCard.tsx:35-73 | It copies the id, name and brand, and defaults falsy barcode, images, description, colour and material. Each of the three Measures splits into its value and unit entries, the ingredient and storage lists are normalised, the pack size is Number() of it or null, and a non-number warranty is dropped. |
| CardPayload.FlattenDefinesEnrichableFields | src/components/ProductCard.tsx:35-73 | No enrichable entry of the payload is undefined. Each number is a number or null, each unit and each text is non-undefined, the images are truthy, and the lists are arrays. |
| CardPayload.FlattenMeasuresIndependent | src/components/ProductCard.tsx:42-70 | Replacing one field of the enrichment leaves the value and unit entries of every other Measure unchanged. The replaced Measure's entries are decided by the new field alone. |
| CardPayload.DataForSave | src/components/ProductCard.tsx:32-73 | A null or undefined enrichment throws. Otherwise the payload reads back every flattened field. |
| ProductCardComponent.SaveBody | src/components/ProductCard.tsx:79 | The save request body carries the payload under `enriched`. |
| ProductCardComponent.EnrichAndSave | src/components/ProductCard.tsx:18-98 | A failure of either call leaves the store unchanged. A success rewrites only the row it names, keeps its identity fields, and yields that row as a Product. |
| ProductCardComponent.CardSaveTarget | src/components/ProductCard.tsx:75-86 | The save of the card's payload succeeds exactly when the enrichment echoes a numeric id, the store can be reached, the id is stored, and the flattened fields are well typed. |
| ProductCardComponent.CardSaveMeasureValues | src/components/ProductCard.tsx:42-70 | After a card save no Measure value column is null; a missing value is stored as 0. |
| ProductCardComponent.UpdateFromCardMeasureValues | src/components/ProductCard.tsx:42-70 | The update written for a card payload stores the converted number, or 0, in each Measure value column. |
| ProductCardComponent.CardSaveCounts | src/components/ProductCard.tsx:55-72 | After a card save the pack size is never null, and a warranty that is not a number is stored as 0. |
| ProductCardComponent.CardSaveStrings | src/components/ProductCard.tsx:41-60 | A falsy description is stored as `""`, and a falsy colour or material as null. For each of the weight, width and height, a nullish unit is stored as null and any other unit is a string stored as sent. Truthy texts are stored as sent. |
| ProductCardComponent.CardSaveLists | src/components/ProductCard.tsx:47-54 | The stored lists are the card's normalised lists, unchanged by the route's second normalisation. |
| ProductCardComponent.CardSaveMeasures | src/components/ProductCard.tsx:42-70 | Each of the three saved Measures (weight, width, height) is present exactly when the enrichment gives its unit, and then holds the stored number and that unit. |
| ProductCardComponent.EnrichFailsOnUpstreamError | src/components/ProductCard.tsx:28-30 | A non-2xx completion reply saves nothing and changes nothing. |
| ProductCardComponent.EnrichSavedWhen | src/components/ProductCard.tsx:18-98 | The enrichment is saved exactly when the reply is 2xx, decodes to a non-null value echoing a stored id, the store can be reached, and the flattened fields are well typed. The saved id is the echoed one. |
| ProductCardComponent.ProductCard.constructor | src/components/ProductCard.tsx:11-13 | The card starts with the given product and not loading. |
| ProductCardComponent.ProductCard.HandleEnrich | src/components/ProductCard.tsx:18-98 | The displayed product becomes the saved one only on full success, `loading` ends false, and the store is the one after the save. |
| HomePage.Filter | src/app/page.tsx:75-77 | The filtered list is no longer than the list. A product is shown exactly when it is listed and the lower-cased name, a space and the brand include the lower-cased term. |
| HomePage.FilterIsSubsequence | src/app/page.tsx:75-77 | The shown products keep the list's order. |
| HomePage.FilterKeepsMultiplicity | src/app/page.tsx:75-77 | A matching product is shown as many times as it is listed, and any other not at all. |
| HomePage.FilterEmptyTerm | src/app/page.tsx:75-77 | An empty search shows every product. |
| HomePage.FilterIgnoresCase | src/app/page.tsx:75-77 | Terms that lower-case alike show the same products. |
| HomePage.FilterUpperCaseTerm | src/app/page.tsx:75-77 | Upper-casing the term changes nothing. |
| HomePage.FilterIdempotent | src/app/page.tsx:75-77 | Filtering the shown products again with the same term changes nothing. |
| HomePage.FilterAfterPrepend | src/app/page.tsx:75-77 | A product added at the head is shown at the head exactly when the term matches it. |
| HomePage.SearchSpansNameAndBrand | src/app/page.tsx:75-77 | "widget acme" finds the Widget of Acme; "acme widget" does not. |
| HomePage.CreateRequestBody | src/app/page.tsx:50-54 | The request body is an object holding the four fields the create route reads. |
| HomePage.RequestBodyNames | src/app/page.tsx:50-54 | The create route reads the name and brand back as sent. |
| HomePage.RequestBodyImages | src/app/page.tsx:50-54 | The create route reads the barcode and images back as sent, null where absent. |
| HomePage.SentProductCreated | src/app/page.tsx:48-73 | With a reachable store, every product the page sends is created. Its name, brand and images are stored, with a blank barcode as null. |
| HomePage.SubmittedProductListed | src/app/page.tsx:48-73 | A product submitted from the form is added as exactly the submitted product with its new id, a blank barcode becoming null. |
| HomePage.Home.constructor | src/app/page.tsx:11-15 | The page starts with no products, loading, no error, the form hidden and an empty search. |
| HomePage.Home.FilteredProducts | src/app/page.tsx:75-77 | The shown products are the listed ones the term matches, in order. |
| HomePage.Home.HandleAddProduct | src/app/page.tsx:48-73 | A created product is prepended and the form hidden. A failure sets the error message and keeps the list. |
| HomePage.Home.FetchAllProducts | src/app/page.tsx:19-41 | The listed products replace the list, or the route's error message is shown. Loading ends either way. |
| HomePage.Home.ToggleForm | src/app/page.tsx:89 | The upload button flips the form's visibility and nothing else. |
| HomePage.Home.CancelForm | src/app/page.tsx:137 | Cancelling hides the form and changes nothing else. |
| HomePage.Home.SetSearchTerm | src/app/page.tsx:125 | Typing in the search box sets the term and nothing else. |
| UploadForm.ParseImages | src/components/ProductUploadForm.tsx:44-46 | An empty field gives `[]`. Otherwise it gives one URL per comma plus one, each without commas and without surrounding whitespace. |
| UploadForm.ParseImagesOfJoin | src/components/ProductUploadForm.tsx:44-46 | Comma-free pieces typed in joined by commas come back trimmed. |
| UploadForm.ParseImagesJoin | src/components/ProductUploadForm.tsx:44-46 | Trimmed, comma-free URLs joined by commas parse back to themselves, except the single empty URL. |
| UploadForm.ParseImagesTrailingComma | src/components/ProductUploadForm.tsx:44-46 | A trailing comma leaves an empty URL at the end of the list. |
| UploadForm.NewProduct | src/components/ProductUploadForm.tsx:40-57 | The submitted product always has an image list. It is empty exactly when the field is empty, and its URLs have no commas and no surrounding whitespace. |
| UploadForm.SubmittedProductShape | src/components/ProductUploadForm.tsx:40-57 | A submission carries the name, brand and barcode exactly as typed, and `""` for the description, colour and material. Every number and Measure is null, and the ingredient and storage lists are empty. |
| UploadForm.Form.constructor | src/components/ProductUploadForm.tsx:17-22 | Every input starts empty. |
| UploadForm.Form.Change | src/components/ProductUploadForm.tsx:112-160 | Typing into one input sets that field, and the other three stay. |
| UploadForm.Form.HandleSubmit | src/components/ProductUploadForm.tsx:39-62 | The submitted product is built from the inputs before the reset, and then every input is cleared. |
| Strings.LowerForgetsCase | src/app/page.tsx:76 | Lower-casing forgets case, and lower-casing twice is once. |
| Strings.Trim | src/components/ProductUploadForm.tsx:45 | The trim is the part of the string between two all-whitespace runs, and it neither starts nor ends with whitespace. |
| Strings.TrimIdempotent | src/components/ProductUploadForm.tsx:45 | Trimming twice is trimming once. |
| Strings.TrimKeepsOut | src/components/ProductUploadForm.tsx:45 | Trimming adds no character. |
| Strings.SplitShape | src/components/ProductUploadForm.tsx:45 | Splitting gives one piece more than there are separators, and no piece contains the separator. |
| Strings.JoinSplit | src/components/ProductUploadForm.tsx:45 | Joining the pieces of a split gives the string back. |
| Strings.SplitJoin | src/components/ProductUploadForm.tsx:45 | Splitting a join of separator-free pieces gives the pieces back. |

## Left out

- The completion service (Groq) is not modelled. The HTTPS call, the bearer token read from the environment, and the envelope's `choices[0].message.content` are represented by an `Upstream` value: a status, an error text and the completion text.
- The card's enrichment is modelled against the serialised product rather than against the request. The enrichment route's request is `BuildRequest` of the serialised product and nothing else, so the card is given the service's reply for each serialised product.
- BuildRequest has no contract of its own. What it promises about the prompt is stated by `Prompt` and `Fill`.
- The store (Prisma) is not modelled as a database. It is a map from id to row, and Prisma's type validation is modelled as each column's type. The text of its exceptions is not modelled: a thrown error reads as `Thrown(prefix)`.
- Integer columns are reals. The model does not check that pack size or warranty is an integer.
- A fractional numeric id is treated as naming no row, so it gets 404. Prisma would probably raise a validation error (500) instead.
- Respond: the enrichment route's uncaught throws are not modelled. A `fetch` that rejects, or a reply envelope without `choices[0].message.content`, throws outside any `try`, and the framework answers 500. The model's `Upstream` always carries a status, a text and a completion.
- SaveProduct: one `reachable` input stands for both the lookup and the update. A store that fails between the two is not modelled separately; its answer would be the same 500.
- The P2025 branch of the save route is not modelled, because it needs a row deleted between the lookup and the update.
- `JSON.parse` is a parameter, and so are `JSON.stringify` of the product and `Number(...)` on strings, arrays and objects.
- The JSON round trip of a request body is taken as the identity. JSON serialisation corner cases are not modelled: dropped undefined keys, NaN and the infinities, and `toJSON`.
- `toLowerCase` and `trim` are modelled over ASCII only, with no Unicode case mapping or Unicode whitespace.
- Rendering, the image portal, the mount animation of the form, the loading and error views, and console logging are not modelled.
- The delete route and the card's delete handler are not part of this model.
- Concurrency is not modelled: interleaved requests and React's asynchronous state updates appear as one step each.
- The page fetches on mount. Only the handler is modelled, not the effect that calls it.
- The page's error message on a failed create is `"Failed to add product: " + statusText`. The `error.message ||` fallback is not separately modelled, because that message is never empty.
- StoreColumns.WritableAcceptsEveryEntry: states only that a writable update's entries are accepted, not the converse. The converse is the definition of Writable.
