# Supplier cyber-risk dashboard: data-shaping core in Dafny

This project models the data layer of a Streamlit dashboard that shows a
supplier's cyber-risk posture against the NIST Cybersecurity Framework
(CSF) 2.0. It proves properties of that model. The dashboard reads a
risk-scoring REST service. It keeps one JSON bundle per company on disk.
It turns the service's loosely shaped answers into the tables behind its
charts. The model covers:

- **The CSF tables** (`nist_mappings.dfy`, `nist_helpers.dfy`). These are
  the six functions, their identifiers (L2 categories), the controls of
  each identifier, and the mapping from the external finding categories
  to controls. The names and identifiers are written out as in the
  source. Each control is stored as an identifier and a two-digit number,
  and its text `XX.YY-NN` is rendered from them. Lemmas prove the
  shape of the tables: every control is `XX.YY-NN`, is in normal form,
  and is listed under the identifier that is its prefix. Every external
  control appears in the function tables. No control maps two external
  categories.
- **Control normalisation** (`normalization.dfy`). `norm_ref` and `prefix`
  are specified with their hyphen and segment branches.
  - Idempotence is proved.
  - So is the fact that normalising keeps the prefix.
  - Both hold only when the normal form does not begin with whitespace. A
    counterexample lemma shows that this precondition is needed.
- **The bundle layer** (`json_handler.dfy`, `bundle_store.dfy`).
  - The recursive removal of hypermedia keys.
  - The builder of one canonical record per company.
  - The file store with its build, ensure-missing, refresh and rebuild
    passes. `BundleStore` is a class whose fields are the directory's
    names, contents and modification times. Its methods are proved
    against value-level pass functions.
- **The two service clients** (`api_client.dfy`, `risk_client.dfy`). They
  cover the base URL, URL assembly, the single retry at the
  slash-toggled URL, body handling, the `items` envelope and the
  percent-encoded category segment. The network is a parameter: the
  answer the service gives for each URL.
- **The service layer and table helpers** (`services.dfy`, `helpers.dfy`,
  `dataframe_utils.dfy`). They cover company options, the domain filter,
  the domain overview, column resolution, the shape dispatch and the
  tolerant number extractor.
- **The chart data** (`charts_helpers.dfy`, `csf_scan.dfy`,
  `internal_csf_charts.dfy`, `external_csf_charts.dfy`,
  `distribution_l1_csf_charts.dfy`, `charts.dfy`,
  `l2_mapping_table.dfy`). Each chart function is modelled up to the rows
  it hands to the charting library, including the cases where it returns
  `None` and those where an exception escapes. The loops the source
  writes are methods proved against those row functions.
- **The domains table of the company tab** (`company_tab.dfy`).

`text.dfy` and `json.dfy` give the Python operations the code relies on:
- `str` methods with ASCII case mapping;
- code-point string order;
- truthiness, `dict.get`, `a or b`, `str(x)` and `float(x)` on JSON
  values.

`a or b` returns the first truthy operand, or else the last operand.

Where the code and its documentation disagree, the model follows the
code:
- Errors from the risk-grade, category-GPA and findings fetches escape
  from the bundle build. They are not absorbed.
- `raise_for_status` raises for status 400 to 599 only.

Several chart modules import names that the files they import from do not
define:
- `charts/external_csf_charts.py:8` imports `extract_rating`,
  `detect_control_ref_col`, `fmt_or_dash` and `csv_plain` from
  `helpers.py`.
- `charts/distribution_l1_csf_charts.py:10-11` imports
  `detect_control_ref_col` from `helpers.py` and
  `get_company_category_scores_df` from `services.py`. The latter is
  defined in `helpers.py`.
- `charts/external_csf_charts.py:47` imports `get_company_category_scores_df`
  from `services.py`, where it is not defined either.
- `charts/internal_csf_charts.py:6` imports `controls_for_finding`.
- `charts.py:7` imports `CSF_FUNCTION_FULL`.
- `nist/nist_helpers.py:6-11` imports `FUNCTION_IDENTIFIER_TO_FUNCTION`,
  `FUNCTION_TO_CONTROLS`, `CATEGORY_TO_FUNCTION_IDENTIFIERS` and
  `CSF_FUNCTION_FULL` from `nist/nist_mappings.py`. That module defines
  `CSF_L1_FUNCTION_FULL`, `FUNCTION_L1_IDENTIFIER_TO_FUNCTION_L2` and
  `FUNCTION_L2_TO_CONTROLS` instead, so the import fails and so does every
  module that imports `nist_helpers`. The `NistHelpers` members therefore
  take the three tables they read as parameters: `idents` for
  `FUNCTION_IDENTIFIER_TO_FUNCTION`, `controls` for `FUNCTION_TO_CONTROLS`
  and `categories` for `CATEGORY_TO_FUNCTION_IDENTIFIERS`.
  `CSF_FUNCTION_FULL` is not read there: `get_function_from_code_or_ref`
  writes its six codes out, as `NistMappings.FunctionCodes` does.

The model gives these names the definitions of
`charts/charts_helpers.py` and `helpers.py`. `_norm_ref` and `_prefix` in
`charts/charts_helpers.py:10-46` are textual copies of
`utils/normalization.py:9-71`, so both are `Normalization.NormRef` and
`Normalization.Prefix`. `CATEGORY_NAMES` and `extract_number` in
`utils/dataframe_utils.py` repeat `helpers.py` and are modelled once, in
`Helpers`.

The ensure-missing pass reads existing company ids from file-name stems.
A company whose id text contains `_data.json` therefore has its existing
file overwritten (`Store.MissingOverwritesCollision`).

## Model

| member | source | states |
|---|---|---|
| JsonHandler.DropTransport | json_handler.py:54-58 | keeps exactly the bindings whose key is not `href`, `links`, `link` or `rel` in any case, in order |
| JsonHandler.StripTransport | json_handler.py:51-62 | dicts stay dicts, lists keep their length, any other value is returned as it is |
| JsonHandler.DropTransportKeys | json_handler.py:54-58 | the keys left are the input's keys with the transport keys removed, in order |
| JsonHandler.StripKeepsKeys | json_handler.py:52-59 | a stripped dict keeps every non-transport key, in order |
| JsonHandler.StripClean | json_handler.py:51-62 | no transport key is left in any dict at any depth |
| JsonHandler.DropTransportNone | json_handler.py:54-58 | bindings with no transport key pass through unchanged |
| JsonHandler.StripFixed | json_handler.py:51-62 | a value with no transport key at any depth is returned unchanged |
| JsonHandler.StripIdempotent | json_handler.py:51-62 | stripping twice is the same as stripping once |
| JsonHandler.Collect | json_handler.py:128-212 | a loop of steps that stops at the first exception: done exactly when every step is done, and then it holds every value in order |
| JsonHandler.FirstErrorAt | json_handler.py:128-212 | the exception raised is the one of the first step that raises |
| JsonHandler.CategoryRow | json_handler.py:130-133 | the row read from a payload is always a dict: a non-empty list's first element, the payload, or the null row |
| JsonHandler.Record | json_handler.py:146-153 | a category record has exactly the keys `Category`, `category_gpa`, `category_score`, `aggregated_at`, in order |
| JsonHandler.CategoryOutcomes | json_handler.py:129-153 | one outcome per canonical category, in order |
| JsonHandler.CompanyDomains | json_handler.py:156-162 | defined exactly when every domain entry is a dict (`d.get` raises otherwise), and then the company's domains |
| JsonHandler.Owned | json_handler.py:158-161 | keeps exactly the domains whose owner id, as text, equals the company id as text |
| JsonHandler.CleanRows | json_handler.py:189-192 | the rows kept are dicts with no `Category` key and no transport key |
| JsonHandler.FindingsOutcomes | json_handler.py:179-192 | one findings outcome per canonical category, in order |
| JsonHandler.Zip | json_handler.py:178-192 | `per_cat` pairs each category name with its rows |
| JsonHandler.DomainRec | json_handler.py:194-201 | a domain record has exactly the keys `domain_id`, `domain_name`, `domain_score`, `findings_by_category`, in order |
| JsonHandler.DomainOutcomes | json_handler.py:165-201 | one outcome per owned domain, in order |
| JsonHandler.Bundle | json_handler.py:203-212 | the bundle has exactly the seven documented keys, in order |
| JsonHandler.StripAll | json_handler.py:162 | every owned domain is stripped, and their number is kept |
| JsonHandler.DomainOutcomeDone | json_handler.py:166-201 | a domain's record is built exactly when every findings fetch for it succeeds; the domain score never matters |
| JsonHandler.DomainLoopRaises | json_handler.py:165-201 | the domain loop raises exactly when a findings fetch for one of the domains fails |
| JsonHandler.BuildDomainsOfDicts | json_handler.py:155-201 | with dict entries, the domain part raises exactly when a findings fetch for an owned domain fails |
| JsonHandler.BuildDomainsRaises | json_handler.py:155-201 | the domain part raises exactly when an entry is not a dict or a findings fetch for an owned domain fails |
| JsonHandler.BuildRaises | json_handler.py:111-212 | the build raises exactly when the company is not a dict, has no id, or the risk-grade, a category or the domain part raises |
| JsonHandler.ZeroIdIsMissing | json_handler.py:117-119 | a company whose id is 0 has no id (`0 or None` is `None`) and raises "Company has no ID" |
| JsonHandler.BundleKeysDistinct | json_handler.py:203-211 | no two bundle keys are equal |
| JsonHandler.BundleAt | json_handler.py:203-211 | each bundle field is found under its own key |
| JsonHandler.BuiltFrom | json_handler.py:111-212 | a built bundle is assembled from the stripped company, the stripped risk grade (or `{}`), the category records and the domain records |
| JsonHandler.BundleIdentity | json_handler.py:203-208 | a built bundle has schema version 1, a non-null company id, and the stripped company record |
| JsonHandler.BundleCategories | json_handler.py:128-153 | a built bundle has one category record per canonical category, in order, each read from that category's payload |
| JsonHandler.BundleDomains | json_handler.py:155-201 | a built bundle has one record per owned domain, in order |
| JsonHandler.RecordAt | json_handler.py:146-153 | each field of a category record is found under its key |
| JsonHandler.NullRowLookups | json_handler.py:132-133 | the null row binds the category name and nulls, and nothing else |
| JsonHandler.CategoryFallback | json_handler.py:131-145 | a payload whose row is not a dict gives a record with the canonical name and null values |
| JsonHandler.CategoryListFirst | json_handler.py:131 | a non-empty list payload is read through its first element |
| JsonHandler.CategoryGpaFirst | json_handler.py:135-141 | the GPA is the first truthy of `category_gpa`, `gpa`, `value`, converted with `float` |
| JsonHandler.CategoryZeroGpa | json_handler.py:135-141 | a GPA of 0 with no other key is falsy and becomes null |
| JsonHandler.DomainFindings | json_handler.py:178-201 | a built domain record carries its id and one list per canonical category, each holding only dicts with no `Category` key and no transport key |
| JsonHandler.DomainRecAt | json_handler.py:194-201 | each field of a domain record is found under its key |
| JsonHandler.DomainRecordAt | json_handler.py:167-201 | a domain record carries the domain id, the absorbed domain score and the per-category lists |
| JsonHandler.DomainScoreAbsorbed | json_handler.py:169-176 | a failing domain-score fetch leaves the domain with a null score |
| JsonHandler.CollectSnoc | json_handler.py:128-212 | one more step that is done extends the collected values |
| JsonHandler.CollectRaises | json_handler.py:128-212 | a loop stopped by a step raises that step's exception |
| JsonHandler.CategoryLoop | json_handler.py:128-153 | the category loop equals the collected category outcomes |
| JsonHandler.FindingsLoop | json_handler.py:178-192 | the findings loop of one domain equals its collected findings outcomes |
| JsonHandler.DomainEntry | json_handler.py:166-201 | one iteration of the domain loop equals that domain's outcome |
| JsonHandler.DomainLoop | json_handler.py:165-201 | the domain loop equals the collected domain outcomes |
| JsonHandler.BuildCompanyBundle | json_handler.py:111-212 | the step-by-step build equals the bundle the model defines, so every lemma above holds for it |
| Store.FileName | json_handler.py:70-72 | a company's file name ends with `_data.json` and what precedes it is the id as text |
| Store.Stem | json_handler.py:275 | `name.split("_data.json")[0]` is a prefix of the name that holds no occurrence of the suffix, or the whole name |
| Store.StemOfFileName | json_handler.py:70-72 | the stem of a company's file name is its id text, unless that text itself contains the suffix |
| Store.StemCollision | json_handler.py:272-276 | an id whose text contains `_data.json` names a file whose stem is a different id |
| Store.Saved | json_handler.py:35-48 | after an atomic write the file holds the bundle, every other file is unchanged, and the set of files gains only that name |
| Store.SavedValid | json_handler.py:35-48 | writing keeps the directory well formed |
| Store.Loaded | json_handler.py:75-83 | a missing or unreadable file loads as `{}` |
| Store.LoadAfterSave | json_handler.py:75-83 | loading what was just written returns it |
| Store.ListedOf | json_handler.py:86-103 | the listed bundles are no more than the directory entries |
| Store.ListedOfMembers | json_handler.py:86-103 | a bundle is listed exactly when it is the content of a readable `_data.json` entry |
| Store.SavedIsListed | json_handler.py:86-108 | a written bundle is listed afterwards, in a flat directory of file names |
| Store.Builds | json_handler.py:227-231 | the build of each company, in order |
| Store.WritePassFails | json_handler.py:227-233 | the writing loop meets an exception exactly when some company is not a dict or the build of a wanted company raises |
| Store.WritePassWrites | json_handler.py:227-233 | a loop that meets no exception writes exactly the wanted companies' files, in order |
| Store.WritePassSources | json_handler.py:227-233 | every file written belongs to a wanted company of the loop |
| Store.WritePassFrame | json_handler.py:227-233 | the loop changes only the files it writes and adds no other name |
| Store.WritePassValid | json_handler.py:227-233 | the loop keeps the directory well formed |
| Store.WritePassContents | json_handler.py:227-233 | a wanted company's file holds its build when no later wanted company has the same file name |
| Store.MissingKeepsExisting | json_handler.py:265-291 | an existing bundle file is left as it was |
| Store.MissingWritesRepeatedIds | json_handler.py:271-290 | the skip set is read once before the loop, so two companies with the same new id are both written |
| Store.MissingOverwritesCollision | json_handler.py:271-290 | with the id `x_data.json` and an existing file `x_data.json_data.json`, the existing file is overwritten |
| Store.IdPairs | json_handler.py:303 | each company paired with its id text, in order |
| Store.ByIdLast | json_handler.py:303 | an indexed id maps to the last company with that id text |
| Store.ByIdKeys | json_handler.py:303 | an id text is indexed exactly when some company has it |
| Store.BuildsById | json_handler.py:318-321 | one build per indexed company |
| Store.RefreshWritesStale | json_handler.py:306-324 | a refresh that meets no exception rewrites exactly the entries that were stale and belong to a known company; nothing else changes its time |
| Store.RefreshPassContents | json_handler.py:307-323 | every file the refresh writes belongs to a known company whose build succeeded, and holds that build |
| Store.RefreshPassFrame | json_handler.py:307-323 | the refresh adds only the names it writes and leaves every other file as it was |
| Store.IdTexts | json_handler.py:256-258 | each company's id text, `None` for a company that is not a dict |
| Store.FirstWithId | json_handler.py:256-262 | a match lies inside the companies scanned |
| Store.FirstWithIdMeaning | json_handler.py:256-262 | a match is the first company with the requested id text; no match means no company has it |
| Store.RebuildWrites | json_handler.py:249-262 | `None` exactly when no company has the id text, and then nothing is written; a path is the file of the first such company, and loading it gives its build |
| Store.WritePassSnoc | json_handler.py:227-233 | one more company extends the writing loop by one step |
| Store.WritePassStops | json_handler.py:227-233 | a loop stopped by an exception stays stopped |
| Store.RefreshPassSnoc | json_handler.py:307-323 | one more entry extends the refresh loop by one step |
| Store.RefreshPassStops | json_handler.py:307-323 | a refresh loop stopped by an exception stays stopped |
| Store.BundleStore.constructor | json_handler.py:27 | the store starts with the given well-formed directory |
| Store.BundleStore.Write | json_handler.py:106-108 | the new state is the old one with the bundle written under the company's file name |
| Store.BundleStore.Load | json_handler.py:75-83 | returns the loaded bundle or `{}` |
| Store.BundleStore.ListCompanyBundles | json_handler.py:86-103 | returns the readable `_data.json` bundles in sorted name order |
| Store.BundleStore.WriteOne | json_handler.py:228-233 | one company of the loop performs one step of the writing pass |
| Store.BundleStore.WriteCompanies | json_handler.py:227-233 | the loop's files and new state are those of the writing pass |
| Store.BundleStore.BuildAll | json_handler.py:218-234 | writes every company with an id and returns the paths in order, or the first exception |
| Store.BundleStore.ExistingIdsOf | json_handler.py:271-277 | the existing ids are the stems of the `_data.json` entries |
| Store.BundleStore.EnsureMissing | json_handler.py:265-291 | writes the companies whose id is not an existing id and returns how many |
| Store.BundleStore.EnsureInitial | json_handler.py:237-246 | with bundles listed, changes nothing and returns their number; otherwise builds them all and returns how many were written |
| Store.BundleStore.RebuildForId | json_handler.py:249-262 | the new state and result are those of the rebuild |
| Store.BundleStore.RefreshOne | json_handler.py:307-323 | one entry performs one step of the refresh pass |
| Store.BundleStore.RefreshStale | json_handler.py:294-324 | the new state and count are those of the refresh pass |
| ApiClient.RStripSlash | api.py:9-12 | `rstrip("/")` removes exactly the trailing slashes and nothing else |
| ApiClient.Rooted | api.py:42 | the path joined to the base always starts with `/` and ends with the path given |
| ApiClient.BaseNoTrailingSlash | api.py:9-12 | the base URL, from the environment or the default, never ends with `/` |
| ApiClient.UrlJoin | api.py:42 | the URL is the base, one slash, then the path |
| ApiClient.Alt | api.py:46-47 | the alternative URL always differs, so the retry always happens |
| ApiClient.AltInvolution | api.py:46 | flipping the trailing slash twice gives back the URL, and flips whether it ends with `/` |
| ApiClient.Snippet | api.py:34 | `t[:800]`: at most 800 characters, a prefix, the whole text when short |
| ApiClient.BodyValue | api.py:27-34 | a JSON body is returned as it is; otherwise a value exactly when the stripped text parses as a float |
| ApiClient.Message | api.py:34 | the error message ends with a newline and the snippet of the body |
| ApiClient.GetRequests | api.py:37-49 | a first request that succeeds is the only one; a failing one is retried once on the alternative URL, whose outcome is returned |
| ApiClient.GetOkIff | api.py:37-49 | `_get` succeeds exactly when the URL or its alternative succeeds |
| ApiClient.Items | api.py:52-57 | a dict with `items` is unwrapped to it; any other value is returned as it is |
| ApiClient.ItemsEnvelope | api.py:52-57 | `{"items": v, ...}` unwraps to `v` |
| ApiClient.Utf8 | api.py:79 | a character encodes to one to four bytes, one exactly when it is ASCII |
| ApiClient.HexRoundTrip | api.py:79 | a hex digit decodes to its value |
| ApiClient.PercentOctets | api.py:79 | each byte becomes three characters |
| ApiClient.PercentOctetsAlphabet | api.py:79 | percent escapes use only quoted characters |
| ApiClient.QuoteAlphabet | api.py:79 | `quote(name, safe='')` holds only unreserved characters and escapes, and never a `/` |
| ApiClient.QuoteUnreserved | api.py:79 | a name of unreserved characters is quoted unchanged |
| ApiClient.UnquoteOne | api.py:79 | one escape decodes to its byte |
| ApiClient.UnquotePercent | api.py:79 | escaped bytes decode back to the bytes |
| ApiClient.UnquoteQuote | api.py:79 | unquoting a quoted name gives its UTF-8 bytes back |
| ApiClient.FetchUnwraps | api.py:63-99 | every endpoint except the risk grade and the domain score unwraps an `items` envelope |
| ApiClient.CategoryPathSegments | api.py:79-99 | a category endpoint path has four slashes besides those in the id, whatever the category name |
| RiskClient.RiskRequest | utils.py:19-35 | an HTTP error status or an unreadable body is a `RiskAPIError`; no answer at all is a connection error |
| RiskClient.RetryOnlyOnRiskApiError | utils.py:38-48 | only a `RiskAPIError` is retried, once, on the alternative URL; any other failure is raised after one request |
| RiskClient.StatusErrorMessage | utils.py:22-26 | a failing status gives "Request failed: <status> ..." ending with the body snippet |
| RiskClient.ClientsAgree | utils.py:19-35 | the two clients succeed on the same answers, with the same value |
| RiskClient.NoAnswerRetries | utils.py:38-48 | without an answer, the `api.py` client retries and the `utils.py` client does not |
| RiskClient.WrappersAgree | utils.py:56-87 | when the first request succeeds, both clients return the same value for every endpoint |
| Services.Options | services.py:45-52 | one option per company when none raises |
| Services.OptionsSnoc | services.py:46-51 | a company the loop body gets through adds its option and its mapping entry |
| Services.CompanyOptions | services.py:39-52 | one option per company, with the labels of `list_company_options`: text when the company has an id, the name value itself when it has none |
| Services.ListCompanyOptions | services.py:39-52 | the loop returns the options and the mapping the model defines |
| Services.OptionsStop | services.py:46-51 | once the loop has raised, the whole call raises |
| Services.OptionsRaiseAt | services.py:46-51 | a company that is not a dict, or whose label cannot be a dict key, makes the whole call raise |
| Services.OptionsRaise | services.py:46-51 | the call raises exactly when some company is not a dict or has a label that cannot be a dict key |
| Services.OptionsListed | services.py:49-51 | option `i` is company `i`'s label, and it is a key of the mapping |
| Services.MappingLastWins | services.py:51 | a label maps to the id of the last company carrying it |
| Services.MappingKeysAreOptions | services.py:50-51 | the mapping's keys are exactly the options |
| Services.LabelShape | services.py:47-49 | a company with an id is labelled with the text `cid — name`; an empty record with `Company None`; one with a name but no id with the name value itself |
| Services.ListNameRaises | services.py:47-51 | a company without an id whose name is a list makes `map_[label]` raise |
| Services.IntNameKept | services.py:47-51 | a company without an id whose name is a number keeps that number as option and key |
| Services.Select | services.py:60-66 | keeps exactly the domains whose owner id, as text or `None`, is the target, in order |
| Services.SelectAppend | services.py:66 | the filter keeps the input's order: it distributes over concatenation |
| Services.SelectIdempotent | services.py:66 | filtering twice is filtering once |
| Services.DomainsForIdempotent | services.py:58-66 | `filter_domains_for_company` applied twice is applied once |
| Services.NoneTargetSelectsUnowned | services.py:60-66 | a `None` company id selects exactly the domains with no owner id |
| Services.ShapeRows | services.py:138-146 | a list is the rows; a dict with a `findings` list gives that list; another non-empty dict gives itself; anything else no rows |
| Services.AllFindings | services.py:133-154 | every collected finding is a dict with no `Category` key |
| Services.CategoryFetches | services.py:134-136 | one fetch per canonical category |
| Services.DomainOverviewLive | services.py:117-170 | the score and findings returned are the overview the model defines |
| Services.CategoryFindings | services.py:133-154 | the category loop's findings are the collected findings of every fetch |
| Services.AddCategory | services.py:135-154 | one iteration adds that category's rows, or nothing when the fetch fails |
| Services.RowCopiesOf | services.py:148-151 | the dict rows, with `Category` removed |
| Services.AllFindingsSnoc | services.py:133-154 | one more category appends its rows |
| Services.AllFindingsAppend | services.py:133-154 | the findings of two runs of categories are concatenated |
| Services.AllFindingsMembers | services.py:133-154 | a finding is collected exactly when it is one of the row copies of a category whose fetch succeeded |
| Services.FailedFetchAddsNothing | services.py:152-154 | a failing fetch contributes no row |
| Services.FailureSkipped | services.py:152-154 | a failing category fetch removes that category's rows and no others |
| Services.DirectScoreWins | services.py:127-130 | a number from the score endpoint is the score, whatever the findings |
| Services.FallbackBounds | services.py:156-168 | the fallback mean, taken over exact reals, lies between the smallest and the largest finding score |
| Services.Pick | services.py:234-238 | the candidate returned is a column; `None` exactly when no candidate is a column |
| Services.PickFirst | services.py:234-238 | the first candidate that is a column wins over every later one |
| Services.Columns | services.py:317 | for dict rows, a text is a column exactly when some row has it as a key, and no column is listed twice |
| Services.AddColumns | services.py:317 | the existing columns keep their place at the front; a text is a column of the result exactly when it was one or is a new key; distinct columns stay distinct |
| Services.KeepEqual | services.py:323-330 | keeps exactly the rows whose cell, as text, equals the value |
| Services.FilterDomainFindingsOriginal | services.py:304-330 | the table reassigned filter by filter equals the filtered rows the model defines |
| Services.FilterOriginalMeaning | services.py:304-330 | a row is kept exactly when it is an input row passing every active filter |
| Services.AllMeansNoFilter | services.py:323-330 | filters that are `All`, empty or absent keep every row |
| Services.KeepEqualAppend | services.py:323-330 | each equality filter keeps the order of the rows |
| DataframeUtils.ToDfRows | utils/dataframe_utils.py:16-28 | a dict is a one-row frame; a value that is neither dict nor list is the empty frame; a list gives the rows of its dict elements |
| DataframeUtils.ToDfVariants | utils/dataframe_utils.py:16-28 | the two `to_df` functions agree on lists of dicts, name a scalar column `value` and `Value` respectively, and differ on dicts and scalars |
| DataframeUtils.SumBounds | utils/dataframe_utils.py:130-131 | a sum of values in `[lo, hi]` lies between `n*lo` and `n*hi` |
| DataframeUtils.MeanBounds | utils/dataframe_utils.py:130-131 | the exact real mean of values in `[lo, hi]` lies in `[lo, hi]` |
| DataframeUtils.FindInDomains | utils/dataframe_utils.py:100-103 | a found domain is a dict of the list whose id text equals the requested one; not found means every entry is a dict with another id |
| DataframeUtils.RowCopies | utils/dataframe_utils.py:114-118 | the copies are dicts with no `Category` key |
| DataframeUtils.FindingsOf | utils/dataframe_utils.py:111-118 | every collected finding is a dict with no `Category` key |
| DataframeUtils.RowCopiesAppend | utils/dataframe_utils.py:114-118 | the copies of two runs of rows are the copies of each, concatenated |
| DataframeUtils.RowCopiesOne | utils/dataframe_utils.py:115-118 | a dict row gives one copy with its `Category` key removed; any other row gives none |
| DataframeUtils.RowCopiesMembers | utils/dataframe_utils.py:114-118 | a value is a copy exactly when it is some dict row with its `Category` key removed |
| DataframeUtils.FindingsOfSome | utils/dataframe_utils.py:113-118 | the collection succeeds exactly when every category's rows can be iterated |
| DataframeUtils.FindingsOfAppend | utils/dataframe_utils.py:113-118 | the findings of two runs of categories are the findings of each, concatenated, and fail when either fails |
| DataframeUtils.FindingsOfOne | utils/dataframe_utils.py:113-118 | one category gives the copies of its rows, or fails when its rows cannot be iterated |
| DataframeUtils.SearchDomains | utils/dataframe_utils.py:100-103 | the inner search loop finds what the model finds |
| DataframeUtils.CollectFindings | utils/dataframe_utils.py:111-118 | the findings loop equals the collected findings |
| DataframeUtils.FindingsOfRaised | utils/dataframe_utils.py:113-118 | a category list that raises makes the whole collection raise |
| DataframeUtils.CopyRows | utils/dataframe_utils.py:114-118 | the copy loop equals the row copies |
| DataframeUtils.CollectScores | utils/dataframe_utils.py:121-129 | the score loop collects each finding's first score |
| DataframeUtils.FirstScore | utils/dataframe_utils.py:123-129 | the score of a finding is the first of `Finding Score`, `finding_score`, `score` that converts |
| DataframeUtils.DomainOverview | utils/dataframe_utils.py:89-135 | the search over the bundles returns the overview the model defines |
| DataframeUtils.OverviewOfDomain | utils/dataframe_utils.py:104-133 | the overview of a found domain is the one the model defines |
| DataframeUtils.OverviewNotFound | utils/dataframe_utils.py:134-135 | a domain found in no bundle gives `(None, [])` |
| DataframeUtils.FindDomainFirst | utils/dataframe_utils.py:99-103 | the first bundle holding the domain decides |
| DataframeUtils.FindDomainSkip | utils/dataframe_utils.py:99-103 | a bundle without the domain is skipped |
| DataframeUtils.FindDomainHit | utils/dataframe_utils.py:99-103 | a bundle holding the domain is used |
| DataframeUtils.FindInDomainsFirst | utils/dataframe_utils.py:100-103 | the first domain with the id is the one found |
| DataframeUtils.OverviewScore | utils/dataframe_utils.py:104-131 | a stored numeric score is returned; otherwise the exact real mean of the finding scores, which lies between their least and greatest |
| DataframeUtils.FindingScoresShorter | utils/dataframe_utils.py:121-129 | at most one score per finding |
| Helpers.CategoryNamesDistinct | helpers.py:9-16 | the six category names are distinct |
| Helpers.FirstFloat | helpers.py:40-45 | `None` exactly when no key's value converts with `float` |
| Helpers.FirstFloatIsFirst | helpers.py:40-45 | the first key whose value converts gives the answer |
| Helpers.ExtractNumber | helpers.py:19-46 | a scalar converts as `float` does, without overflow; a list gives `None`; a dict gives `None` exactly when no score key converts |
| Helpers.ExtractNumberDict | helpers.py:29-45 | on a dict, the first score key whose value converts wins |
| Helpers.ToDf | helpers.py:49-70 | `None` or `[]` give the empty frame; a non-empty list of dicts gives one row per element; a scalar a one-cell `Value` column |
| Helpers.ToDfFirstDecides | helpers.py:52-59 | only a list's first element decides whether it is read as records |
| Helpers.ScoreRows | helpers.py:95-108 | defined exactly when every category entry is a dict; then one row per entry, in order |
| Helpers.ZeroFilled | helpers.py:110-114 | a missing score becomes 0 and nothing else changes |
| Helpers.GetCompanyCategoryScoresDf | helpers.py:88-115 | the append loop then the fill give the scores the model defines |
| Helpers.AppendScoreRows | helpers.py:95-108 | the append loop equals the score rows |
| Helpers.FillScores | helpers.py:110-114 | the column overwrite equals the zero-filled rows |
| Helpers.CategoryScoresMeaning | helpers.py:88-115 | one row per category, in order, with its label, its converted GPA, and its converted score or 0; no bundle gives no rows |
| NistHelpers.FunctionNameFromIdentifier | nist/nist_helpers.py:14-15 | the name bound to the trimmed, uppercased identifier; `None` exactly when it is not a key |
| NistHelpers.ControlsFromFunctionName | nist/nist_helpers.py:18-19 | the controls bound to the trimmed name, `[]` when it is not a key |
| NistHelpers.Contributions | nist/nist_helpers.py:29-33 | one list of controls per identifier, in order |
| NistHelpers.CollectStep | nist/nist_helpers.py:29-33 | one more identifier extends the collected controls by its own |
| NistHelpers.CollectControls | nist/nist_helpers.py:28-33 | the inner loop's list equals the collected controls |
| NistHelpers.CategoryPairs | nist/nist_helpers.py:27-34 | one entry per category, in order |
| NistHelpers.CategoryEntry | nist/nist_helpers.py:27-34 | one pass of the outer loop computes that category's entry |
| NistHelpers.BuildCategoryToControls | nist/nist_helpers.py:22-35 | the outer loop's dict equals the dict of the category entries |
| NistHelpers.BuiltMapMeaning | nist/nist_helpers.py:22-35 | the categories are exactly the keys, and each maps to the sorted, de-duplicated controls of its identifiers |
| NistHelpers.BuiltListMeaning | nist/nist_helpers.py:34 | each list is strictly increasing and holds exactly the controls some identifier contributes |
| NistHelpers.UnnamedAddsNothing | nist/nist_helpers.py:30-32 | an identifier without a (truthy) name contributes nothing |
| NistHelpers.CategoryIdentifiers | nist/nist_helpers.py:46 | the identifiers bound to the trimmed category, `[]` when it is not a key |
| NistHelpers.GetFunctionsForCategory | nist/nist_helpers.py:43-49 | one entry per identifier; the identifiers themselves unless names are asked for, then each identifier's name or the identifier when it has none |
| NistHelpers.SummarizeCsfForCategory | nist/nist_helpers.py:65-71 | an unknown category summarises as the empty string |
| NistHelpers.SummaryRoundTrip | nist/nist_helpers.py:65-71 | splitting the summary at commas gives back the identifiers, each after the first with its leading space |
| NistHelpers.Head2 | nist/nist_helpers.py:61 | `s[:2]` has two characters, or all of a shorter text |
| NistHelpers.GetFunctionFromCodeOrRef | nist/nist_helpers.py:52-62 | the empty text gives the empty text |
| NistHelpers.CodeOrRefDotted | nist/nist_helpers.py:57-58 | a text whose first dot is at position 2 gives its first two characters uppercased |
| NistHelpers.GvBranchUnreachable | nist/nist_helpers.py:59-60 | a text starting with `GV.` already has its first dot at position 2, so the `GV.` branch never decides |
| NistHelpers.CodeOrRefUndotted | nist/nist_helpers.py:61-62 | otherwise the result is the uppercased first two characters when they are a function code, and empty exactly when they are not |
| NistHelpers.CodeOrRefShape | nist/nist_helpers.py:52-62 | the result is empty or two characters with no lowercase letter |
| NistHelpers.CodeOfControl | nist/nist_helpers.py:52-62 | a control `XX.YY-NN` gives its function code `XX` |
| NistHelpers.TableControlCodes | nist/nist_helpers.py:52-62 | every control of the mapping tables gives the code of its function, and that code is one of the six |
| NistMappings.TwoDigits | nist/nist_mappings.py:44-149 | a control number is written with exactly two digits |
| NistMappings.Controls | nist/nist_mappings.py:44-149 | a control list holds one `XX.YY-NN` control per number, in order |
| NistMappings.Render | nist/nist_mappings.py:152-159 | each external control is rendered from its identifier and number |
| NistMappings.ControlCanonical | nist/nist_mappings.py:44-149 | every control of the table is its own `norm_ref` and has its identifier as prefix |
| NistMappings.TwoDigitsOrder | nist/nist_mappings.py:44-149 | smaller numbers give text-smaller two-digit forms |
| NistMappings.ControlOrder | nist/nist_mappings.py:44-149 | controls of one identifier are ordered as text by their number |
| NistMappings.ControlsIncreasing | nist/nist_mappings.py:44-149 | ascending numbers give a strictly increasing control list |
| NistMappings.ControlsCanonical | nist/nist_mappings.py:44-149 | every control of a list is canonical and has its identifier as prefix |
| NistMappings.FunctionCodesOfL1 | nist/nist_mappings.py:8-15 | the L1 table's keys are the six function codes |
| NistMappings.IdentifierCodes | nist/nist_mappings.py:18-41 | every identifier begins with one of the six function codes |
| NistMappings.IdentifiersShape | nist/nist_mappings.py:18-41 | every identifier has the shape `XX.YY` with a known function code |
| NistMappings.NumbersSmall | nist/nist_mappings.py:44-149 | every control number is below 100 and every identifier has its list |
| NistMappings.NumbersAscend | nist/nist_mappings.py:44-149 | every list of control numbers ascends |
| NistMappings.NamesDistinct | nist/nist_mappings.py:18-41 | no two identifiers share a function name |
| NistMappings.ControlRow | nist/nist_mappings.py:44-149 | row `k` of the controls table is the `k`-th identifier's name with its controls |
| NistMappings.IdentifierControls | nist/nist_mappings.py:18-149 | every identifier's name has a strictly increasing list of canonical controls, all with that identifier as prefix |
| NistMappings.RowLookup | nist/nist_mappings.py:44-149 | looking up an identifier's name gives its controls |
| NistMappings.RowControls | nist/nist_mappings.py:44-149 | the controls of an identifier's name are strictly increasing, canonical, with that identifier as prefix |
| NistMappings.ControlInjective | nist/nist_mappings.py:44-159 | two controls are equal only when their identifier and number are |
| NistMappings.ExternalPairFacts | nist/nist_mappings.py:152-159 | the external controls are well shaped and no two categories share one |
| NistMappings.ExternalControlsDisjoint | nist/nist_mappings.py:152-159 | no control maps two external categories |
| NistMappings.Listed | nist/nist_mappings.py:44-149 | a listed number's control is in its identifier's row |
| NistMappings.ExternalPairListed | nist/nist_mappings.py:152-159 | each external control is a control of some function |
| NistMappings.ExternalControlsListed | nist/nist_mappings.py:44-159 | every control of the external mapping appears in the function-to-controls table |
| Normalization.Dotted | utils/normalization.py:34-37 | the result has no `_` or `-` and no `..`, uses only the input's characters and dots, and keeps the first character or a dot |
| Normalization.NormRef | utils/normalization.py:9-44 | the empty input normalises to the empty text |
| Normalization.NormRefValue | utils/normalization.py:14-18 | a falsy cell gives `""`; a text cell is normalised as text |
| Normalization.PrefixParts | utils/normalization.py:56-66 | every part is non-empty with no dot, hyphen or underscore |
| Normalization.Prefix | utils/normalization.py:47-71 | the empty input gives the empty prefix |
| Normalization.PrefixShape | utils/normalization.py:47-71 | a prefix has no hyphen or underscore and at most one dot |
| Normalization.TrimmedOf | utils/normalization.py:18 | uppercasing and stripping gives a text with no lowercase letter and no surrounding space |
| Normalization.DottedFixed | utils/normalization.py:22-26 | a head with no `_`, `-` or `..` is left as it is |
| Normalization.TrimmedFixed | utils/normalization.py:18 | uppercasing and stripping a trimmed uppercase text changes nothing |
| Normalization.SegmentsOf | utils/normalization.py:39 | the segments of a text with no lowercase letter have none either |
| Normalization.HyphenPieces | utils/normalization.py:20-27 | the head and tail of the hyphen branch are themselves normalised |
| Normalization.PaddedTail | utils/normalization.py:28-30 | a numeric tail is padded to at least two digits |
| Normalization.HyphenSplit | utils/normalization.py:20-32 | the hyphen branch emits a normalised head, a hyphen and a trimmed, padded tail |
| Normalization.NormRefJoined | utils/normalization.py:20-32 | with a normalised head and a trimmed tail, the hyphen branch only pads the tail |
| Normalization.CanonicalAgain | utils/normalization.py:20-32 | a reference already in hyphen form is its own normal form |
| Normalization.HyphenIdempotent | utils/normalization.py:20-32 | normalising the hyphen branch's output changes nothing |
| Normalization.SegmentsSplit | utils/normalization.py:33-42 | the rebuilt `A.B-NN` is a normalised head, a hyphen and a padded tail, with the first two segments as head |
| Normalization.SegmentsIdempotent | utils/normalization.py:33-44 | normalising the hyphen-free branch's output changes nothing |
| Normalization.NormRefIdempotent | utils/normalization.py:9-44 | normalising twice is normalising once, for results that do not begin with whitespace |
| Normalization.HyphenPrefix | utils/normalization.py:9-71 | a reference with a hyphen keeps its prefix when normalised |
| Normalization.SegmentsPrefix | utils/normalization.py:9-71 | a hyphen-free reference keeps its prefix when normalised |
| Normalization.PrefixOfNormRef | utils/normalization.py:9-71 | `prefix(norm_ref(s)) == prefix(s)` for results that do not begin with whitespace |
| Normalization.NormRefThreeSegments | utils/normalization.py:39-42 | a hyphen-free text with three segments, the third numeric, becomes `A.B-NN` |
| Normalization.NormRefShortTailExample | utils/normalization.py:28-32 | `PR.PS-1` becomes `PR.PS-01` |
| Normalization.NormRefCanonicalExample | utils/normalization.py:20-32 | `GV.OC-02` is left as it is |
| Normalization.NormRefAllHyphenExample | utils/normalization.py:20-32 | `PR-PS-1` splits at the first hyphen and stays `PR-PS-1` |
| Normalization.NormRefUnderscoreExample | utils/normalization.py:33-42 | `pr_ps_01` becomes `PR.PS-01` |
| Normalization.LeadingSpace | utils/normalization.py:18 | a leading space is trimmed before anything else |
| Normalization.NormRefNotIdempotentExample | utils/normalization.py:33-42 | `. A.B.1` normalises to ` A.B-01`, which normalises again to `A.B-01` |
| ChartsHelpers.KeepNumeric | charts/charts_helpers.py:81 | exactly the digits, dots and minus signs of the text, and nothing else |
| ChartsHelpers.KeepNumericAppend | charts/charts_helpers.py:81 | the filter distributes over concatenation |
| ChartsHelpers.KeepNumericOnly | charts/charts_helpers.py:81 | a text of numeric characters only is kept whole |
| ChartsHelpers.KeepNumericNone | charts/charts_helpers.py:81-82 | a text without numeric characters gives `""` |
| ChartsHelpers.RatingOf | charts/charts_helpers.py:74-85 | `float(v)` when it parses; nothing when neither it nor the filtered text gives a number |
| ChartsHelpers.FirstRating | charts/charts_helpers.py:70-86 | no rating exactly when no key yields a number |
| ChartsHelpers.FirstRatingIsFirst | charts/charts_helpers.py:70-86 | the first key that yields a number gives the rating |
| ChartsHelpers.FirstProbes | charts/charts_helpers.py:57-60 | the first three keys probed are `cmm_rating`, `rating` and `level` |
| ChartsHelpers.RatingAtSecond | charts/charts_helpers.py:70-86 | `rating` is read when `cmm_rating` yields nothing |
| ChartsHelpers.SlashRatingOf | charts/charts_helpers.py:78-83 | `"3/4"` reads as 34 |
| ChartsHelpers.RatingSlashExample | charts/charts_helpers.py:78-83 | a rating written `"3/4"` loses its slash and reads as 34 |
| ChartsHelpers.NoteRatingOf | charts/charts_helpers.py:78-83 | `"3.0 (ok)"` reads as 3.0 |
| ChartsHelpers.RatingNoteExample | charts/charts_helpers.py:78-83 | text after the number is dropped: `"3.0 (ok)"` reads as 3.0 |
| ChartsHelpers.RatingFallsThrough | charts/charts_helpers.py:70-86 | a key nothing can be read from passes on to the next |
| ChartsHelpers.LowerLookup | charts/charts_helpers.py:91 | a column is found exactly when some column has that lowercase, and it is one of them |
| ChartsHelpers.LowerLookupIsLast | charts/charts_helpers.py:91 | of several columns with the same lowercase, the last wins |
| ChartsHelpers.FirstExact | charts/charts_helpers.py:108-110 | none exactly when no exact candidate is present; a found column is a column |
| ChartsHelpers.FirstExactIsFirst | charts/charts_helpers.py:108-110 | candidates are tried in list order |
| ChartsHelpers.FirstFuzzy | charts/charts_helpers.py:111-114 | none exactly when no column passes the fuzzy rule; a found column passes it |
| ChartsHelpers.FirstFuzzyIsFirst | charts/charts_helpers.py:111-114 | columns are tried in order |
| ChartsHelpers.DetectControlRefCol | charts/charts_helpers.py:89-115 | a found column is a column; an exact candidate wins over the fuzzy rule |
| ChartsHelpers.DetectExactExample | charts/charts_helpers.py:91-110 | `Control_Ref` is found as written among `Name, Control_Ref` |
| ChartsHelpers.NonBlank | charts/charts_helpers.py:122 | exactly the items that are not blank once stripped |
| ChartsHelpers.UpperAll | charts/charts_helpers.py:122 | each item uppercased |
| ChartsHelpers.StripAll | charts/charts_helpers.py:127 | each item stripped |
| ChartsHelpers.SortedJoin | charts/charts_helpers.py:123 | `"-"` for no values; otherwise a sorted permutation of them joined by `", "` |
| ChartsHelpers.CsvUpper | charts/charts_helpers.py:121-123 | `"-"` without non-blank items; otherwise the non-blank items uppercased, sorted and joined |
| ChartsHelpers.CsvPlain | charts/charts_helpers.py:126-128 | `"-"` without non-blank items; otherwise the non-blank items stripped, sorted and joined |
| CsfScan.ApiFindings | charts/internal_csf_charts.py:217-221 | there is at most one category text per score row |
| CsfScan.ApiFindingsMembers | charts/internal_csf_charts.py:217-221 | a text is an API finding exactly when it is the stripped `str` of some non-null `Category` cell |
| CsfScan.CategoryCells | charts/internal_csf_charts.py:218 | at most one cell per row, none of them null |
| CsfScan.NormAll | charts/internal_csf_charts.py:19-22 | one normalised control per mapped control, position by position |
| CsfScan.Collect | charts/internal_csf_charts.py:210-212 | the kept scan rows are no more than the rows |
| CsfScan.CollectSound | charts/internal_csf_charts.py:210-212 | every kept entry comes from some row |
| CsfScan.CollectHas | charts/internal_csf_charts.py:210-212 | every entry a row yields is kept |
| CsfScan.CollectMembers | charts/internal_csf_charts.py:210-212 | an entry is kept exactly when some row yields it |
| CsfScan.FrameRatingAgrees | charts/charts_helpers.py:70-86 | on a frame row `_rating` finds the number the dict probe finds, and agrees with it wherever no probed cell is NaN |
| CsfScan.FrameRatingStops | charts/charts_helpers.py:70-76 | a NaN cell probed before any number ends `_rating` with no number |
| CsfScan.ControlNorm | charts/internal_csf_charts.py:210 | a control cell that is not NaN normalises as the dict value does |
| CsfScan.ScanNaNExample | charts/internal_csf_charts.py:201-212 | a row without the `cmm_rating` key another row has is dropped, although its own dict has a rating |
| CsfScan.RatedControls | charts/internal_csf_charts.py:201-212 | `dropna` keeps at most one entry per scan row |
| CsfScan.RatedControlsMembers | charts/internal_csf_charts.py:201-212 | an entry is kept exactly when some row of the frame has that normalised control and a rating that is not NaN |
| CsfScan.NormMapping | charts/internal_csf_charts.py:19-22 | the normalised mapping keeps every finding, in order, with its controls normalised |
| CsfScan.AddFindingMeaning | charts/external_csf_charts.py:66-67 | one finding is appended under each of its controls; no other entry changes and no list is empty |
| CsfScan.IndexMeaning | charts/external_csf_charts.py:62-68 | a control is a key exactly when a present finding lists it; a finding is under a control exactly when it is present and lists that control |
| CsfScan.ControlToFindingsMeaning | charts/external_csf_charts.py:62-68 | the same, stated for the mapping before normalisation: a finding is under a control exactly when it is present and one of its controls normalises to it |
| CsfScan.AppendFinding | charts/external_csf_charts.py:66-67 | the loop over one finding's controls computes `AddFinding` on the normalised controls |
| CsfScan.BuildControlToFindings | charts/external_csf_charts.py:62-67 | the loop over the mapping computes `ControlToFindings` |
| InternalCsfCharts.NormMappingGet | charts/internal_csf_charts.py:19-22 | a finding of the normalised mapping has the original finding's controls, normalised; an unmapped finding stays unmapped |
| InternalCsfCharts.ExternalNormUnchanged | charts/internal_csf_charts.py:19-22 | the external mapping is already in normal form, so the normalised copy equals it |
| InternalCsfCharts.Wanted | charts/internal_csf_charts.py:28 | the wanted names are exactly the canonical names present in the API list |
| InternalCsfCharts.IndexOf | charts/internal_csf_charts.py:25-31 | a position inside the list exactly when the name is present, and the name is there |
| InternalCsfCharts.TailShift | charts/internal_csf_charts.py:28 | past a distinct head, every position moves up by one |
| InternalCsfCharts.ConsOrdered | charts/internal_csf_charts.py:28 | putting the head of the canonical list in front keeps the canonical order |
| InternalCsfCharts.WantedOrdered | charts/internal_csf_charts.py:28 | the wanted names follow the canonical order without repeats |
| InternalCsfCharts.Ordered | charts/internal_csf_charts.py:25-31 | with some canonical name present, exactly the present canonical names; otherwise the API list unchanged |
| InternalCsfCharts.OrderedCanonical | charts/internal_csf_charts.py:25-31 | with some canonical name present, the result follows the canonical order without repeats |
| InternalCsfCharts.OrderedFindingsCanonical | charts/internal_csf_charts.py:25-31 | the findings follow the order of `CATEGORY_NAMES` whenever one of those is present |
| InternalCsfCharts.MappedOnly | charts/internal_csf_charts.py:222 | exactly the findings that the mapping has |
| InternalCsfCharts.ExternalKeysAreCategoryNames | nist/nist_mappings.py:152-159 | the keys of the external mapping are the category names, in the same order |
| InternalCsfCharts.MappedOnlyAll | charts/internal_csf_charts.py:222 | filtering findings that are all keys of the mapping leaves the list as it is |
| InternalCsfCharts.FallbackIsCategoryNames | charts/internal_csf_charts.py:223-226 | the fallback list is all the category names, in order |
| InternalCsfCharts.UsedFindings | charts/internal_csf_charts.py:222-226 | every used finding is mapped; when some API finding is mapped, the used findings are exactly the mapped API findings |
| InternalCsfCharts.RatingsOf | charts/internal_csf_charts.py:214 | a control has ratings exactly when some kept scan row names it |
| InternalCsfCharts.FindingRowsMeaning | charts/internal_csf_charts.py:230-243 | each row carries the company id and the finding, one of its controls, and the one rating the scan has for that control |
| InternalCsfCharts.FindingRowsComplete | charts/internal_csf_charts.py:231-234 | a control gets a row exactly when the scan rates it; unrated controls are skipped |
| InternalCsfCharts.FindingRowsSorted | charts/internal_csf_charts.py:231 | over sorted controls the rows' controls ascend |
| InternalCsfCharts.FindingRowsRaised | charts/internal_csf_charts.py:240 | `float(ctrl_index[c])` raises exactly when the scan rates one of the controls more than once |
| InternalCsfCharts.ChainStops | charts/internal_csf_charts.py:229-243 | once one finding raised, the whole call raises |
| InternalCsfCharts.ChainRaised | charts/internal_csf_charts.py:229-243 | the call raises exactly when one finding's rows raise |
| InternalCsfCharts.ChainAppend | charts/internal_csf_charts.py:229-243 | the table is the rows of the first findings followed by the rows of the rest |
| InternalCsfCharts.ChainRows | charts/internal_csf_charts.py:229-243 | a row is in the table exactly when it is a row of one of the findings |
| InternalCsfCharts.AllRowsMeaning | charts/internal_csf_charts.py:229-245 | every row has the company id, one of the findings, one of its mapped controls and the scan's one rating of it |
| InternalCsfCharts.AllRowsComplete | charts/internal_csf_charts.py:229-245 | every rated mapped control of every finding has its row |
| InternalCsfCharts.FindingTableRaised | charts/internal_csf_charts.py:230-243 | a finding raises exactly when it maps a control the scan rates more than once |
| InternalCsfCharts.AllRowsRaised | charts/internal_csf_charts.py:229-245 | the table raises exactly when some finding maps a control the scan rates more than once |
| InternalCsfCharts.AppendFindingRows | charts/internal_csf_charts.py:230-243 | the inner loop computes `FindingRows` |
| InternalCsfCharts.FindingRowsStops | charts/internal_csf_charts.py:231-243 | a raise in the first controls is a raise of the loop |
| InternalCsfCharts.CollectRows | charts/internal_csf_charts.py:229-245 | the outer loop computes `AllRows` |
| InternalCsfCharts.BuildCsfControlsTableDf | charts/internal_csf_charts.py:189-245 | computes `CsfControlsTable`: for a scan of dict rows, an empty table without scores, scan rows or control column, else the rows of the used findings in canonical order |
| ExternalCsfCharts.Loop | charts/external_csf_charts.py:38-44 | a list is iterated by its items; only lists, dicts and texts can be iterated |
| ExternalCsfCharts.Allowed | charts/external_csf_charts.py:68-69 | every kept scan entry has a control the index holds |
| ExternalCsfCharts.AllowedMembers | charts/external_csf_charts.py:68-69 | an entry is kept exactly when it is a scan entry whose control is in the index |
| ExternalCsfCharts.BarRows | charts/external_csf_charts.py:73-87 | one bar per kept entry, with its control, its rating and the categories mapped to its control |
| ExternalCsfCharts.CatIndex | charts/external_csf_charts.py:92-96 | a listed category gets its last position among the score table's cells; an unlisted one gets `10**6` |
| ExternalCsfCharts.CatOrder | charts/external_csf_charts.py:97-101 | the order is the smallest position of the control's categories, `10**6` when it has none |
| ExternalCsfCharts.BarLeTotal | charts/external_csf_charts.py:102 | any two bars are comparable by `(cat_order, control)` |
| ExternalCsfCharts.BarLeTrans | charts/external_csf_charts.py:102 | the `(cat_order, control)` order is transitive |
| ExternalCsfCharts.InsertBar | charts/external_csf_charts.py:102 | inserting a bar adds it and keeps the others |
| ExternalCsfCharts.InsertBarSorted | charts/external_csf_charts.py:102 | inserting into sorted bars keeps them sorted |
| ExternalCsfCharts.SortBars | charts/external_csf_charts.py:102 | the sort is a permutation of the bars |
| ExternalCsfCharts.SortBarsSorted | charts/external_csf_charts.py:102 | the sorted bars are ordered by category position, then control |
| ExternalCsfCharts.NoChartCases | charts/external_csf_charts.py:15-30 | for a scan of dict rows, no chart when the scan raises, is empty, has no columns or no control column |
| ExternalCsfCharts.BundleIrrelevant | charts/external_csf_charts.py:35-60 | beyond the raises of the first pass over the bundle, two bundles with the same category score table give the same chart, since `present_categories` is overwritten at line 52 and rebuilt from that table |
| ExternalCsfCharts.ListCategoryFails | charts/external_csf_charts.py:40-43 | a category whose truthy `Category` is a list fails the first pass, since a list cannot be added to a set |
| ExternalCsfCharts.ListCategoryRaises | charts/external_csf_charts.py:27-43 | with a scan that has a control column, such a bundle makes the chart raise |
| ExternalCsfCharts.KeptMeaning | charts/external_csf_charts.py:31-69 | a scan entry is charted exactly when some row gives it a rating and some present category maps its normalised control |
| ExternalCsfCharts.ChartRows | charts/external_csf_charts.py:72-103 | the chart's rows are non-empty, a permutation of the kept entries' bars, and sorted by category position then control |
| ExternalCsfCharts.CollectBarRows | charts/external_csf_charts.py:73-87 | the loop over the kept rows computes `BarRows` |
| ExternalCsfCharts.InternalControlsCmmBarChart | charts/external_csf_charts.py:13-103 | computes `BarChart` on the scan and the loaded bundle, reading the score table from that bundle: the chart's rows, `None`, or the exception raised |
| DistributionL1CsfCharts.L1NamesDistinct | charts/distribution_l1_csf_charts.py:72-78 | the six function names and `"Other"` are distinct |
| DistributionL1CsfCharts.ToL1 | charts/distribution_l1_csf_charts.py:64-66 | every control falls under one of the six functions or `"Other"` |
| DistributionL1CsfCharts.ToL1Known | charts/distribution_l1_csf_charts.py:55-66 | a control falls under a named function exactly when the first two letters of its uppercased first segment are a function code |
| DistributionL1CsfCharts.NormControls | charts/distribution_l1_csf_charts.py:49 | one normalised control per scan row |
| DistributionL1CsfCharts.InAllowed | charts/distribution_l1_csf_charts.py:50 | exactly the normalised controls that some present category maps |
| DistributionL1CsfCharts.CountBy | charts/distribution_l1_csf_charts.py:68-71 | a count never exceeds the number of controls |
| DistributionL1CsfCharts.SumCountsSnoc | charts/distribution_l1_csf_charts.py:68-71 | one more control adds one to the total of the distinct names it falls under |
| DistributionL1CsfCharts.SumCountsAll | charts/distribution_l1_csf_charts.py:68-71 | when every control falls under one of the distinct names, their counts add up to the number of controls |
| DistributionL1CsfCharts.SumCountsEmpty | charts/distribution_l1_csf_charts.py:68 | no controls, no counts |
| DistributionL1CsfCharts.RowsFrom | charts/distribution_l1_csf_charts.py:72-78 | at most one row per name |
| DistributionL1CsfCharts.SumRowsAppend | charts/distribution_l1_csf_charts.py:72-78 | the rows' total is additive over concatenation |
| DistributionL1CsfCharts.RowsFromSum | charts/distribution_l1_csf_charts.py:74-78 | leaving out zero counts keeps the total |
| DistributionL1CsfCharts.RowsFromSound | charts/distribution_l1_csf_charts.py:74-78 | every row names a listed name with its positive count, and rows keep the names' order |
| DistributionL1CsfCharts.RowsFromComplete | charts/distribution_l1_csf_charts.py:74-78 | every name with a positive count has its row |
| DistributionL1CsfCharts.RowsFromOrdered | charts/distribution_l1_csf_charts.py:72-78 | rows appear in the order of the names |
| DistributionL1CsfCharts.RowsCountAll | charts/distribution_l1_csf_charts.py:54-78 | the counts in the rows add up to the number of distinct controls |
| DistributionL1CsfCharts.L1RowsMeaning | charts/distribution_l1_csf_charts.py:64-78 | a row for exactly the names some control falls under, with its count, in chart order with `"Other"` last |
| DistributionL1CsfCharts.NoChartCases | charts/distribution_l1_csf_charts.py:34-52 | for a scan of dict rows, no chart when the scan raises or is empty, has no columns, no control column or no allowed control |
| DistributionL1CsfCharts.ChartCounts | charts/distribution_l1_csf_charts.py:49-81 | once an allowed control is found the chart has rows, whose counts add up to the number of distinct allowed controls |
| DistributionL1CsfCharts.CountBySnoc | charts/distribution_l1_csf_charts.py:69-71 | one more control counts once more under its own name only |
| DistributionL1CsfCharts.CountUnder | charts/distribution_l1_csf_charts.py:68-71 | the counting loop leaves under each name the number of controls that fall under it |
| DistributionL1CsfCharts.CountL1 | charts/distribution_l1_csf_charts.py:68-71 | `l1_counts` holds, for each function, the number of distinct controls under it |
| DistributionL1CsfCharts.RowsFromSameCounts | charts/distribution_l1_csf_charts.py:72-78 | the rows depend only on the counts of the listed names |
| DistributionL1CsfCharts.RowsFromAppend | charts/distribution_l1_csf_charts.py:72-78 | rows of two name lists are the rows of each, in turn |
| DistributionL1CsfCharts.OrderRows | charts/distribution_l1_csf_charts.py:74-76 | the loop over `order` computes the rows of the positive counts |
| DistributionL1CsfCharts.BuildRows | charts/distribution_l1_csf_charts.py:72-78 | the rows of the six functions, then `"Other"` |
| DistributionL1CsfCharts.DistributionL1FunctionBarChart | charts/distribution_l1_csf_charts.py:15-81 | computes `Distribution`: the bars, `None`, or the exception raised |
| Charts.TypeValues | charts.py:40-42 | every type value is the `str` of a non-missing cell of the type column |
| Charts.Occ | charts.py:43 | a value occurs a positive number of times exactly when it is there |
| Charts.Grouped | charts.py:43-46 | each distinct value paired with how often it occurs |
| Charts.ValueCountsMeaning | charts.py:39-46 | every value occurs once in the frequency table, with its positive count, and nothing else does |
| Charts.CodeCount | charts.py:51-54 | no more than the number of codes, and nothing for a code without a function |
| Charts.GroupSumEmpty | charts.py:47-55 | no findings add nothing |
| Charts.GroupSumSnoc | charts.py:47-55 | one more finding adds its own contribution once |
| Charts.GroupedEqualsRows | charts.py:39-55 | counting each distinct value once, times its frequency, equals counting finding by finding |
| Charts.ValueCountsTotal | charts.py:39-55 | the frequency table gives the finding-by-finding totals |
| Charts.GvCount | charts.py:60-66 | positive exactly when some row's `control_ref`, uppercased, starts with `GV.` |
| Charts.ExpectedNamed | charts.py:53-54 | a code without a function is never counted |
| Charts.RowSumZero | charts.py:47-55 | findings that add nothing total nothing |
| Charts.AddCodes | charts.py:51-55 | the inner loop adds `n` to the function of each code with one, and every count stays positive |
| Charts.CountFunctions | charts.py:47-55 | the outer loop gives each function the sum over categories of frequency times matching codes |
| Charts.TypeCounts | charts.py:29-55 | steps 1 to 3 count each function once per finding per matching code of its type |
| Charts.AddGvRows | charts.py:58-68 | step 4 adds the GV rows to `GV` only |
| Charts.CsfFunctionDistributionChart | charts.py:29-76 | each function gets the count stated finding by finding, only positive counts are listed, and the placeholder comes exactly when nothing is counted |
| Charts.FirstLower | charts.py:122-127 | the column found has one of the keys as lowercase; none exactly when no column has any |
| Charts.ScoreChartColumnsMeaning | charts.py:120-136 | the category and score columns are found case-insensitively, a GPA column only without a score column, and the chart is dropped exactly when either kind is missing |
| Charts.BarHeight | charts.py:149 | the height is `height_per_bar` times the rows or 200, whichever is larger |
| Charts.CompanyCategoryScoresChart | charts.py:115-149 | for rows that are dicts, no chart for an empty frame; otherwise the columns found and a height of at least 200 and at least `height_per_bar` per row |
| L2MappingTable.MaturityLabel | charts/nist_finding_tab_L2_mapping_table.py:14-23 | `Weak` below 2, `Marginal` below 3, `Marginal/Strong` below 3.5, `Strong` from 3.5, each with its indicator |
| L2MappingTable.MaturityMonotone | charts/nist_finding_tab_L2_mapping_table.py:14-23 | a higher rating never gets a weaker band |
| L2MappingTable.CmmFrame | charts/nist_finding_tab_L2_mapping_table.py:30-34 | for a scan of dict rows, a frame that is not empty has records and columns |
| L2MappingTable.FilterCompany | charts/nist_finding_tab_L2_mapping_table.py:36-42 | with a selected id and a `company_id` column, exactly the records whose id reads as the same text; otherwise all records |
| L2MappingTable.MissingCols | charts/nist_finding_tab_L2_mapping_table.py:44-45 | exactly the required columns that are absent |
| L2MappingTable.FirstSeen | charts/nist_finding_tab_L2_mapping_table.py:50 | each value once, and exactly the values present |
| L2MappingTable.DomainCells | charts/nist_finding_tab_L2_mapping_table.py:50 | no kept domain cell is null |
| L2MappingTable.DomainData | charts/nist_finding_tab_L2_mapping_table.py:53 | exactly the records of that domain |
| L2MappingTable.RatingsOf | charts/nist_finding_tab_L2_mapping_table.py:54-61 | at most one rating per record |
| L2MappingTable.DomainRow | charts/nist_finding_tab_L2_mapping_table.py:62-77 | a row exactly when the domain has a numeric rating, holding the domain, the exact real mean of its ratings and how many there are |
| L2MappingTable.Aggregate | charts/nist_finding_tab_L2_mapping_table.py:51-77 | at most one row per domain |
| L2MappingTable.AggregateMeaning | charts/nist_finding_tab_L2_mapping_table.py:51-77 | every row is a listed domain's row, and every listed domain with a numeric rating has its row |
| L2MappingTable.RatingsBounded | charts/nist_finding_tab_L2_mapping_table.py:54-61 | the kept ratings lie within any bounds all numeric ratings lie within |
| L2MappingTable.AggregateBounded | charts/nist_finding_tab_L2_mapping_table.py:62-63 | every exact real mean lies within any bounds the ratings lie within |
| L2MappingTable.OtherNames | charts/nist_finding_tab_L2_mapping_table.py:99-101 | exactly the functions of the rows outside the fixed order |
| L2MappingTable.RowLeTotal | charts/nist_finding_tab_L2_mapping_table.py:103-106 | any two rows are comparable by `(function, domain)` |
| L2MappingTable.RowLeTrans | charts/nist_finding_tab_L2_mapping_table.py:103-106 | the `(function, domain)` order is transitive |
| L2MappingTable.InsertRow | charts/nist_finding_tab_L2_mapping_table.py:106 | inserting a row adds it and keeps the others |
| L2MappingTable.InsertRowSorted | charts/nist_finding_tab_L2_mapping_table.py:106 | inserting into sorted rows keeps them sorted |
| L2MappingTable.SortRows | charts/nist_finding_tab_L2_mapping_table.py:106 | the sort is a permutation |
| L2MappingTable.SortRowsSorted | charts/nist_finding_tab_L2_mapping_table.py:106 | the sorted rows are in `(function, domain)` order |
| L2MappingTable.OrderedRows | charts/nist_finding_tab_L2_mapping_table.py:93-106 | the ordered rows are a permutation of the aggregated rows, sorted, with the six functions first in their fixed order |
| L2MappingTable.SummaryPartition | charts/nist_finding_tab_L2_mapping_table.py:111-137 | each metric counts the rows shown with its band, and the four add up to the number of rows |
| L2MappingTable.Blanked | charts/nist_finding_tab_L2_mapping_table.py:154-159 | one cell per row |
| L2MappingTable.Filled | charts/nist_finding_tab_L2_mapping_table.py:154-159 | one function per cell |
| L2MappingTable.FilledBlanked | charts/nist_finding_tab_L2_mapping_table.py:154-159 | blanking repeated functions loses nothing: filling each blank from above restores the column |
| L2MappingTable.MergeFunctions | charts/nist_finding_tab_L2_mapping_table.py:154-159 | the loop with `prev_function` computes `Blanked` |
| L2MappingTable.Functions | charts/nist_finding_tab_L2_mapping_table.py:152 | one function name per row |
| L2MappingTable.Display | charts/nist_finding_tab_L2_mapping_table.py:149-151 | one displayed row per row |
| L2MappingTable.L2Cases | charts/nist_finding_tab_L2_mapping_table.py:29-50 | for a scan of dict rows, no table for an empty scan; the missing columns, in order, when a required one is absent; a raise without a `domain` column |
| L2MappingTable.TableOfMeaning | charts/nist_finding_tab_L2_mapping_table.py:82-159 | a row per aggregated domain, each with the band of its exact real mean rating, and metrics adding up to the rows shown |
| L2MappingTable.L2TableRows | charts/nist_finding_tab_L2_mapping_table.py:36-82 | a shown table is built from the non-empty aggregation of the company's domains |
| L2MappingTable.CollectRatings | charts/nist_finding_tab_L2_mapping_table.py:54-61 | the inner loop computes `RatingsOf` |
| L2MappingTable.AggregateDomains | charts/nist_finding_tab_L2_mapping_table.py:51-77 | the loop over the unique domains computes `Aggregate` |
| L2MappingTable.RenderL2DomainsTable | charts/nist_finding_tab_L2_mapping_table.py:26-159 | computes `L2DomainsTable` |
| L2MappingTable.BuildRatedTable | charts/nist_finding_tab_L2_mapping_table.py:50-81 | computes `RatedTable` |
| L2MappingTable.BuildTable | charts/nist_finding_tab_L2_mapping_table.py:82-159 | computes `TableOf` |
| CompanyTab.ConcatOrRaiseNone | ui/view_dashboard/company_tab.py:33-38 | the date loops raise exactly when one of their parts does |
| CompanyTab.ConcatOrRaiseSnoc | ui/view_dashboard/company_tab.py:33-38 | one more part that does not raise appends its dates |
| CompanyTab.ItemDates | ui/view_dashboard/company_tab.py:35-38 | a finding raises exactly when it is not a dict; otherwise it gives at most one date, the text of its first truthy date key, and none when that is falsy |
| CompanyTab.ListDatesNone | ui/view_dashboard/company_tab.py:34-38 | a category list raises exactly when one of its findings is not a dict |
| CompanyTab.EntryDatesNone | ui/view_dashboard/company_tab.py:33-38 | one category raises exactly when its value cannot be iterated or one of its findings is not a dict |
| CompanyTab.DomainDatesNone | ui/view_dashboard/company_tab.py:32-38 | a domain raises exactly when its truthy `findings_by_category` is not a dict or one of its categories raises |
| CompanyTab.MinText | ui/view_dashboard/company_tab.py:39 | `min(dates)` is one of the dates and no date is below it |
| CompanyTab.MaxText | ui/view_dashboard/company_tab.py:40 | `max(dates)` is one of the dates and no date is above it |
| CompanyTab.CompanyIdCell | ui/view_dashboard/company_tab.py:45 | the company cell is set exactly when a truthy company id is selected |
| CompanyTab.RowOf | ui/view_dashboard/company_tab.py:27-51 | a domain gives a row exactly when it is a dict whose findings do not make the loops raise |
| CompanyTab.MapOrRaise | ui/view_dashboard/company_tab.py:27-52 | when the loop does not raise it keeps one value per element |
| CompanyTab.MapOrRaiseMeaning | ui/view_dashboard/company_tab.py:27-52 | the loop raises exactly when one element does, and otherwise holds each element's value, in order |
| CompanyTab.MapOrRaiseSnoc | ui/view_dashboard/company_tab.py:27-52 | one more element that does not raise appends its value |
| CompanyTab.RowsOfMeaning | ui/view_dashboard/company_tab.py:27-52 | the table raises exactly when some domain does, and otherwise has one row per domain, in order, each that domain's row |
| CompanyTab.DomainsTableMeaning | ui/view_dashboard/company_tab.py:19-52 | the table raises when the domains cannot be iterated or one of them raises; otherwise one row per domain, in order |
| CompanyTab.RowMeaning | ui/view_dashboard/company_tab.py:28-51 | each row has its domain's first truthy id and name keys, the selected company, the source `synthetic`, no dates exactly when none were found, and otherwise the least and greatest date found |
| CompanyTab.FirstNotAfterLast | ui/view_dashboard/company_tab.py:39-40 | the first seen date is never after the last |
| CompanyTab.CollectListDates | ui/view_dashboard/company_tab.py:34-38 | the loop over one category's findings computes `ListDates` |
| CompanyTab.CollectDomainDates | ui/view_dashboard/company_tab.py:32-38 | the loops over a domain's categories compute `DomainDates` |
| CompanyTab.RowsOfStops | ui/view_dashboard/company_tab.py:27-52 | one domain that raises makes the whole table raise |
| CompanyTab.BuildDomainsTable | ui/view_dashboard/company_tab.py:19-52 | the loop over the company's domains computes `DomainsTable` |

## Left out

- The network, the filesystem and the clock. They are parameters: the service's answer for each URL, a directory value or the `BundleStore` fields, and the current time. Timeouts, sessions, headers and atomic rename are not modelled.
- The text of `HTTPError` and `RiskAPIError` messages beyond their status and the first 800 characters of body.
- `get_internal_scan` and the other fetches the chart and view functions make. The model takes their results, or their failure, as inputs.
- `company_summary`, `findings_to_chart_df`, the filter-option lists and the date filters of `services.py`. They are presentation helpers outside the data-shaping core.
- The second bundle load of `internal_controls_cmm_bar_chart`, inside `get_company_category_scores_df` (`helpers.py:94`). The model reads the score table from the same bundle value as the first load at `charts/external_csf_charts.py:38`. A file that changes between the two loads is not modelled.
- `pd.json_normalize` and `stringify_nested` in the findings table. The model works on the records as given.
- Altair and Streamlit rendering: encodings, tooltips, colours, captions and warnings. Each chart is modelled up to the rows it renders. The DataFrame column order at `ui/view_dashboard/company_tab.py:53-64` is not modelled.
- The percentages, rounding and `CSF_FUNCTION_FULL` names of `charts.py:78-84`. The import of that name fails, and they are floating-point presentation.
- The order of `value_counts()`. The model lists distinct values in order of first appearance. Only the totals are used.
- `sort_mode` and the `Score` coercion of `company_category_scores_chart` (`charts.py:138-147`). They only affect drawing.
- `mean` and `fmt_or_dash` of `charts/charts_helpers.py:131-146`. They involve NaN and formatting, and the external chart uses them only for its tooltip text.
- Text.Unique: keeps the last occurrence, where `drop_duplicates` keeps the first. Only the counts are used, and they do not depend on which occurrence is kept.
- pandas dtypes. NaN is modelled where the internal scan builds its frame: a key some other row has, or a null in a column of numbers, is NaN in that row (`CsfScan.IsNaN`). Elsewhere a missing value is `None`, and other dtype coercion is not modelled.
- L2MappingTable.OrderedRows: compares domain names as text (`Str` of the cell), so it assumes they are text. The source sorts the raw `domain` values at `charts/nist_finding_tab_L2_mapping_table.py:106`. Integer domains there sort by number, so 9 comes before 10 where the model puts `"10"` first. A mix of numbers and text raises `TypeError` in both sorts at lines 106 and 109, and the call fails, where the model renders a table.
- The TypeError fallback sort of `charts/nist_finding_tab_L2_mapping_table.py:107-109` is not modelled. The function column is always text at that point, and with text domains the first sort does not raise. Sort stability is not stated: the order lemmas prove a sorted permutation.
- Services.MappingLastWins: the mapping's keys are compared as JSON values. Python treats `1`, `1.0` and `True` as one dict key, so an id-less company named `1` and a later one named `1.0` share an entry in the source and have separate entries here. Only labels of companies without an id can be numbers.
- DistributionL1CsfCharts.CountL1: `l1_counts` is a map with absent names read as 0, not a `defaultdict`.
- JsonValue.ToFloat: accepts decimal text with an optional sign and point only. There is no exponent, no `inf`/`nan` and no underscores, and a bool converts as 0 or 1. Floats are exact reals: an integer converts to its exact value, and a JSON integer of 2**1024 or more, which makes Python's `float` raise `OverflowError`, converts here.
- Helpers.ExtractNumber: converts through `JsonValue.ToFloat`, so a JSON integer of 2**1024 or more gives a number where `float(x)` at `helpers.py:22-23` raises an uncaught `OverflowError`.
- DataframeUtils.Mean: is the exact real mean. The source divides an IEEE double sum, so its mean can differ in the last bits: three scores of 0.1 average to 0.10000000000000002.
- DataframeUtils.MeanBounds: holds of the exact real mean only. The double mean of `utils/dataframe_utils.py:130-131` can lie just outside `[lo, hi]`, as three scores of 0.1 show.
- DataframeUtils.OverviewScore: its bound between the least and greatest finding score holds of the exact real mean only, not of the double mean at `utils/dataframe_utils.py:131`.
- Services.FallbackBounds: its bound holds of the exact real mean only, not of the double mean at `services.py:167-168`.
- L2MappingTable.DomainRow: holds the exact real mean of the domain's ratings. The double mean at `charts/nist_finding_tab_L2_mapping_table.py:63` can differ in the last bits: ratings 0.1, 2.3, 2.3 and 3.3 give 1.9999999999999998 there and 2.0 here.
- L2MappingTable.AggregateBounded: its bound holds of the exact real mean only; the double mean can lie just outside the ratings' bounds.
- L2MappingTable.TableOfMeaning: bands the exact real mean. Where the double mean falls just below a threshold the source shows the lower band: the ratings 0.1, 2.3, 2.3 and 3.3 are "Weak" there, counted under Weak Domains, and "Marginal" here.
- Helpers.ToDf: assumes the elements of a non-empty list whose first element is a dict are all dicts. A later non-dict element makes `pd.DataFrame` raise `AttributeError` at `helpers.py:56`; the model keeps the dict elements.
- DataframeUtils.ToDfRows: keeps the dict elements of a list. A list with a dict first and a non-dict later makes `pd.DataFrame` raise `AttributeError` at `utils/dataframe_utils.py:26`, and a list of non-dicts gives integer column labels there.
- Services.Columns: as the columns of `pd.DataFrame(rows)` it assumes dict rows. pandas raises for a non-dict row after a dict, and labels the columns of non-dict rows with integers.
- InternalCsfCharts.BuildCsfControlsTableDf: assumes the scan is a list of dicts, as `charts/internal_csf_charts.py:185` annotates it. A dict followed by a non-dict raises at line 201, and a list of non-dicts gives an integer column on which `detect_control_ref_col` raises at `charts/charts_helpers.py:91`; the model gives an empty table or rows.
- ExternalCsfCharts.NoChartCases: assumes a scan of dict rows. Non-dict rows make `charts/external_csf_charts.py:24` or `:28` raise, where the model gives no chart.
- DistributionL1CsfCharts.NoChartCases: assumes a scan of dict rows. Non-dict rows make `charts/distribution_l1_csf_charts.py:41` or `:45` raise, where the model gives no chart.
- Charts.CompanyCategoryScoresChart: assumes a list of dict rows. A dict followed by a non-dict raises at `charts.py:116`, and non-dict rows give the integer column 0, on which `c.lower()` raises at `charts.py:120`; the model gives no chart.
- L2MappingTable.CmmFrame: assumes a scan of dict rows. A dict followed by a non-dict raises in `to_df` at `utils/dataframe_utils.py:26`, which the frame model does not show.
- L2MappingTable.L2Cases: assumes a scan of dict rows. A dict followed by a non-dict raises in `to_df`, where the model reports missing columns or a table.
- Store.SavedIsListed: treats a file name as one flat directory entry. `json_handler.py:72` joins `DATA_ROOT` with `f"{company_id}_data.json"`, so an id text containing `/` writes into a subdirectory that `_atomic_write_json` creates (`:37`). `list_company_bundles` (`:90`) never lists that bundle, and an id such as `../x` writes outside `DATA_ROOT`.
- Store.Saved: adds the file name to one flat directory. Subdirectories made by an id containing `/` are not modelled.
- JsonValue.Str: renders numbers in a simple decimal form and lists and dicts as placeholders. It does not reproduce Python's `repr` in every case.
- Text.StrLe: compares code points, which is Python's `str` order. There is no locale.
- Store.MissingKeepsExisting: assumes no company id text contains `_data.json`. With such an id the existing file is overwritten, which `Store.MissingOverwritesCollision` shows.
- Store.RefreshWritesStale: the exact list of written names assumes distinct, canonical directory entries. For any listing, `Store.RefreshPassContents` and `Store.RefreshPassFrame` state what is written and what is left alone.
- Normalization.NormRefIdempotent: holds only when the normal form does not begin with whitespace. `Normalization.NormRefNotIdempotentExample` shows an input where it fails.
- Normalization.PrefixOfNormRef: has the same precondition, for the same input.
- The characters outside ASCII. Case mapping leaves them unchanged, where Python maps them.
