# stackql-provider-utils, modelled in Dafny

This project models the core of `@stackql/provider-utils`. That library helps
authors of StackQL providers in two ways:

* **Provider development** (`src/providerdev/`):
  * `split` cuts one OpenAPI document into one document per service. A service
    is chosen per operation, by tag, by path segment or by default.
  * `generate` adds the `x-stackQL-resources` extension to each service
    document, driven by a CSV mapping of operations to resources, methods and
    SQL verbs.
  * `analyze` writes that CSV from the documents: one row per operation, with
    any mapping that already exists.
* **Documentation** (`src/docgen/`): helpers that turn a resource and its
  dereferenced OpenAPI document into Markdown:
  * the fields table of each SQL method;
  * the parameters table;
  * `SELECT`, `INSERT`, `UPDATE`, `DELETE` and `EXEC` example tabs;
  * the page of a view resource.
* The small utilities `camelToSnake` and the module-level logger.

## How it is modelled

* Parsed YAML/JSON values are the datatype `JsonModel.Json`. An object keeps
  its entries in insertion order (`seq<Entry>`), as JavaScript iterates them.
  `Get` reads a member and `Entries` lists them.
* Code the source writes as expressions is modelled as functions. This covers
  service naming, `$ref` parsing, the example and table builders, and the
  text helpers.
* Loops that accumulate a value are methods. Each is proved equal to a
  specification function (`ensures r == Spec(inputs)`). The properties the
  source promises are then proved as lemmas about that function.
* `split()` keeps its services in a dictionary that every pass rewrites. This
  is the class `SplitMain.Splitter`, with a field `services`. Its methods run
  the first pass and each later pass over that field. The logger is the class
  `Logging.Logger`, with its current level as a field.
* A JavaScript `TypeError` that the source would throw on a malformed
  document is an `Err` of the datatype `Base.Result`. So is a `throw`.
  Properties are stated for the `Ok` case, and the error cases are
  characterised where the source documents them.
* File reading and writing, directory creation, YAML/JSON parsing and
  printing, the progress log lines, the dereferencer and `process.exit` are
  not modelled. Their inputs and outputs are parameters and results: the
  parsed document, the rows of the CSV, and the text of a page.

## Model

| member | source | states |
|---|---|---|
| Utils.CamelToSnake | src/utils.js:10-13 | The result has no upper-case letter |
| Utils.CamelToSnakeInserts | src/utils.js:10-13 | The result is the lower-cased name with underscores inserted only, and its length grows by exactly the inserted underscores |
| Utils.CamelToSnakeNoUpper | src/utils.js:10-13 | A name with no upper-case letter is returned unchanged |
| Utils.CamelToSnakeIdempotent | src/utils.js:10-13 | Applying the conversion twice gives the same as once |
| Logging.LookupLevel | src/logger.js:4-9 | `logLevels[name]` is a rank exactly for error, warn, info and debug, an inherited member exactly for the names of `Object.prototype`, and `undefined` otherwise |
| Logging.Logger.SetLevel | src/logger.js:18-25 | The new level is the given name when `logLevels` has it, as its own or an inherited member, otherwise `info` |
| Logging.Logger.Log | src/logger.js:27-49 | A message is emitted exactly when its severity ranks at or below the current level, prefixed with its severity tag; errors are emitted at every level of the table, and nothing at an inherited level such as `toString` |
| Logging.EmitsMonotone | src/logger.js:27-49 | A level that emits a severity emits every more severe one |
| Logging.EmitsExtremes | src/logger.js:27-49 | Errors are emitted at every level of the table; debug messages only at `debug` |
| SplitClassify.ExcludeList | src/providerdev/split.js:342 | The exclude list holds the comma-free segments of the option, which join back into it with commas; it is empty exactly when the option is |
| SplitClassify.IsOperationExcluded | src/providerdev/split.js:23-34 | An operation is excluded exactly when the list is non-empty and one of its tags is listed; a truthy non-array `tags` throws |
| SplitClassify.TagServiceName | src/providerdev/split.js:53 | The tag-based name keeps the length and has no upper case, hyphen or space |
| SplitClassify.PathServiceName | src/providerdev/split.js:75 | The path-based name keeps the length and has no upper case, hyphen, space or dot |
| SplitClassify.FirstSignificant | src/providerdev/split.js:66-77 | The chosen segment is the first that is neither `api` nor a version `v<digits>`; none is chosen only when all are insignificant |
| SplitClassify.RetServiceNameAndDesc | src/providerdev/split.js:47-103 | Naming fails exactly when the underlying tag or path naming fails |
| SplitClassify.TagNaming | src/providerdev/split.js:52-100 | With the tag discriminator the name is the normalised first tag, `skip` stays `skip`, and a non-empty override replaces the name |
| SplitClassify.PathNaming | src/providerdev/split.js:65-100 | With the path discriminator the name is the first significant segment, normalised, or `default`, and the description names the provider and the (overridden) service |
| SplitClassify.DefaultNaming | src/providerdev/split.js:48-100 | With any other discriminator the service is `default` (or its override) described as `<provider> API` |
| SplitClassify.TagDescNeedsNormalName | src/providerdev/split.js:56-61 | A description other than the default comes from a tag whose name equals the service name |
| SplitClassify.InitService | src/providerdev/split.js:115-139 | A new service has empty paths, one empty bucket per component kind in order, and servers exactly when the document has truthy servers |
| SplitRefs.GetAllRefs | src/providerdev/split.js:146-170 | The collected refs equal the specification `RefsOf` |
| SplitRefs.RefsOfExactly | src/providerdev/split.js:146-170 | A string is collected exactly when it is the string value of a `$ref` member somewhere in the value |
| SplitRefs.RefsNoDup | src/providerdev/split.js:146-170 | The collected refs have no duplicates, as in a `Set` |
| SplitRefs.GetPathLevelRefs | src/providerdev/split.js:177-209 | The path-level refs equal the specification `PathLevelRefs` |
| SplitRefs.PathLevelRefsExactly | src/providerdev/split.js:177-209 | A ref is collected exactly when it occurs in a member of the path item that is not an HTTP operation |
| SplitClosure.ResolveReferences | src/providerdev/split.js:248-305 | The worklist equals the specification `Resolve` |
| SplitClosure.ResolveClosure | src/providerdev/split.js:248-305 | Every starting ref is resolved, components already present are kept, every added component is a copy of the source component, and the refs inside every added component are resolved in turn |
| SplitClosure.TargetOfComponentRef | src/providerdev/split.js:259-264 | A ref of the form `a/components/<kind>/<name>...` targets that kind and name |
| SplitClosure.ComponentRefForm | src/providerdev/split.js:259-264 | Every ref with a target has that form |
| SplitMain.GithubResource | src/providerdev/split.js:436-442 | For providers other than `github` the operation is stored unchanged |
| SplitMain.DestinationDrops | src/providerdev/split.js:394-408 | Excluded operations and the `skip` service are dropped; any other operation goes to the service its naming gives |
| SplitMain.ClassifySound | src/providerdev/split.js:367-457 | Every operation stored in a service comes from the document at the same path and verb and was sent to that service |
| SplitMain.ClassifyComplete | src/providerdev/split.js:367-457 | Every operation of the document sent to a service is stored in that service under the same path and verb |
| SplitMain.ClassifyUpToWellFormed | src/providerdev/split.js:367-457 | The first pass leaves the services well formed: the service order lists each service once, and every component bucket is an object |
| SplitMain.CopyPathLevel | src/providerdev/split.js:446-456 | Copying path-level members equals the specification `CopyNonOps` |
| SplitMain.PlaceOps | src/providerdev/split.js:380-443 | The operation loop of one path equals the specification `OpsUpTo` |
| SplitMain.CopyServices | src/providerdev/split.js:446-456 | The copy loop over the path's services equals the specification `CopyToServices` |
| SplitMain.ClassifyOne | src/providerdev/split.js:367-457 | One path of the first pass equals the specification `ClassifyPath` |
| SplitMain.Splitter.ClassifyPaths | src/providerdev/split.js:360-457 | The first pass leaves in `services` exactly the specification `Classify`, or reports its error |
| SplitMain.ServiceRefsExactly | src/providerdev/split.js:465-487 | A ref is gathered for a service exactly when it occurs path-level or in an operation of one of its paths |
| SplitMain.CollectServiceRefs | src/providerdev/split.js:465-487 | The gathering loop equals the specification `ServiceRefsUpTo` |
| SplitMain.CollectService | src/providerdev/split.js:460-495 | Collecting one service equals the specification `CollectFor` |
| SplitMain.CollectCovers | src/providerdev/split.js:460-495 | After the second pass every ref of the service's paths is resolved, and so are the refs inside every component it added |
| SplitMain.CollectedWellFormed | src/providerdev/split.js:460-495 | The second pass keeps the services well formed |
| SplitMain.PassExactly | src/providerdev/split.js:498-553 | A per-service pass fails exactly when it fails on some service, keeps the key order, and gives each service the pass's result |
| SplitMain.ApplyPass | src/providerdev/split.js:498-553 | One pass on one service equals the specification `Apply` |
| SplitMain.Splitter.RunPassOn | src/providerdev/split.js:498-553 | Running a pass leaves in `services` exactly the specification `RunPass` on the old services, or reports its error |
| SplitMain.TypesNoNull | src/providerdev/split.js:542-543 | Adding object types leaves no component bucket `null` |
| SplitMain.TypesForTyped | src/providerdev/split.js:542-543 | After the types pass every schema with properties in paths and components has a type |
| SplitMain.AddTypesPass | src/providerdev/split.js:538-544 | The types pass never fails on well-formed services and types every service's paths |
| SplitMain.CleanupPass | src/providerdev/split.js:547-553 | The cleanup pass never fails, keeps paths, and leaves only non-empty component buckets |
| SplitMain.LastPassesTotal | src/providerdev/split.js:498-553 | Once references are collected, the last passes succeed, leaving typed paths and non-empty buckets |
| SplitMain.Splitter.Run | src/providerdev/split.js:312-568 | The whole in-memory split equals the specification `SplitDoc`: service name to document |
| SplitPost.RenameKey | src/providerdev/split.js:507 | The renamed path keeps its length and differs only where a hyphen became an underscore |
| SplitPost.RenameKeyNoHyphen | src/providerdev/split.js:507 | A path without hyphens is not renamed |
| SplitPost.RenameParam | src/providerdev/split.js:521-528 | An in:path parameter's name has every hyphen replaced; other parameters are unchanged; a failure needs a null or in:path parameter |
| SplitPost.RenameOperation | src/providerdev/split.js:518-531 | An operation without truthy `parameters` is unchanged |
| SplitPost.PathLevelParamsUntouched | src/providerdev/split.js:518-531 | A path-level `parameters` array is not an operation and is left as it is |
| SplitPost.RenameItemEntries | src/providerdev/split.js:518-531 | Renaming a path item's members keeps its keys in order |
| SplitPost.RenameOne | src/providerdev/split.js:509-532 | A path the regular expression leaves unchanged is not moved |
| SplitPost.RenameOneMoves | src/providerdev/split.js:509-532 | A renamed path leaves its old key, is found under the new key holding the item with its path parameters renamed, and every other path is unchanged |
| SplitPost.RenameOneKeeps | src/providerdev/split.js:509-532 | Other paths stay present after one rename |
| SplitPost.RenameItemClean | src/providerdev/split.js:518-531 | After renaming, no in:path parameter of any operation of the moved item has a hyphen in its name |
| SplitPost.SnapshotKeysPresent | src/providerdev/split.js:500-501 | Every key of the snapshot taken before the loop is still present when its turn comes |
| SplitPost.RenamePathParams | src/providerdev/split.js:498-535 | The rename loop equals the specification `RenamePaths` |
| SplitPost.PlaceholderParamDiverge | src/providerdev/split.js:507-524 | A placeholder with two hyphens keeps one in the path, while the parameter name loses both |
| SplitPost.AddMissingObjectTypes | src/providerdev/split.js:216-238 | The walk equals the specification `WithObjectTypes` |
| SplitPost.WithObjectTypesTyped | src/providerdev/split.js:216-238 | Every object with truthy properties in the result has a truthy type |
| SplitPost.WithObjectTypesTruthy | src/providerdev/split.js:216-238 | The walk keeps the truthiness of the value |
| SplitPost.WithObjectTypesIdempotent | src/providerdev/split.js:216-238 | Adding types twice gives the same as once |
| SplitPost.Prune | src/providerdev/split.js:547-553 | The kept buckets are exactly the non-empty ones; it fails exactly when a bucket is `null` |
| SplitPost.PruneObjects | src/providerdev/split.js:547-553 | With object buckets the cleanup succeeds and keeps only non-empty objects |
| SplitPost.PruneAppend | src/providerdev/split.js:548-552 | Cleaning up two runs of buckets in turn is cleaning up both: the first error wins, and the kept buckets stay in key order |
| SplitPost.PruneStep | src/providerdev/split.js:549-551 | One turn of the loop: a bucket whose keys cannot be listed throws the cleanup's error, otherwise it is kept exactly when it has keys |
| SplitPost.PruneComponents | src/providerdev/split.js:547-553 | The cleanup loop, walking the buckets in key order, equals the specification `Prune` |
| Analyze.ExtractMain2xxResponse | src/providerdev/analyze.js:26-56 | The scan equals the specification `Main2xxFrom` |
| Analyze.Main2xxFirst | src/providerdev/analyze.js:26-56 | The response used is the first whose status starts with `2` |
| Analyze.Main2xxNone | src/providerdev/analyze.js:26-56 | Without a 2xx status the result is empty |
| Analyze.FindExistingMapping | src/providerdev/analyze.js:58-91 | The search equals the specification `FindMapping` |
| Analyze.SearchFromFirst | src/providerdev/analyze.js:58-91 | The mapping is that of the first method, in resource order, whose operation ref is the path ref, or empty when none matches |
| Analyze.FindMethod | src/providerdev/analyze.js:63-64 | The method scan equals the specification `FirstMatchFrom` |
| Analyze.FindSqlVerb | src/providerdev/analyze.js:66-75 | The verb scan equals the specification `SqlVerbOf` |
| Analyze.SqlVerbOfLast | src/providerdev/analyze.js:66-75 | The verb is `exec` when no verb lists the method, otherwise the last verb that lists it |
| Analyze.VerbFromLast | src/providerdev/analyze.js:66-75 | The last listing verb wins over earlier ones |
| Analyze.AnalyzeSpec | src/providerdev/analyze.js:123-158 | The rows of one document equal the specification `SpecLines` |
| Analyze.LinesUpToCount | src/providerdev/analyze.js:124-128 | One row per object-valued member of each path item |
| Analyze.CsvFieldQuoted | src/providerdev/analyze.js:149-153 | A field is quoted exactly when it contains a comma, and quoting wraps it in double quotes |
| Analyze.RowLineRoundTrip | src/providerdev/analyze.js:156 | A row whose fields have no comma splits back into its fields |
| Analyze.SplitOfJoin | src/providerdev/analyze.js:156 | Splitting a comma-joined list of comma-free parts gives the parts back |
| Generate.EncodeRefPath | src/providerdev/generate.js:61-64 | The operation ref starts with `#/paths/` and ends with `/<verb>` |
| Generate.EncodePathNoSlash | src/providerdev/generate.js:62 | The encoded path has no `/` |
| Generate.DecodeEncodedPath | src/providerdev/generate.js:62 | Replacing `~1` by `/` restores a path that had no `~1` |
| Generate.DecodeOpRefRoundTrip | src/providerdev/generate.js:61-64 | The path and verb are recovered from the operation ref when the path has no `~1` and the verb no `/` |
| Generate.EncodeRefPathCollision | src/providerdev/generate.js:62 | The encoding is not injective: `a/b` and `a~1b` give the same ref |
| Generate.PathRefMatchEncoded | src/docgen/helpers.js:68-78 | The ref matcher of the documentation helpers splits a generated ref back into the encoded path and the verb |
| Generate.ExecTargetOfGenerated | src/docgen/helpers.js:58-85 | A generated method entry is documented by the exec helpers against the path and verb it was generated from |
| Generate.OpForSqlVerbOfGenerated | src/docgen/helpers.js:298-317 | A method listed under a sql verb by the generator is found again by the documentation helpers' sql-verb lookup |
| Generate.TwoXxCodes | src/providerdev/generate.js:73-74 | The kept status codes are exactly those starting with `2` |
| Generate.SortedFirstLeast | src/providerdev/generate.js:75 | The first sorted code is one of the codes and at most every other |
| Generate.SuccessResponseLowest | src/providerdev/generate.js:71-91 | The response key is empty exactly when no status starts with `2`, otherwise the least such status, and the media type is the first of its content or empty |
| Generate.SnakeCase | src/providerdev/generate.js:98-100 | Every hyphen becomes an underscore and nothing else changes |
| Generate.TitleShape | src/providerdev/generate.js:217 | The title keeps the length, turns every underscore into a space, changes letters only in case, and leaves no lower-case letter at the start of a word |
| Generate.ServiceName | src/providerdev/generate.js:179-180 | The service name is no longer than the file name and has no hyphen |
| Generate.MethodRefLast | src/providerdev/generate.js:242 | The last segment of a sql verb reference is the method name |
| Generate.NewResource | src/providerdev/generate.js:213-227 | A new resource has no methods and exactly the five empty sql verb lists |
| Generate.RecordInEffect | src/providerdev/generate.js:237-246 | Recording a method stores its entry under its name and appends its reference to the list of its verb only |
| Generate.AddOperationRecords | src/providerdev/generate.js:196-246 | One operation records its method entry in its resource, appends to exactly its verb's list, and leaves every other resource unchanged |
| Generate.BuildResourcesWellFormed | src/providerdev/generate.js:188-248 | Every resource has its id, name and title from its key, exactly the five verb lists, and only references to its own methods |
| Generate.BuildResourcesMapped | src/providerdev/generate.js:196-206 | When building succeeds every listed operation had a manifest row |
| Generate.AddPathOperations | src/providerdev/generate.js:191-247 | The inner loop equals the specification `TurnsUpTo` |
| Generate.AddPathOne | src/providerdev/generate.js:190-248 | One path equals the specification `AddPath` |
| Generate.GenerateResources | src/providerdev/generate.js:188-248 | The nested loops equal the specification `BuildResources` |
| Generate.ResourcesJson | src/providerdev/generate.js:254 | The extension object lists the resources in creation order |
| Generate.InjectResources | src/providerdev/generate.js:251-254 | The extension is stored under `components`, other members of the document and of `components` are unchanged |
| DocHelpers.IndefiniteArticle | src/docgen/helpers.js:5-24 | The article is `an` exactly for names starting with a, e, i or o, with `un` or with `hour` (ignoring case), and `a` otherwise |
| DocHelpers.SanitizeHtmlClean | src/docgen/helpers.js:26-35 | The sanitized text has no brace and no line break |
| DocHelpers.SanitizeFixedPoint | src/docgen/helpers.js:26-35 | Text without braces, angle brackets, line breaks or the escaped `}_{` form is unchanged |
| DocHelpers.SanitizeLineBreak | src/docgen/helpers.js:26-35 | A line break becomes `<br />` and the text on each side is sanitized on its own |
| DocHelpers.SanitizeBraceUnderscore | src/docgen/helpers.js:26-35 | `}_{` becomes `&#125;&#95;&#123;` and the text on each side is sanitized on its own |
| DocHelpers.SanitizeOne | src/docgen/helpers.js:26-35 | Each single character maps to its entity (`{`, `}`, `<`, `>`), to `<br />`, or to itself |
| DocHelpers.SanitizeNoUnderscore | src/docgen/helpers.js:26-35 | Text without underscores is escaped character by character |
| DocHelpers.SanitizeAppendPlain | src/docgen/helpers.js:26-35 | Without underscores, sanitizing a concatenation sanitizes each part |
| DocHelpers.LastIndexOf | src/docgen/helpers.js:68 | The position found holds the character and none follows it; none is found only when the character is absent |
| DocHelpers.MatchFromSound | src/docgen/helpers.js:68 | A match splits the ref into a prefix, `#/paths/`, a non-empty path, `/` and a non-empty verb without `/` |
| DocHelpers.MatchFromComplete | src/docgen/helpers.js:68 | Every ref of that form whose path has no line terminator is matched |
| DocOperation.OpForSqlVerb | src/docgen/helpers.js:298-317 | The method name is the last segment of the sql verb reference, and the lookup needs a string reference and truthy `methods` |
| DocOperation.OperationOf | src/docgen/helpers.js:322-330 | The operation is found exactly when the path and the verb are truthy in `paths`; otherwise the lookup throws |
| DocOperation.RequestBodyOf | src/docgen/helpers.js:335-363 | Without a truthy request body the result is the empty object |
| DocOperation.RespBody | src/docgen/helpers.js:402-468 | A schema that is neither array nor object gives no properties and an empty description; an object schema without object key gives its own properties and description |
| DocOperation.OperationInfoNeedsOp | src/docgen/helpers.js:319-330 | A missing path or verb is the error of the whole lookup |
| DocOperation.OperationInfoDescription | src/docgen/helpers.js:333 | The operation description is returned as is, or empty |
| DocOperation.OperationInfoNoResponse | src/docgen/helpers.js:365-388 | Without the response there are no properties and no description; without content for the media type there are no properties |
| DocOperation.TypeString | src/docgen/helpers.js:198-201 | The type, followed by ` (<format>)` when the format is truthy |
| DocOperation.CleanDescription | src/docgen/helpers.js:489-491 | The description has no line break, and it fails exactly when the description is not a string |
| DocOperation.CollectVarNotes | src/docgen/helpers.js:261-278 | The loop over a server variable's fields equals the specification `VarNotes` |
| DocOperation.ServerVariables | src/docgen/helpers.js:238-242 | Reading the first server's variables fails only on a `null` document |
| DocOperation.RequiredServerVarsNamed | src/docgen/helpers.js:245-293 | The server variables table has one entry per variable, in order, under its name |
| DocOperation.GetRequiredServerVars | src/docgen/helpers.js:234-296 | The loop equals the specification `RequiredServerVars` |
| DocOperation.CollectExampleNotes | src/docgen/helpers.js:517-538 | The loop over the parameter's fields equals the specification `ExampleNotes` |
| DocOperation.ParamDetails | src/docgen/helpers.js:482-549 | Building a parameter's details fails exactly when its description is not a string |
| DocOperation.OperationParamsMerge | src/docgen/helpers.js:470-566 | A server variable overrides any parameter of the same name in the required table; otherwise a name is required exactly when a named parameter with a schema and `required: true` declares it, and optional exactly when one without declares it |
| DocOperation.GetHttpOperationParams | src/docgen/helpers.js:470-566 | The loop equals the specification `OperationParams` |
| DocProperties.PropNotesExact | src/docgen/helpers.js:209-220 | The notes are exactly `<field>: <value>` for every string field other than type, format and description |
| DocProperties.CollectPropNotes | src/docgen/helpers.js:209-220 | The loop equals the specification `PropNotes` |
| DocProperties.FormatPropertyShape | src/docgen/helpers.js:197-229 | Formatting fails exactly on a `null` property or a non-string description; otherwise the description is the cleaned description followed by the notes in parentheses |
| DocProperties.FormatPropertiesNamed | src/docgen/helpers.js:195-232 | The formatted table has one entry per property, in order, under its name |
| DocProperties.FormatPropertiesLookup | src/docgen/helpers.js:195-232 | Each property's entry is its own formatted details |
| DocProperties.FormatPropertiesLoop | src/docgen/helpers.js:195-232 | The loop equals the specification `FormatProperties` |
| DocProperties.GroupsDisjoint | src/docgen/helpers.js:158-178 | Every field name falls in exactly one of the four groups |
| DocProperties.WherePartition | src/docgen/helpers.js:158-178 | The four groups together hold the field names exactly, counting repeats |
| DocProperties.SortedFieldNamesOrder | src/docgen/helpers.js:180-186 | The sorted names are a permutation of the field names, ordered by group and then alphabetically |
| DocProperties.SortAndAddFresh | src/docgen/helpers.js:157-192 | Into a fresh table, every property is copied with its own details |
| DocProperties.WriteFields | src/docgen/helpers.js:189-191 | The write loop equals the specification `WrittenUpTo` |
| DocProperties.SortAndAddProperties | src/docgen/helpers.js:157-192 | The method equals the specification `SortAndAdd` |
| DocMethods.BuildMethodDoc | src/docgen/helpers.js:131-146 | One method's documentation entry equals the specification `BuildMethod` |
| DocMethods.FillUpToKeys | src/docgen/helpers.js:129-149 | The documented methods are exactly those the turns write, and every turn before succeeded |
| DocMethods.CollectUpToExact | src/docgen/helpers.js:43-53 | The collected names are exactly the starting ones and the names resolved |
| DocMethods.NamesExact | src/docgen/helpers.js:43-53 | The names gathered from the verb lists are exactly those the lists refer to |
| DocMethods.ExecNamesExact | src/docgen/helpers.js:43-53 | The names gathered over the five sql verbs are exactly the methods some verb refers to |
| DocMethods.CollectSqlMethodNames | src/docgen/helpers.js:43-53 | The loop equals the specification `ExecNamesUpTo` |
| DocMethods.ExecVerbList | src/docgen/helpers.js:47 | Reading a verb list needs a non-null resource |
| DocMethods.ExecTargetMatched | src/docgen/helpers.js:63-78 | A matched ref resolves to its path with `~1` and then `~0` decoded, and its verb |
| DocMethods.ExecExact | src/docgen/helpers.js:55-120 | Every method documented for `exec` is referred to by no sql verb and has a resolvable operation |
| DocMethods.VerbExact | src/docgen/helpers.js:129-149 | Every method documented for a sql verb is named by a reference on that verb's list |
| DocMethods.VerbEmpty | src/docgen/helpers.js:125-127 | A missing or empty verb list documents no method |
| DocMethods.GetExecMethods | src/docgen/helpers.js:41-123 | The exec branch equals the specification `ExecMethods` |
| DocMethods.FillExec | src/docgen/helpers.js:56-120 | The exec loop equals the specification `ExecFill` |
| DocMethods.GetSqlMethodsWithOrderedFields | src/docgen/helpers.js:38-152 | The method equals the specification `SqlMethods` |
| ExampleParts.Iterate | src/docgen/resource/examples/select-example.js:44 | A `for ... of` walks the items of an array or the characters of a string, and throws on anything else |
| ExampleParts.Includes | src/docgen/resource/examples/insert-example.js:141 | On an array, membership of the name; on a falsy list, false |
| ExampleParts.NameOfRef | src/docgen/resource/examples/select-example.js:46 | The method name is the last `/`-segment of the ref and has no `/` |
| ExampleParts.PickTurn | src/docgen/resource/examples/select-example.js:46-52 | Picking a method throws exactly when its ref cannot be read |
| ExampleParts.VerbMethodsMembers | src/docgen/resource/examples/select-example.js:39-57 | The methods chosen for a verb are exactly those whose ref names an existing method, spread with their name |
| ExampleParts.VerbMethodsOrder | src/docgen/resource/examples/select-example.js:39-57 | The methods chosen come in the order of the verb's refs |
| ExampleParts.VerbMethodsNone | src/docgen/resource/examples/select-example.js:39-57 | No method is chosen exactly when no ref names an existing method |
| ExampleParts.VerbMethodsFirst | src/docgen/resource/examples/select-example.js:39-57 | The first method chosen is that of the first ref naming an existing method |
| ExampleParts.GetVerbMethods | src/docgen/resource/examples/select-example.js:39-57 | The loop equals the specification `VerbMethods` |
| ExampleParts.GatherExact | src/docgen/resource/examples/select-example.js:169-173 | A push loop fails exactly when a turn throws, and pushes exactly what the turns give |
| ExampleParts.GatherOrder | src/docgen/resource/examples/select-example.js:169-173 | A push loop pushes what the turns give in turn order |
| ExampleParts.CollectTurns | src/docgen/resource/examples/select-example.js:169-173 | The push loop equals the specification `Gather` |
| ExampleParts.ConcatOk | src/docgen/resource/examples/select-example.js:30-32 | Concatenating the tabs fails exactly when one tab throws |
| ExampleParts.ListedJoin | src/docgen/resource/examples/select-example.js:22-24 | A comma after every label but the last is the labels joined by commas |
| ExecExample.ParamsJoined | src/docgen/resource/examples/exec-example.js:38-72 | The parameter list is the required items then the optional items, joined by the separator |
| ExecExample.RenderParams | src/docgen/resource/examples/exec-example.js:38-72 | The two parameter loops equal the specification `ParamsText` |
| ExecExample.BodyTurn | src/docgen/resource/examples/exec-example.js:86-88 | Filtering a body property throws exactly on a `null` property, and keeps the property as it is |
| ExecExample.BodyPropsExact | src/docgen/resource/examples/exec-example.js:86-88 | The kept body properties are exactly those not marked `readOnly: true` |
| ExecExample.BodyTextShape | src/docgen/resource/examples/exec-example.js:75-112 | There is a body exactly when the request body has properties, and it lists the kept properties joined and closed by `}'` |
| ExecExample.RenderBody | src/docgen/resource/examples/exec-example.js:75-112 | The body loop equals the specification `BodyText` |
| ExecExample.RenderTab | src/docgen/resource/examples/exec-example.js:28-115 | One tab equals the specification `MethodTab` |
| ExecExample.ExamplesForShape | src/docgen/resource/examples/exec-example.js:9-120 | The section is empty exactly without exec methods; otherwise it is the tab header, the labels joined by commas and every tab |
| ExecExample.CreateExecExamplesEmpty | src/docgen/resource/examples/exec-example.js:6-12 | The section is empty exactly when no exec method is documented |
| ExecExample.ExamplesTextDefault | src/docgen/resource/examples/exec-example.js:14-17 | The section opens with the heading and the first method as the default tab, and ends with the tabs and `</Tabs>` |
| ExecExample.LabelLines | src/docgen/resource/examples/exec-example.js:20-23 | The label loop equals the specification `Listed` |
| ExecExample.RenderExamples | src/docgen/resource/examples/exec-example.js:14-120 | The section loop equals the specification `ExamplesFor` |
| ExecExample.CreateExecExamplesText | src/docgen/resource/examples/exec-example.js:6-121 | The method equals the specification `CreateExecExamples` |
| SelectExample.Values | src/docgen/resource/examples/select-example.js:129 | The values of an object, in key order |
| SelectExample.FieldsTurn | src/docgen/resource/examples/select-example.js:131-138 | Looking at one method throws exactly on a `null` method |
| SelectExample.FieldsFromNone | src/docgen/resource/examples/select-example.js:127-142 | Without a method with a JSON response schema there are no fields |
| SelectExample.FieldsFromFound | src/docgen/resource/examples/select-example.js:127-142 | The fields are those of the first method with a JSON response schema |
| SelectExample.GetResourceFields | src/docgen/resource/examples/select-example.js:127-142 | The loop equals the specification `ResourceFields` |
| SelectExample.RequiredTurn | src/docgen/resource/examples/select-example.js:170 | Reading `required` throws exactly on a `null` parameter |
| SelectExample.RequiredParamsFrom | src/docgen/resource/examples/select-example.js:164-177 | The required names are exactly the names of the parameters with a truthy `required`, and no parameter is `null` |
| SelectExample.RequiredParamsOrder | src/docgen/resource/examples/select-example.js:164-177 | The required names come in parameter order |
| SelectExample.SomeNamedFinds | src/docgen/resource/examples/select-example.js:109 | A parameter with the name is found |
| SelectExample.ConditionPlain | src/docgen/resource/examples/select-example.js:102-120 | Each required name is a parameter's own name, so its condition uses it unchanged |
| SelectExample.ConditionsPlain | src/docgen/resource/examples/select-example.js:102-120 | The `data__` branch is never taken: every condition names the required parameter as it is |
| SelectExample.SelectSqlShape | src/docgen/resource/examples/select-example.js:73-125 | The statement lists the fields, the resource, and one plain condition per required parameter; it ends with `;` exactly when there are required parameters |
| SelectExample.LabelsJoined | src/docgen/resource/examples/select-example.js:22-24 | The labels are joined by commas and end with a line break |
| SelectExample.ExamplesTextNonEmpty | src/docgen/resource/examples/select-example.js:16-36 | A section with methods is not empty |
| SelectExample.CreateSelectExamplesEmpty | src/docgen/resource/examples/select-example.js:3-13 | The section is empty exactly when the resource or its methods are falsy or no select method is chosen |
| SelectExample.LabelLines | src/docgen/resource/examples/select-example.js:22-24 | The label loop equals the specification `Listed` |
| SelectExample.CreateSelectExamplesText | src/docgen/resource/examples/select-example.js:3-37 | The method equals the specification `CreateSelectExamples` |
| InsertExample.ParamColumn | src/docgen/resource/examples/insert-example.js:116-126 | Reading a parameter throws exactly on `null`; a kept parameter is a path column, never `endpoint`, and required when only required columns are asked for |
| InsertExample.BodyColumn | src/docgen/resource/examples/insert-example.js:137-152 | A kept body property is a body column under its own name, never `endpoint`, required exactly when the schema's `required` list includes it |
| InsertExample.ParamColumnsShape | src/docgen/resource/examples/insert-example.js:115-127 | The parameter columns are exactly those of the kept parameters |
| InsertExample.BodyColumnsShape | src/docgen/resource/examples/insert-example.js:130-154 | The body columns are exactly those of the kept body properties |
| InsertExample.ColumnsOrder | src/docgen/resource/examples/insert-example.js:115-154 | The parameter columns come in parameter order and the body columns in property order |
| InsertExample.InsertColumnsShape | src/docgen/resource/examples/insert-example.js:111-168 | Every column comes from the parameters, the body or the added `name`; path columns come first; no column is `endpoint`; some column is named `name`; with `requiredOnly` all are required |
| InsertExample.GetInsertProperties | src/docgen/resource/examples/insert-example.js:111-168 | The loops equal the specification `InsertColumns` |
| InsertExample.SomeNamed | src/docgen/resource/examples/insert-example.js:157 | The search is true exactly when some column is named `name` |
| InsertExample.InsertColumnsNonEmpty | src/docgen/resource/examples/insert-example.js:156-165 | The columns are never empty |
| InsertExample.InsertSqlAlwaysInsert | src/docgen/resource/examples/insert-example.js:77-109 | The statement is always an `INSERT ... SELECT` ending with the endpoint value; the no-properties message is never produced |
| InsertExample.WrapText | src/docgen/resource/examples/insert-example.js:216-237 | The loop equals the specification `WordWrap` |
| InsertExample.WordWrapFits | src/docgen/resource/examples/insert-example.js:216-237 | Every line fits the width or is a single word |
| InsertExample.WordWrapWords | src/docgen/resource/examples/insert-example.js:216-237 | The lines hold exactly the words of the text, in order |
| InsertExample.WordWrapLeadingEmpty | src/docgen/resource/examples/insert-example.js:224-228 | A first word longer than the width leaves an empty first line |
| InsertExample.WordWrapSpaces | src/docgen/resource/examples/insert-example.js:232-236 | Text made only of spaces gives no lines |
| InsertExample.RequiredDescription | src/docgen/resource/examples/insert-example.js:189-192 | A required column's description carries the required note, and is the note alone when the column has no description |
| InsertExample.DescriptionLines | src/docgen/resource/examples/insert-example.js:197-204 | The line loop equals the specification `DescLinesUpTo` |
| InsertExample.ColumnEntry | src/docgen/resource/examples/insert-example.js:185-210 | One column's manifest entry equals the specification `ColumnYaml` |
| InsertExample.ColumnEntries | src/docgen/resource/examples/insert-example.js:184-211 | The column loop equals the specification `YamlUpTo` |
| InsertExample.GenerateManifestYaml | src/docgen/resource/examples/insert-example.js:170-214 | The method equals the specification `ManifestYaml` |
| InsertExample.CreateInsertExampleEmpty | src/docgen/resource/examples/insert-example.js:3-13 | The example is empty exactly when the resource or its methods are falsy or there is no insert method |
| InsertExample.CreateInsertExampleFirst | src/docgen/resource/examples/insert-example.js:15-54 | Otherwise it shows the first insert method: its description, the statements with all and with required columns, and its manifest |
| UpdateExample.PropTurn | src/docgen/resource/examples/update-example.js:100-110 | A pushed property is the body property's own name and never `endpoint`; `endpoint` is skipped |
| UpdateExample.GetUpdateProperties | src/docgen/resource/examples/update-example.js:89-115 | The loop equals the specification `UpdateProps` |
| UpdateExample.UpdatePropsKeys | src/docgen/resource/examples/update-example.js:89-115 | The properties are the body property names other than `endpoint`, in order |
| UpdateExample.KeyTurn | src/docgen/resource/examples/update-example.js:123-125 | Reading a parameter throws exactly on `null`, and a pushed key is never `endpoint` |
| UpdateExample.GetPrimaryKeys | src/docgen/resource/examples/update-example.js:117-135 | The loop equals the specification `PrimaryKeys` |
| UpdateExample.KeysUpTo | src/docgen/resource/examples/update-example.js:121-127 | The loop keeps exactly the names of the in:path parameters other than `endpoint`, in parameter order |
| UpdateExample.PrimaryKeysExact | src/docgen/resource/examples/update-example.js:117-135 | The keys are those names, or `name` alone when there are none |
| UpdateExample.PrimaryKeysShape | src/docgen/resource/examples/update-example.js:117-135 | Without key parameters the key is `name`; otherwise every key is the name of an in:path parameter |
| UpdateExample.StatementShape | src/docgen/resource/examples/update-example.js:57-86 | The statement sets every property, has a `WHERE` clause over the keys, and ends with the endpoint condition |
| UpdateExample.UpdateSqlShape | src/docgen/resource/examples/update-example.js:48-87 | The no-properties message appears exactly without properties; otherwise the statement is built from the properties and keys, with the `data__name` line exactly when the method's operation has a truthy request body |
| UpdateExample.CreateUpdateExampleEmpty | src/docgen/resource/examples/update-example.js:3-26 | The example is empty exactly when the resource or its methods are falsy or there is no replace method; otherwise it is that of the first replace method |
| DeleteExample.WhereTurn | src/docgen/resource/examples/delete-example.js:73-77 | Reading a parameter throws exactly on `null`; a name is pushed exactly for a required parameter not named `endpoint` |
| DeleteExample.GetWhereConditions | src/docgen/resource/examples/delete-example.js:68-84 | The loop equals the specification `WhereConditions` |
| DeleteExample.WhereConditionsOrder | src/docgen/resource/examples/delete-example.js:68-84 | The conditions are the required names in parameter order, then `endpoint` |
| DeleteExample.WhereConditionsShape | src/docgen/resource/examples/delete-example.js:68-84 | `endpoint` comes last and only there; before it come exactly the names of the required parameters other than `endpoint` |
| DeleteExample.GenerateDeleteSql | src/docgen/resource/examples/delete-example.js:48-66 | The method equals the specification `DeleteSql` |
| DeleteExample.DeleteSqlShape | src/docgen/resource/examples/delete-example.js:48-66 | The `WHERE` clause is always present and the statement ends with the endpoint condition and `;` |
| DeleteExample.CreateDeleteExampleEmpty | src/docgen/resource/examples/delete-example.js:3-26 | The example is empty exactly when the resource or its methods are falsy or there is no delete method; otherwise it is that of the first delete method |
| ParamsSection.MethodsStep | src/docgen/resource/parameters.js:15-18 | Each method type's methods are appended after those of the earlier types; the first type whose lookup throws ends the collection with that error |
| ParamsSection.CollectMethods | src/docgen/resource/parameters.js:15-18 | The `flatMap` over the six method types equals the specification `AllMethods` |
| ParamsSection.PutAllAppend | src/docgen/resource/parameters.js:24-34 | Assigning the entries of two lists one after the other is assigning their concatenation |
| ParamsSection.PutAllLookup | src/docgen/resource/parameters.js:26-28 | After the assignments a name holds the value of its last assignment, or its old value if it was not assigned |
| ParamsSection.PutAllKeys | src/docgen/resource/parameters.js:26-28 | Assignment keeps names unique, and the names are the old ones and the assigned ones |
| ParamsSection.AssignAll | src/docgen/resource/parameters.js:26-28 | The `forEach` assignment loop equals the specification `PutAll` |
| ParamsSection.MergedFlat | src/docgen/resource/parameters.js:24-34 | Merging throws exactly when a method is `null`; otherwise it is assigning all the methods' entries in order |
| ParamsSection.MergedLookup | src/docgen/resource/parameters.js:24-34 | Each merged parameter holds the details of its last occurrence across the methods, names are unique, and a name is merged exactly when some method has it |
| ParamsSection.CollectParams | src/docgen/resource/parameters.js:21-34 | The collection loop equals the specification `Collected` |
| ParamsSection.AddParamRows | src/docgen/resource/parameters.js:48-61 | The row loop equals the specification `Rows` |
| ParamsSection.RowsOrder | src/docgen/resource/parameters.js:50-59 | Rows come in sorted name order, one per parameter name, and a row throws exactly when the parameter's details are `null` |
| ParamsSection.RowStart | src/docgen/resource/parameters.js:53-59 | A row throws exactly on `null` details and otherwise starts with the row anchored at the parameter's name |
| ParamsSection.RowEmptyCells | src/docgen/resource/parameters.js:57-58 | A falsy type or description gives an empty cell |
| ParamsSection.ParamsSectionShape | src/docgen/resource/parameters.js:8-75 | A successful section collected the methods and parameters, and a name both required and optional gets a row in both lists |
| ParamsSection.CreateParamsSection | src/docgen/resource/parameters.js:8-75 | The section method equals the specification `ParamsSectionText` |
| DocView.SkipSpacesUnique | src/docgen/resource/view.js:123 | `\s*` in the dialect pattern consumes exactly the run of white space |
| DocView.CloseQuoteUnique | src/docgen/resource/view.js:123 | The lazy `(.*?)` stops at the first quote after the opening one |
| DocView.MatchAtSound | src/docgen/resource/view.js:123 | A match of the dialect pattern at a position has the pattern's shape and captures the text between the quotes |
| DocView.MatchAtComplete | src/docgen/resource/view.js:123 | Every occurrence of the pattern's shape at a position is found there, with its capture |
| DocView.FirstMatchLeftmost | src/docgen/resource/view.js:123 | The search finds nothing exactly when no position matches, and otherwise the leftmost match |
| DocView.LeftmostUnique | src/docgen/resource/view.js:123 | The leftmost match is unique |
| DocView.FirstMatchEmpty | src/docgen/resource/view.js:123-124 | The search fails or captures the empty string exactly when no position matches or the leftmost match is empty |
| DocView.DialectNameNoText | src/docgen/resource/view.js:119-122 | A falsy predicate names the dialect `Default`; a truthy non-string predicate throws |
| DocView.DialectNameErr | src/docgen/resource/view.js:123-126 | A string predicate that fails throws the invalid-predicate error naming it |
| DocView.DialectNameOk | src/docgen/resource/view.js:123-129 | A named dialect is the capitalized non-empty capture of the leftmost match |
| DocView.CapitalizeKeeps | src/docgen/resource/view.js:129 | Capitalizing changes only a lower-case first letter, to upper case |
| DocView.GetSmaller | src/docgen/resource/view.js:83-84 | A fallback is smaller than its select, so the fallback walk terminates |
| DocView.ChainAt | src/docgen/resource/view.js:74-89 | The chain continues exactly while the current select has a truthy fallback, and the next select is that fallback |
| DocView.DialectsExact | src/docgen/resource/view.js:73-89 | One dialect per select in chain order, or the error of the first select whose dialect cannot be named |
| DocView.CollectDialects | src/docgen/resource/view.js:73-89 | The `while (currentSelect.fallback)` loop equals the specification `Dialects` |
| DocView.RenderListTable | src/docgen/resource/view.js:12-35 | The field or parameter table loop equals the specification `ListTable` |
| DocView.ListTableShape | src/docgen/resource/view.js:12-35 | A table starts with its intro and head, and throws exactly when the value is neither an array nor a string or an item is `null` |
| DocView.PartsShape | src/docgen/resource/view.js:6-67 | The fields part is the DDL pointer exactly when `fields.length === 0`; without a positive `requiredParams.length` (`{}`, a number, `false`) the parameters part is empty, with one it is the table; only an object or array of parameters can throw |
| DocView.FieldsIntroDiffers | src/docgen/resource/view.js:9-12 | A fields table is never the DDL pointer text |
| DocView.TabItemsOccur | src/docgen/resource/view.js:104-110 | Every dialect's tab item appears, in dialect order |
| DocView.DefinitionStarts | src/docgen/resource/view.js:70-101 | The definition starts with the section head and defaults to the first dialect's tab |
| DocView.DefinitionEnds | src/docgen/resource/view.js:112 | The definition ends by closing the tabs |
| DocView.RenderDefinition | src/docgen/resource/view.js:92-112 | The tab loops equal the specification `Definition` |
| DocView.RenderDefinitionPart | src/docgen/resource/view.js:69-112 | The definition method equals the specification `DefinitionPart` |
| DocView.ViewShape | src/docgen/resource/view.js:2-116 | The page is the fields part, the parameters part and the definition of the non-empty dialect chain |
| DocView.CreateDocView | src/docgen/resource/view.js:2-116 | The page method, with the `length === 0` test for fields and `length > 0` for required parameters, equals the specification `ViewText` |

## Left out

- JsonModel.Get: reads only the members of an object. JavaScript also reads index keys of arrays and strings (`a['0']`, `s.length`) and inherited prototype members; the model gives `None` for them. Every lookup in splitting, generation, the documentation helpers and the example builders inherits this.
- JsonModel.Entries: lists the members of an object only. `Object.entries` of an array or string would give its index keys; the model gives no entries.
- JsonModel.Num: numbers are integers. Fractions, `NaN` and infinities are not modelled, because the documents use numbers only as values to copy.
- JsonModel.Obj: the entries keep insertion order. JavaScript lists integer-like keys first, in numeric order; that ordering is not modelled.
- YAML anchors, aliases and merge keys are not modelled: the parser is not part of this model, and documents arrive already parsed.
- Generate.InjectResources: returns an error when the document or its `components` is an array. In JavaScript, assigning a property of an array succeeds and adds a member that YAML output then drops; the model does not represent arrays with named members.
- DocOperation.TypeString: always prints the type as a string. When `type` is an array and there is no format, the source keeps the raw array in the property details; the model prints its comma-joined text.
- DocView.HasPositiveLength: an object's `length` member counts as positive only when it is a positive number or `true`. JavaScript converts a string or array `length` to a number first, so `'3'` or `[3]` would also pass; documents do not carry such members.
- InsertExample.WordWrap: measures line length in characters (code points). JavaScript's `length` counts UTF-16 code units, so a line with characters outside the Basic Multilingual Plane can break at a different word.
- DocView.Capitalize: upper-cases only ASCII letters. JavaScript's `toUpperCase` also maps other letters.
- Utils.CamelToSnake: treats only ASCII letters as upper case, as the source's `[A-Z]` does. The final `toLowerCase` is also ASCII-only, so it does not match JavaScript for other upper-case letters.
- Text.ToLower: lower-cases only ASCII letters, unlike JavaScript's `toLowerCase`.
- String sorting (`sort()` on field and parameter names) compares characters by code point. JavaScript compares UTF-16 code units, which orders characters above U+FFFF differently.
- SplitMain.ClassifyComplete: requires the path names and the operation names of a path item to be distinct. A parsed document cannot repeat a key, so this excludes no real input.
- Generate: the provider manifest (`provider.yaml`, src/providerdev/generate.js:273-308), the `servers` and `providerConfig` JSON strings, `skipFiles`, the file-extension filter and clearing the output directory are not modelled. They are file and string I/O around the resource builder.
- File reading and writing, `loadSpec`, `loadManifest`, `createDestDir`, the OpenAPI dereferencer and the console and log output are not modelled. Their results are parameters: the parsed documents, the CSV rows, and the page text.
- The logger's console streams and its `Invalid log level` warning are not modelled. `Log` returns the line that would be written, if any.
