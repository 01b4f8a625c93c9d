# BLACKBOX AI project generator: a Dafny model

BLACKBOX AI turns a natural-language command into a generated project.
- The Express backend (`server.js`) handles the command in five steps:
  1. lower-cases the command;
  2. classifies it by keyword;
  3. extracts a project name and technology choices;
  4. renders a file set from templates;
  5. saves the project in an in-memory list.
- The backend's routes can look a project up by id and download it as a zip.
- The browser controller (`blackbox-controller.js`) has several parts:
  - a quick-command table;
  - a list of projects it has been told about;
  - builders that fill in defaults;
  - a simulated API whose dispatch uses the command's first word.

This project models that logic and proves what the code promises about it:
- **Classification.** It is first-match-wins, in a fixed priority order.
- **Technology detection.** It returns the first match in list order, with a default for each axis.
- **Feature flags.** They are case-sensitive and come in a fixed, distinct order.
- **Web file set.** Which keys are present depends on the spec. The null-deleting loop keeps exactly the non-null entries.
- **Package manifests.** The name slug, and which dependencies are present.
- **`.env.example`.** Which sections appear, and in what order.
- **Project store.** It is append-only. Lookup returns the first matching record.
- **Route replies.** 200, 404 or 500.
- **Controller.** Its project list, its builder defaults, and its command dispatch.

The failures the code really has are modelled as failures:
- The AI branch always throws.
- Four branches call handlers that are not defined.
- A missing command throws.

Modules:
- `Wrappers` (wrappers.dfy): `Option` and `Result`.
- `Js` (js.dfy): the JavaScript behaviour the code relies on. This covers:
  - `includes`;
  - `toLowerCase`, for Basic Latin and Latin-1;
  - `trim`;
  - `replace(/\s+/g, ...)`;
  - `split(' ')[0]`;
  - `Array.prototype.find`;
  - `||` on strings;
  - number-to-string conversion;
  - the runtime's error messages.
- `Classifier` (classifier.dfy): `processCommand`'s dispatch, `detectTechnology` and `detectFeatures`.
- `Templates` (templates.dfy): the `CodeGenerator` file sets, the manifests and `.env.example`.
- `ProjectStore` (store.dfy): the `projects` array and `saveProject`.
- `Server` (server.js routes and handlers, in server.dfy): `processCommand`, `createWebProject`, `createMobileProject` and `createAIProject`, and the three routes.
- `Controller` (controller.dfy): the `BlackboxAI` class and `BlackboxAPI.executeCommand`.

Inputs from outside the program are parameters:
- the clock (`Date.now()`, `toISOString()`);
- what the name pattern of `extractProjectName` captured.

Facts about the code that the model keeps:
- **Undefined handlers.** `createCustomProject`, `createEcommerceProject`, `createGameProject` and `createAPIProject` are never defined. A command classified as custom, ecommerce, game or API therefore throws a `ReferenceError`, and `/api/execute` replies 500.
- **AI template.** Evaluating `generateAIModel`'s template always throws (server.js:907), so the AI branch also replies 500.
- **Duplicate ids.** When two records share an id, both stay in the list, and the lookup returns the earlier one.
- **Web file set.** The web object literal (server.js:59-76) has ten keys. App.js, User.js and auth.js may be null, and null entries are deleted. So the web file set always contains these seven keys: package.json, server.js, README.md, .env.example, client/public/index.html, client/src/index.css and routes/api.js.

## Model

| member | source | states |
|---|---|---|
| Js.ToLower | server.js:947 | lower-casing keeps the length and maps each character on its own (ASCII and Latin-1 capitals to small letters) |
| Js.IncludesIffOccurs | server.js:950 | `includes` holds exactly when the substring occurs at some index |
| Js.Trim | server.js:1026 | the result neither starts nor ends with white space |
| Js.TrimSplits | server.js:1026 | the trimmed string is a slice of the input with only white space before and after it |
| Js.TrimIdempotent | server.js:1026 | trimming twice gives the same as trimming once |
| Js.ReplaceWhitespaceRuns | server.js:38 | computes `replace(/\s+/g, rep)`; its contract is in Js.ReplaceLeavesNoWhitespace and Templates.PackageNameJoinsWords |
| Js.ReplaceLeavesNoWhitespace | server.js:38 | after replacing white-space runs with a white-space-free string, no white space is left |
| Js.FirstWord | blackbox-controller.js:337 | `split(' ')[0]` is a prefix with no space, ending at the first space or at the end |
| Js.FindIndex | server.js:1030 | `find` returns the first element satisfying the predicate, or nothing exactly when no element does |
| Js.NatToString | server.js:1060 | `id.toString()` is a non-empty string of decimal digits with no leading zero |
| Js.ParseNatToString | server.js:1060 | reading back the decimal string gives the number |
| Js.NatToStringInjective | server.js:1060 | distinct ids print differently |
| Classifier.Classify | server.js:946-965 | computes the dispatch of `processCommand`; its contract is in Classifier.ClassifyFirstMatchWins, Classifier.ClassifyAs and Classifier.TriggersSpelledOut |
| Classifier.TriggersSpelledOut | server.js:949-961 | each `includes` chain of the dispatch is the trigger set of its category |
| Classifier.FirstTriggered | server.js:946-965 | the first category of the list whose triggers occur, and custom exactly when none of them does |
| Classifier.ClassifyFirstMatchWins | server.js:946-965 | the category is the earliest in priority order whose trigger occurs in the lower-cased command, and custom exactly when none does |
| Classifier.ClassifyAs | server.js:946-965 | a category whose triggers occur, with no earlier category triggered, is the one chosen |
| Classifier.WebWhenWebOccurs | server.js:950-951 | any command whose lower case contains "web" takes the web branch |
| Classifier.MobileWhenAppWithoutWeb | server.js:950-953 | a command with "app" and no web trigger is classified mobile |
| Classifier.EmptyCommandIsCustom | server.js:961-963 | the empty command reaches the custom branch |
| Classifier.DetectTechnology | server.js:1029-1031 | computes `detectTechnology`; its contract is in Classifier.DetectTechnologyFirst |
| Classifier.DetectTechnologyFirst | server.js:1029-1031 | the first technology in list order occurring in the lower-cased command, and none exactly when none occurs |
| Classifier.DetectFeatures | server.js:1033-1045 | computes `detectFeatures`; its contract is in Classifier.DetectFeaturesFlags and Classifier.CollectFeatures |
| Classifier.DetectFeaturesFlags | server.js:1033-1045 | each flag is present exactly when a synonym occurs in the raw command; the flags are a duplicate-free subsequence of auth, chat, payment |
| Classifier.CollectFeatures | server.js:1033-1045 | the push-by-push construction yields exactly `DetectFeatures` |
| Classifier.FeaturesAreCaseSensitive | server.js:1033-1045 | a command with no lower-case ASCII letter turns no flag on |
| Templates.PackageName | server.js:38 | computes the manifest name; its contract is in Templates.PackageNameWellFormed and Templates.PackageNameJoinsWords |
| Templates.PackageNameWellFormed | server.js:38 | the package name is lower case and has no white space, and a name without white space is only lower-cased |
| Templates.PackageNameJoinsWords | server.js:38 | each run of white space between words becomes exactly one '-' |
| Templates.WebDependencies | server.js:48-57 | computes the web dependencies record; its contract is in Templates.WebDependencyKeys |
| Templates.WebDependencyKeys | server.js:48-57 | express and cors always come first; mongoose is present exactly for mongodb; pg exactly for postgresql; jsonwebtoken and bcryptjs exactly for auth; the count is exact; no name appears twice |
| Templates.MobileDependencies | server.js:218-226 | computes the mobile dependencies record; its contract is in Templates.MobileDependencyKeys |
| Templates.MobileDependencyKeys | server.js:218-226 | the four Expo/React Native packages always come first; AsyncStorage is present exactly for auth; no name appears twice |
| Templates.EnvSections | server.js:346-374 | computes the sections of `.env.example`; its contract is in Templates.EnvSectionsShape |
| Templates.RenderEnv | server.js:346-374 | computes the text of those sections; its contract is in Templates.RenderEnvParts and Templates.GenerateEnvExample |
| Templates.EnvSectionsShape | server.js:346-374 | the header comes first and once; the MongoDB and PostgreSQL sections appear exactly for their database and never together; the JWT section appears exactly for auth, and then last; no section repeats |
| Templates.GenerateEnvExample | server.js:346-374 | the string built step by step is the rendering of `EnvSections`, and it starts with the PORT/NODE_ENV header |
| Templates.RenderEnvParts | server.js:346-374 | the rendering is the header text, then the text of the database section for mongodb or postgresql, then the JWT text for auth |
| Templates.DeleteNulls | server.js:72-74 | walking a snapshot of the keys and deleting each null property leaves exactly the non-null properties, in order |
| Templates.KeptSlotAt | server.js:72-74 | with distinct keys, a property survives the filter exactly when it is not null |
| Templates.WebSlots | server.js:59-76 | computes the web object literal before the nulls are deleted; its contract is in Templates.WebSlotsShape |
| Templates.WebAppFiles | server.js:59-76 | computes the web file set; its contract is in Templates.WebAppFileSet |
| Templates.GenerateWebApp | server.js:33-77 | the generated object is `WebAppFiles(spec)`: the literal with its nulls deleted |
| Templates.WebSlotsShape | server.js:59-76 | the object literal has the ten keys in order; its seven core values are never null; App.js is null exactly when not react, User.js exactly when not mongodb, auth.js exactly when not auth |
| Templates.KeptWebShape | server.js:72-74 | deleting the nulls from an object with those ten keys leaves no null, distinct keys from the ten, all seven core keys, and each optional key exactly when its value was not null |
| Templates.WebAppFileSet | server.js:59-76 | no null values remain; keys are distinct and come from the ten of the literal; the seven core keys are always present; App.js is present exactly for react, User.js exactly for mongodb, auth.js exactly for auth |
| Templates.GenerateMobileApp | server.js:204-303 | the keys are exactly package.json and App.js, neither null |
| Templates.GenerateAIModel | server.js:757-926 | evaluating the template always throws a TypeError "name.lower is not a function" |
| ProjectStore.FindById | server.js:1086 | not found exactly when no record has the id; otherwise the first record with it |
| ProjectStore.FindByIdAppend | server.js:1047-1057 | appending a record leaves every earlier answer unchanged, and only a previously missing id can find the new record |
| ProjectStore.SavedRecordFound | server.js:1085-1091 | a saved record whose id is new is found by that id |
| ProjectStore.DuplicateIdShadowed | server.js:1085-1091 | with a duplicate time-based id, the earlier record shadows the new one |
| ProjectStore.Store.constructor | server.js:18 | the list starts empty |
| ProjectStore.Store.SaveProject | server.js:1047-1057 | appends exactly one completed record at the end, keeps the earlier ones, and returns the appended record |
| Server.ProjectName | server.js:1024-1027 | computes `extractProjectName(command) \|\| fallback`; its contract is in Server.ProjectNameChoice |
| Server.ProjectNameChoice | server.js:1024-1027 | the trimmed capture when it is not empty, and otherwise the fallback |
| Server.TechnologyOr | server.js:971-973 | computes `detectTechnology(...) \|\| fallback`; its contract is in Server.TechnologyOrChoice and Server.FirstTechnology |
| Server.TechnologyOrChoice | server.js:971-973 | the fallback when no technology occurs, and otherwise the first in list order that occurs |
| Server.FirstTechnology | server.js:971-973 | the head of a three-way list is chosen exactly when it occurs or neither other entry does |
| Server.WebSpecOf | server.js:968-975 | computes the web `specs`; its contract is in Server.WebSpecDefaults and Server.PlanWebProject |
| Server.MobileSpecOf | server.js:988-993 | computes the mobile `specs`; its contract is in Server.PlanMobileProject and Server.PlanDefaultNames |
| Server.AiSpecOf | server.js:1006-1011 | computes the AI `specs`; its contract is in Server.PlanDefaultNames |
| Server.WebSpecDefaults | server.js:969-975 | frontend is react exactly when "react" occurs or neither "vue" nor "angular" does; the same holds for mongodb against postgresql and mysql; auth is on exactly for an auth synonym |
| Server.Plan | server.js:946-1021 | computes what `processCommand` ends with before saving; its contract is in Server.PlanOutcome, Server.PlanWebProject and Server.PlanMobileProject |
| Server.PlanOutcome | server.js:946-965 | a missing command throws reading toLowerCase; a command succeeds exactly when it is web or mobile; AI throws the template TypeError; the other branches throw a ReferenceError naming their handler |
| Server.PlanWebProject | server.js:967-985 | the web branch is a web-app with the extracted or default name and the web message, whose files are those `generateWebApp` builds from the command's spec |
| Server.WebCommandFiles | server.js:967-975 | App.js, User.js and auth.js are present exactly under their command-level conditions; the seven core files are always present |
| Server.PlanMobileProject | server.js:987-1003 | the mobile branch is a mobile-app with the extracted or default name and exactly package.json and App.js |
| Server.PlanDefaultNames | server.js:968-1006 | without a usable capture, the web, mobile and AI branches use 'Mi Web App', 'Mi App Móvil' and 'Mi Modelo IA' |
| Server.ProcessCommand | server.js:946-965 | a failing plan returns its error and saves nothing; a successful one saves exactly one completed record and reports it with its message |
| Server.CallHandler | server.js:946-954 | the same for the three categories whose handler exists |
| Server.CreateWebProject | server.js:967-985 | saves exactly one completed web-app record built from the command's spec, and reports it with the web message |
| Server.CreateMobileProject | server.js:987-1003 | saves exactly one completed mobile-app record built from the command's spec, and reports it with the mobile message |
| Server.CreateAIProject | server.js:1005-1021 | throws the TypeError of `generateAIModel` before anything is saved |
| Server.Execute | server.js:930-944 | 200 with the result, or 500 with `{success:false, error}` holding the thrown message, and the store unchanged when the plan fails |
| Server.GetProject | server.js:1085-1091 | 404 exactly when no record has the id, and otherwise 200 with the first record that has it |
| Server.ProjectDir | server.js:1060 | computes `projects/<id>`; its contract is in Server.ProjectDirNamesId |
| Server.ProjectDirNamesId | server.js:1060 | distinct ids get distinct project directories, and the id can be read back from the directory name |
| Server.Download | server.js:1093-1117 | 404 exactly when no record has the id; otherwise the id's directory and '<name>.zip' of the first matching record |
| Server.SavedProjectDownloads | server.js:1085-1099 | a saved project with a new id can be fetched and downloaded from the directory it was saved to |
| Controller.ResultNotification | blackbox-controller.js:110-118 | a success notification with the message exactly for a successful body; otherwise an error notification with the body's error, "Proyecto no encontrado" for the 404 body and "undefined" for a project record |
| Controller.BlackboxAI.constructor | blackbox-controller.js:5-15 | no projects and no current project |
| Controller.BlackboxAI.CreateProject | blackbox-controller.js:120-135 | appends exactly one record (status creating, progress 0, no files), keeps the earlier ones, and makes it current |
| Controller.BlackboxAI.HandleCommandResult | blackbox-controller.js:110-118 | shows the result's notification; records the project only on success, and otherwise changes nothing |
| Controller.BlackboxAI.RunProject | blackbox-controller.js:173-182 | nothing exactly when no project has the id; otherwise announces the first project with the id and opens its page |
| Controller.BlackboxAI.DownloadProject | blackbox-controller.js:184-198 | nothing exactly when no project has the id; otherwise the download link and '<name>.zip' of the first project with the id |
| Controller.DownloadHref | blackbox-controller.js:192-198 | computes the download link; its contract is in Controller.DownloadHrefNamesId |
| Controller.DownloadHrefNamesId | blackbox-controller.js:192-198 | the link's route names the project's id, and distinct ids give distinct links |
| Controller.GenerateWebApp | blackbox-controller.js:281-294 | always succeeds, returns the project it was given, and lists five distinct files |
| Controller.GenerateMobileApp | blackbox-controller.js:296-307 | always succeeds, returns the project it was given, and lists four distinct files |
| Controller.GenerateAIModel | blackbox-controller.js:309-320 | always succeeds, returns the project it was given, and lists four distinct files |
| Controller.CreateWebApp | blackbox-controller.js:246-258 | computes `createWebApp`; its contract is in Controller.WebAppDefaults and Controller.WebAppFieldsIndependent |
| Controller.WebAppDefaults | blackbox-controller.js:246-258 | each field keeps a given non-empty value or takes its own default (Web App, react, node, mongodb) |
| Controller.WebAppFieldsIndependent | blackbox-controller.js:246-258 | changing any one of name, frontend, backend or database in the request changes only the matching project field |
| Controller.CreateMobileApp | blackbox-controller.js:260-268 | computes `createMobileApp`; its contract is in Controller.MobileAppDefaults |
| Controller.MobileAppDefaults | blackbox-controller.js:260-268 | name and framework default independently to Mobile App and react-native |
| Controller.CreateAIModel | blackbox-controller.js:270-279 | computes `createAIModel`; its contract is in Controller.AIModelDefaults |
| Controller.AIModelDefaults | blackbox-controller.js:270-279 | name, model and framework default independently to AI Model, neural-network and tensorflow |
| Controller.CommandKey | blackbox-controller.js:337 | the key is the lower-cased command up to its first space |
| Controller.ExecuteCommand | blackbox-controller.js:327-349 | 'web', 'mobile' and 'ai' call their builders with the default names; any other key gives a custom project named 'Proyecto: ' plus the command, and with no files; every response reports success |
| Controller.CustomResponse | blackbox-controller.js:341-347 | computes the custom-project response; its contract is in Controller.ExecuteCommand |
| Controller.WebCommandProject | blackbox-controller.js:331-339 | any command starting with "web " builds the React/Node/MongoDB web project with five files |
| Controller.ExecuteCommandAsWritten | blackbox-controller.js:331-340 | apart from the keys Object.prototype supplies, the lookup as written agrees with the own-keys dispatch |
| Controller.KeyOfWord | blackbox-controller.js:337 | a lower-case word without spaces is its own key |
| Controller.InheritedKeysMisdispatch | blackbox-controller.js:338-339 | for the inherited keys, the code as written resolves to `{}` ('constructor') or throws ('__proto__') where a custom project is the intended answer |
| Controller.PrototypeKeysMisdispatch | blackbox-controller.js:337-339 | the commands 'constructor' and '__proto__' are such keys |
| Controller.QuickCommand | blackbox-controller.js:95-107 | a key among the table's own eight gives its entry, and any other key gives undefined (inherited keys are left out) |
| Controller.QuickCommands | blackbox-controller.js:96-105 | the quick-command table; its contract is in Controller.QuickCommandKeys |
| Controller.QuickCommandKeys | blackbox-controller.js:96-105 | the table has exactly its eight keys |
| Controller.UnknownQuickKeyFails | blackbox-controller.js:95-107 | an unknown quick key other than '__proto__' sends no command; the backend fails reading toLowerCase and the controller shows that error |
| Controller.QuickWebAppIsWeb | blackbox-controller.js:97 | the 'web-app' quick command reaches the backend's web branch |
| Controller.QuickMobileAppIsMobile | blackbox-controller.js:98 | the 'mobile-app' quick command reaches the backend's mobile branch |

## Left out

- Server.Execute: assumes the file-system writes of `saveProject` succeed. In the source, `projects.push(project)` (server.js:1057) runs before `mkdirSync`/`writeFileSync` (server.js:1059-1075). So a failing write (EACCES, ENOSPC) makes `saveProject` reject after the push, and `/api/execute` replies 500 with the record kept in the list. The same holds for `Server.ProcessCommand`, `Server.CreateWebProject` and `Server.CreateMobileProject`, whose contracts promise success whenever the plan succeeds.
- The file-system writes of `saveProject` (server.js:1059-1075) are left out. `Server.ProjectDir` only names the target directory, and `Server.Download` stops at the archive to build. The archiver, the temporary zip file and its clean-up are I/O through a foreign library.
- Express routing, CORS, body parsing, static files, `app.listen` and logging are left out. The routes are modelled from the parsed `command` to the reply.
- `GET /api/projects` (server.js:1081-1083) is left out. It returns the whole list, so there is nothing to state beyond the list itself.
- The name pattern of `extractProjectName` (server.js:1025) is a parameter: what its capture group matched, or `None`. The model applies the `trim` and the `||` default. It does not model the regular-expression engine.
- `toLowerCase` is modelled for Basic Latin and Latin-1 only. Other scripts and special cases are not modelled, and some of them change the category:
  - 'İ' (U+0130) lower-cases in JavaScript to 'i' followed by U+0307, so "Aİ" contains "ai" and is an AI command, while the model leaves 'İ' unchanged and classifies "Aİ" as custom;
  - 'ẞ' (U+1E9E) and the other non-Latin-1 capitals are left unchanged by the model.
- The ids and timestamps from `Date.now()` and `new Date().toISOString()` are parameters. So the collision of two ids created in the same millisecond is expressed only as a precondition of `ProjectStore.DuplicateIdShadowed`.
- The routes' loose `p.id == req.params.id` compares a number with a string. The model takes the already-parsed number, so ids such as "0123" or " 123" are not modelled.
- The template text of generated files is not modelled. A file is its template plus the values that vary in it. `.env.example` and `package.json` are exceptions:
  - `.env.example` is modelled exactly: its sections and their text.
  - `package.json` is modelled as the record given to `JSON.stringify`. The printed JSON text is not modelled.
- `Templates.GenerateAIModel` does not model the contents of the AI file set, because its evaluation throws before any file exists.
- The `AI_CONFIG` endpoint constants (server.js:23-29) are left out, because no modelled code uses them.
- The controller's DOM work is left out: notifications, rendering, the project list view, loading indicators, event listeners and speech recognition. A notification and an opened page are values the methods return.
- `localStorage` persistence (`saveProjects`, `loadProjects`, called from `init`) is left out.
- `displayProject` and `simulateProgress` are left out. They use timers and floating-point randomness, and only affect the page.
- The voice-command table (blackbox-controller.js:353-359) is left out, because it only forwards to the builders and to `runProject`/`downloadProject`.
- The HTTP call itself inside `BlackboxAI.executeCommand` (blackbox-controller.js:74-93) is left out. `Controller.UnknownQuickKeyFails` ties the request body to `Server.Plan`, and `HandleCommandResult` takes the reply's body.
- Controller.BlackboxAI.CreateProject: the stored `currentProject` is a copy, not an alias of the list element, so mutation through one reference being seen through the other is not modelled.
- Controller.QuickCommand: looks up `commands[command]` in the quick-command table as a map of its own eight keys, so "any other key gives undefined" does not hold for inherited keys. The inherited lookup is not modelled:
  - keys such as 'constructor' or 'toString' find a function, which `JSON.stringify` drops, so the request is the same as one without a command;
  - '__proto__' finds `Object.prototype`, which is sent as `{"command":{}}`, and the backend throws "command.toLowerCase is not a function".
- Controller.UnknownQuickKeyFails: excludes the key '__proto__', because that key sends an object rather than no command, and the model has no object-valued command.
- The parsed `command` field is taken to be a string or absent, and `None` in `Server.Plan` and `Server.Execute` means absent. Other JSON values are not modelled:
  - a `null` command throws "Cannot read properties of null (reading 'toLowerCase')";
  - a number, boolean, array or object command throws "command.toLowerCase is not a function".
- Controller.QuickWebAppIsWeb and Controller.QuickMobileAppIsMobile are proved for the two quick commands that name a web or mobile app. The classification of the other six table entries is not proved.
- The success message of `createAIProject` (server.js:1017-1020) is left out, because the AI branch throws before reaching it.

## Findings

| source | as written | input that shows it | evidently intended | confidence | as-written member | corrected member |
|---|---|---|---|---|---|---|
| blackbox-controller.js:331-340 | `commands[key]` on an object literal also finds Object.prototype members, so the key 'constructor' calls `Object()` and resolves to `{}`, and '__proto__' finds a non-callable object and throws a TypeError | the command "constructor" or "__proto__ x" | every key other than 'web', 'mobile' and 'ai' yields the custom project | high, not executed | Controller.ExecuteCommandAsWritten | Controller.ExecuteCommand |
