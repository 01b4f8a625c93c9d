/**
 * The backend's command pipeline: `processCommand` and the `create*Project`
 * handlers it dispatches to, the `POST /api/execute` route that wraps it, and
 * the two routes that look a project up by id.
 */
module Server {
  import opened Wrappers
  import opened Js
  import opened Classifier
  import opened Templates
  import opened ProjectStore

  // ---------------------------------------------------------------------------
  // From a command to a spec

  /** `extractProjectName(command) || fallback`, where `capture` is what the
      name pattern's group captured (`None` when the pattern does not match). */
  function ProjectName(capture: Option<string>, fallback: string): string {
    OrElse(if capture.Some? then Some(Trim(capture.value)) else None, fallback)
  }

  /** The name is the trimmed capture when that is not empty, and the
      fallback otherwise. */
  lemma ProjectNameChoice(capture: Option<string>, fallback: string)
    ensures var r := ProjectName(capture, fallback);
      && (capture.None? ==> r == fallback)
      && (capture.Some? && Trim(capture.value) != "" ==> r == Trim(capture.value))
      && (capture.Some? && Trim(capture.value) == "" ==> r == fallback)
      && (r != fallback ==> r != "" && !IsWhitespace(r[0]) && !IsWhitespace(r[|r| - 1]))
      && (fallback != "" ==> r != "")
  {
  }

  /** `detectTechnology(command, technologies) || fallback`. */
  function TechnologyOr(command: string, technologies: seq<string>, fallback: string): string {
    OrElse(DetectTechnology(command, technologies), fallback)
  }

  /** The fallback when no technology occurs in the lower-cased command, and
      otherwise (the technologies being non-empty strings) the first
      technology in list order that occurs. */
  lemma TechnologyOrChoice(command: string, technologies: seq<string>, fallback: string)
    ensures var r := TechnologyOr(command, technologies, fallback);
      && ((forall j :: 0 <= j < |technologies| ==> !Includes(ToLower(command), technologies[j])) ==> r == fallback)
      && ((forall j :: 0 <= j < |technologies| ==> technologies[j] != "")
          && (exists j :: 0 <= j < |technologies| && Includes(ToLower(command), technologies[j]))
          ==> exists k :: 0 <= k < |technologies| && technologies[k] == r && Includes(ToLower(command), r)
                          && forall j :: 0 <= j < k ==> !Includes(ToLower(command), technologies[j]))
  {
    DetectTechnologyFirst(command, technologies);
  }

  const Frontends: seq<string> := ["react", "vue", "angular"]
  const Backends: seq<string> := ["node", "express", "fastapi"]
  const Databases: seq<string> := ["mongodb", "postgresql", "mysql"]
  const MobileFrameworks: seq<string> := ["react-native", "flutter", "ionic"]
  const ModelTypes: seq<string> := ["neural-network", "cnn", "rnn", "transformer"]
  const AiFrameworks: seq<string> := ["tensorflow", "pytorch", "scikit-learn"]

  function WebSpecOf(command: string, capture: Option<string>): WebSpec {
    WebSpec(ProjectName(capture, "Mi Web App"),
            TechnologyOr(command, Frontends, "react"),
            TechnologyOr(command, Backends, "express"),
            TechnologyOr(command, Databases, "mongodb"),
            DetectFeatures(command))
  }

  function MobileSpecOf(command: string, capture: Option<string>): MobileSpec {
    MobileSpec(ProjectName(capture, "Mi App M\U{F3}vil"),
               TechnologyOr(command, MobileFrameworks, "react-native"),
               DetectFeatures(command))
  }

  function AiSpecOf(command: string, capture: Option<string>): AiSpec {
    AiSpec(ProjectName(capture, "Mi Modelo IA"),
           TechnologyOr(command, ModelTypes, "neural-network"),
           TechnologyOr(command, AiFrameworks, "tensorflow"))
  }

  function WebMessage(name: string): string {
    "Aplicaci\U{F3}n web \"" + name + "\" creada exitosamente"
  }

  function MobileMessage(name: string): string {
    "App m\U{F3}vil \"" + name + "\" creada exitosamente"
  }

  // ---------------------------------------------------------------------------
  // processCommand

  /** The handler each branch of the dispatch calls. */
  function Handler(c: Category): string {
    match c
    case WebApp => "createWebProject"
    case MobileApp => "createMobileProject"
    case AiModel => "createAIProject"
    case Ecommerce => "createEcommerceProject"
    case Game => "createGameProject"
    case ApiService => "createAPIProject"
    case Custom => "createCustomProject"
  }

  /** Only the first three handlers are defined in the backend. */
  predicate HandlerDefined(c: Category) {
    c == WebApp || c == MobileApp || c == AiModel
  }

  /** What `command.toLowerCase()` throws when the body has no `command`. */
  const UndefinedCommand: JsError := TypeError("Cannot read properties of undefined (reading 'toLowerCase')")

  /** A branch that gets as far as saving a project, with the spec it built;
      the project's name, type, files and message follow from the spec. */
  datatype Draft = WebDraft(web: WebSpec) | MobileDraft(mobile: MobileSpec)
  {
    function Name(): string {
      match this
      case WebDraft(spec) => spec.name
      case MobileDraft(spec) => spec.name
    }

    function Kind(): string {
      match this
      case WebDraft(_) => "web-app"
      case MobileDraft(_) => "mobile-app"
    }

    function Files(): seq<Slot> {
      match this
      case WebDraft(spec) => WebAppFiles(spec)
      case MobileDraft(spec) => GenerateMobileApp(spec)
    }

    function Message(): string {
      match this
      case WebDraft(spec) => WebMessage(spec.name)
      case MobileDraft(spec) => MobileMessage(spec.name)
    }
  }

  /** What `processCommand` decides before anything is saved: the branch that
      saves a project, or the exception the call ends with. `command` is the
      parsed body's `command` field, a string or absent (`None`). */
  function Plan(command: Option<string>, capture: Option<string>): Result<Draft, JsError> {
    match command
    case None => Failure(UndefinedCommand)
    case Some(cmd) =>
      var c := Classify(cmd);
      if c == WebApp then Success(WebDraft(WebSpecOf(cmd, capture)))
      else if c == MobileApp then Success(MobileDraft(MobileSpecOf(cmd, capture)))
      else if c == AiModel then Failure(GenerateAIModel(AiSpecOf(cmd, capture)).error)
      else Failure(ReferenceError(Handler(c)))
  }

  /** The outcome of every command: a missing command throws reading
      `toLowerCase`; a command succeeds exactly when it is classified as a web
      or mobile application; the AI branch throws the template's TypeError;
      every other branch throws a ReferenceError naming its undefined handler. */
  lemma PlanOutcome(command: Option<string>, capture: Option<string>)
    ensures command.None? ==> Plan(command, capture) == Failure(UndefinedCommand)
    ensures command.Some? ==>
      var c := Classify(command.value);
      && (Plan(command, capture).Success? <==> c == WebApp || c == MobileApp)
      && (c == AiModel ==> Plan(command, capture) == Failure(TypeError("name.lower is not a function")))
      && (!HandlerDefined(c) ==> Plan(command, capture) == Failure(ReferenceError(Handler(c)))
                                 && Js.Message(Plan(command, capture).error) == Handler(c) + " is not defined")
  {
  }

  /** The web branch: a web-app named after the capture or 'Mi Web App',
      reported with the web message, whose files `generateWebApp` builds from
      the command's spec. */
  lemma PlanWebProject(command: string, capture: Option<string>)
    requires Classify(command) == WebApp
    ensures Plan(Some(command), capture).Success?
    ensures var d := Plan(Some(command), capture).value;
      && d.Kind() == "web-app"
      && d.Name() == ProjectName(capture, "Mi Web App")
      && d.Message() == WebMessage(d.Name())
      && d.Files() == WebAppFiles(WebSpecOf(command, capture))
  {
  }

  /** The web file set in terms of the command: the React entry point is
      there exactly when "react" occurs in the lower-cased command or neither
      "vue" nor "angular" does (React is the default); the Mongoose model
      exactly when "mongodb" occurs or neither "postgresql" nor "mysql" does
      (MongoDB is the default); the auth middleware exactly when an auth
      synonym occurs in the raw command; the seven core files always. */
  lemma WebCommandFiles(command: string, capture: Option<string>)
    ensures var files := WebAppFiles(WebSpecOf(command, capture)); var lc := ToLower(command);
      && (HasPath(files, "client/src/App.js")
          <==> Includes(lc, "react") || (!Includes(lc, "vue") && !Includes(lc, "angular")))
      && (HasPath(files, "models/User.js")
          <==> Includes(lc, "mongodb") || (!Includes(lc, "postgresql") && !Includes(lc, "mysql")))
      && (HasPath(files, "middleware/auth.js") <==> WantsAuth(command))
      && forall k :: 0 <= k < |WebCorePaths| ==> HasPath(files, WebCorePaths[k])
  {
    WebAppFileSet(WebSpecOf(command, capture));
    WebSpecDefaults(command, capture);
  }

  /** The React and MongoDB defaults of `createWebProject`. */
  lemma WebSpecDefaults(command: string, capture: Option<string>)
    ensures var spec := WebSpecOf(command, capture); var lc := ToLower(command);
      && (spec.frontend == "react" <==> Includes(lc, "react") || (!Includes(lc, "vue") && !Includes(lc, "angular")))
      && (spec.database == "mongodb" <==> Includes(lc, "mongodb") || (!Includes(lc, "postgresql") && !Includes(lc, "mysql")))
      && ("auth" in spec.features <==> WantsAuth(command))
  {
    assert Frontends[0] == "react" && Frontends[1] == "vue" && Frontends[2] == "angular";
    assert Databases[0] == "mongodb" && Databases[1] == "postgresql" && Databases[2] == "mysql";
    FirstTechnology(command, Frontends, "react");
    FirstTechnology(command, Databases, "mongodb");
  }

  /** For the three-way technology lists, the detected value is the head of
      the list exactly when the head occurs or neither other entry does. */
  lemma FirstTechnology(command: string, technologies: seq<string>, fallback: string)
    requires |technologies| == 3 && fallback == technologies[0]
    requires technologies[0] != "" && technologies[1] != "" && technologies[2] != ""
    requires technologies[0] != technologies[1] && technologies[0] != technologies[2]
    ensures var lc := ToLower(command);
      TechnologyOr(command, technologies, fallback) == fallback
      <==> Includes(lc, technologies[0]) || (!Includes(lc, technologies[1]) && !Includes(lc, technologies[2]))
  {
    var lc := ToLower(command);
    var r := TechnologyOr(command, technologies, fallback);
    TechnologyOrChoice(command, technologies, fallback);
    if Includes(lc, technologies[0]) || Includes(lc, technologies[1]) || Includes(lc, technologies[2]) {
      var k :| 0 <= k < |technologies| && technologies[k] == r && Includes(lc, r)
               && forall j :: 0 <= j < k ==> !Includes(lc, technologies[j]);
    }
  }

  /** The mobile branch: a mobile-app named after the capture or
      'Mi App Móvil' whose file set is exactly package.json and App.js. */
  lemma PlanMobileProject(command: string, capture: Option<string>)
    requires Classify(command) == MobileApp
    ensures Plan(Some(command), capture).Success?
    ensures var d := Plan(Some(command), capture).value;
      && d.Kind() == "mobile-app"
      && d.Name() == ProjectName(capture, "Mi App M\U{F3}vil")
      && d.Message() == MobileMessage(d.Name())
      && Paths(d.Files()) == ["package.json", "App.js"]
  {
  }

  /** Without a usable capture each branch that gets as far as naming its
      project uses its default name. */
  lemma PlanDefaultNames(command: string, capture: Option<string>)
    requires capture.None? || Trim(capture.value) == ""
    ensures Plan(Some(command), capture).Success? ==>
      Plan(Some(command), capture).value.Name()
        == if Classify(command) == WebApp then "Mi Web App" else "Mi App M\U{F3}vil"
    ensures AiSpecOf(command, capture).name == "Mi Modelo IA"
  {
  }

  /** The response of `createWebProject` / `createMobileProject`. */
  datatype Created = Created(message: string, project: Project)

  /** `createWebProject`: builds the spec from the command, generates the
      files, saves the project and reports it. */
  method CreateWebProject(store: Store, command: string, capture: Option<string>, id: nat, created: string)
    returns (r: Created)
    modifies store
    ensures var d := WebDraft(WebSpecOf(command, capture));
      r == Created(d.Message(), Project(id, d.Name(), d.Kind(), d.Files(), created, Completed))
      && store.projects == old(store.projects) + [r.project]
  {
    var name := ProjectName(capture, "Mi Web App");
    var features := CollectFeatures(command);
    var spec := WebSpec(name, TechnologyOr(command, Frontends, "react"), TechnologyOr(command, Backends, "express"),
                        TechnologyOr(command, Databases, "mongodb"), features);
    assert spec == WebSpecOf(command, capture);
    var files := GenerateWebApp(spec);
    var project := store.SaveProject(id, name, "web-app", files, created);
    r := Created(WebMessage(name), project);
  }

  /** `createMobileProject`: the same for a mobile application. */
  method CreateMobileProject(store: Store, command: string, capture: Option<string>, id: nat, created: string)
    returns (r: Created)
    modifies store
    ensures var d := MobileDraft(MobileSpecOf(command, capture));
      r == Created(d.Message(), Project(id, d.Name(), d.Kind(), d.Files(), created, Completed))
      && store.projects == old(store.projects) + [r.project]
  {
    var name := ProjectName(capture, "Mi App M\U{F3}vil");
    var features := CollectFeatures(command);
    var spec := MobileSpec(name, TechnologyOr(command, MobileFrameworks, "react-native"), features);
    assert spec == MobileSpecOf(command, capture);
    var files := GenerateMobileApp(spec);
    var project := store.SaveProject(id, name, "mobile-app", files, created);
    r := Created(MobileMessage(name), project);
  }

  /** `createAIProject`: `generateAIModel` throws before `saveProject` is
      reached, so the call always fails and the store is not touched. */
  method CreateAIProject(command: string, capture: Option<string>) returns (r: Result<Created, JsError>)
    ensures r == Failure(GenerateAIModel(AiSpecOf(command, capture)).error)
    ensures r.Failure? && Js.Message(r.error) == "name.lower is not a function"
  {
    var generated := GenerateAIModel(AiSpecOf(command, capture));
    r := Failure(generated.error);
  }

  /** `processCommand`: dispatches on the category; a branch that throws
      saves nothing, and a branch that succeeds saves exactly its project. */
  method ProcessCommand(store: Store, command: Option<string>, capture: Option<string>, id: nat, created: string)
    returns (r: Result<Created, JsError>)
    modifies store
    ensures Plan(command, capture).Failure? ==>
      r == Failure(Plan(command, capture).error) && store.projects == old(store.projects)
    ensures Plan(command, capture).Success? ==>
      var d := Plan(command, capture).value;
      var p := Project(id, d.Name(), d.Kind(), d.Files(), created, Completed);
      r == Success(Created(d.Message(), p)) && store.projects == old(store.projects) + [p]
  {
    if command.None? {
      return Failure(UndefinedCommand);
    }
    var c := Classify(command.value);
    if HandlerDefined(c) {
      r := CallHandler(store, command.value, capture, id, created);
    } else {
      assert Plan(command, capture) == Failure(ReferenceError(Handler(c)));
      r := Failure(ReferenceError(Handler(c)));
    }
  }

  /** The branches of `processCommand` whose handler exists: the web and
      mobile handlers save their project, the AI handler throws. */
  method CallHandler(store: Store, command: string, capture: Option<string>, id: nat, created: string)
    returns (r: Result<Created, JsError>)
    requires HandlerDefined(Classify(command))
    modifies store
    ensures Plan(Some(command), capture).Failure? ==>
      r == Failure(Plan(Some(command), capture).error) && store.projects == old(store.projects)
    ensures Plan(Some(command), capture).Success? ==>
      var d := Plan(Some(command), capture).value;
      var p := Project(id, d.Name(), d.Kind(), d.Files(), created, Completed);
      r == Success(Created(d.Message(), p)) && store.projects == old(store.projects) + [p]
  {
    var c := Classify(command);
    if c == WebApp {
      assert Plan(Some(command), capture) == Success(WebDraft(WebSpecOf(command, capture)));
      var made := CreateWebProject(store, command, capture, id, created);
      r := Success(made);
    } else if c == MobileApp {
      assert Plan(Some(command), capture) == Success(MobileDraft(MobileSpecOf(command, capture)));
      var made := CreateMobileProject(store, command, capture, id, created);
      r := Success(made);
    } else {
      assert Plan(Some(command), capture) == Failure(GenerateAIModel(AiSpecOf(command, capture)).error);
      r := CreateAIProject(command, capture);
    }
  }

  // ---------------------------------------------------------------------------
  // Routes

  /** The JSON bodies the routes send. */
  datatype Body =
    | ExecuteOk(message: string, project: Project)   // {success: true, message, project}
    | ExecuteError(error: string)                    // {success: false, error}
    | ProjectJson(project: Project)
    | NotFound                                       // {error: NotFoundError}

  /** The `error` field of the 404 body. */
  const NotFoundError: string := "Proyecto no encontrado"

  datatype Reply = Reply(status: nat, body: Body)

  /** `POST /api/execute`: the result of `processCommand` with status 200, or
      status 500 with the thrown error's message. */
  method Execute(store: Store, command: Option<string>, capture: Option<string>, id: nat, created: string)
    returns (reply: Reply)
    modifies store
    ensures Plan(command, capture).Failure? ==>
      reply == Reply(500, ExecuteError(Message(Plan(command, capture).error)))
      && store.projects == old(store.projects)
    ensures Plan(command, capture).Success? ==>
      var d := Plan(command, capture).value;
      var p := Project(id, d.Name(), d.Kind(), d.Files(), created, Completed);
      reply == Reply(200, ExecuteOk(d.Message(), p)) && store.projects == old(store.projects) + [p]
  {
    var result := ProcessCommand(store, command, capture, id, created);
    match result
    case Success(c) => reply := Reply(200, ExecuteOk(c.message, c.project));
    case Failure(e) => reply := Reply(500, ExecuteError(Message(e)));
  }

  /** `GET /api/projects/:id`: 404 exactly when no record has the id, and
      otherwise the first record that has it. */
  function GetProject(projects: seq<Project>, id: nat): (reply: Reply)
    ensures reply.status == 404 <==> forall j :: 0 <= j < |projects| ==> projects[j].id != id
    ensures reply.status == 404 ==> reply.body == NotFound
    ensures reply.status != 404 ==>
      reply.status == 200 && reply.body.ProjectJson?
      && exists k :: 0 <= k < |projects| && projects[k] == reply.body.project && projects[k].id == id
                     && forall j :: 0 <= j < k ==> projects[j].id != id
  {
    match FindById(projects, id)
    case None => Reply(404, NotFound)
    case Some(p) => Reply(200, ProjectJson(p))
  }

  /** The directory `saveProject` writes a project's files to, relative to the
      backend's own directory. */
  function ProjectDir(id: nat): string {
    "projects/" + NatToString(id)
  }

  /** Distinct ids get distinct directories, and the id can be read back from
      the directory name. */
  lemma ProjectDirNamesId(a: nat, b: nat)
    ensures ProjectDir(a) == ProjectDir(b) ==> a == b
    ensures var d := ProjectDir(a); IsDigits(d[9..]) && ParseDecimal(d[9..]) == a
  {
    var da, db := ProjectDir(a), ProjectDir(b);
    assert da[9..] == NatToString(a);
    assert db[9..] == NatToString(b);
    NatToStringInjective(a, b);
    ParseNatToString(a);
  }

  /** The archive `GET /api/download/:id` sends: the project directory it
      zips and the attachment name. */
  datatype Archive = Archive(directory: string, attachment: string)

  /** `GET /api/download/:id` up to the archiver: 404 when no record has the
      id, and otherwise the directory of the first record with the id and the
      attachment name '<project name>.zip'. */
  function Download(projects: seq<Project>, id: nat): (r: Result<Archive, Reply>)
    ensures r.Failure? <==> forall j :: 0 <= j < |projects| ==> projects[j].id != id
    ensures r.Failure? ==> r.error == Reply(404, NotFound)
    ensures r.Success? ==>
      r.value.directory == ProjectDir(id)
      && exists k :: 0 <= k < |projects| && projects[k].id == id && r.value.attachment == projects[k].name + ".zip"
                     && forall j :: 0 <= j < k ==> projects[j].id != id
  {
    match FindById(projects, id)
    case None => Failure(Reply(404, NotFound))
    case Some(p) => Success(Archive(ProjectDir(p.id), p.name + ".zip"))
  }

  /** A saved project can be downloaded from the directory it was saved to, as
      long as no earlier project has the same id. */
  lemma SavedProjectDownloads(projects: seq<Project>, p: Project)
    requires forall j :: 0 <= j < |projects| ==> projects[j].id != p.id
    ensures Download(projects + [p], p.id) == Success(Archive(ProjectDir(p.id), p.name + ".zip"))
    ensures GetProject(projects + [p], p.id) == Reply(200, ProjectJson(p))
  {
    SavedRecordFound(projects, p);
  }
}
