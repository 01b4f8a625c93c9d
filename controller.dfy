/**
 * The front-end controller: the `BlackboxAI` object's project list and its
 * default-filling builders, the quick-command table, and the
 * `BlackboxAPI.executeCommand` first-word dispatch. What the DOM, the window
 * and the notification area would do is returned as a value.
 */
module Controller {
  import opened Wrappers
  import opened Js
  import ProjectStore
  import Classifier
  import Server

  // ---------------------------------------------------------------------------
  // The project list

  /** A project as the controller records it; `id` is the `Date.now()` value
      and `created` the timestamp, both supplied by the caller. */
  datatype ClientProject = ClientProject(id: nat, name: string, kind: string, status: ProjectStore.Status,
                                         progress: nat, files: seq<string>, created: string)

  /** The `{name, type}` part of a backend project that `createProject` reads. */
  datatype ProjectData = ProjectData(name: string, kind: string)

  /** A message for the notification area, with its style. */
  datatype Notification = Notification(text: string, style: string)

  /** The notification `handleCommandResult` shows for a response body: the
      message for a success, and otherwise the body's `error` field; a project
      record has no `error` field, which the template literal renders as
      "undefined". */
  function ResultNotification(result: Server.Body): (n: Notification)
    ensures n.style == "success" <==> result.ExecuteOk?
    ensures result.ExecuteOk? ==> n.text == "\U{2705} " + result.message
    ensures result.ExecuteError? ==> n.text == "\U{274C} Error: " + result.error
    ensures result.NotFound? ==> n.text == "\U{274C} Error: Proyecto no encontrado"
    ensures result.ProjectJson? ==> n.text == "\U{274C} Error: undefined"
    ensures !result.ExecuteOk? ==> n.style == "error" && StartsWith(n.text, "\U{274C} Error: ")
  {
    match result
    case ExecuteOk(message, _) => Notification("\U{2705} " + message, "success")
    case ExecuteError(error) => Notification("\U{274C} Error: " + error, "error")
    case NotFound => Notification("\U{274C} Error: " + Server.NotFoundError, "error")
    case ProjectJson(_) => Notification("\U{274C} Error: undefined", "error")
  }

  /** What `runProject` does for a known project: a notification and the page it opens. */
  datatype Launch = Launch(notification: Notification, url: string)

  /** The link `createZip` clicks: the download route and the suggested file name. */
  datatype ZipLink = ZipLink(href: string, download: string)

  class BlackboxAI {
    var projects: seq<ClientProject>
    var currentProject: Option<ClientProject>

    /** The state the constructor sets up (before `init` loads any saved list). */
    constructor()
      ensures projects == [] && currentProject == None
    {
      projects := [];
      currentProject := None;
    }

    /** `createProject`: appends one record, still being created, with no
        progress and no files, and makes it the current project. */
    method CreateProject(data: ProjectData, id: nat, created: string)
      modifies this
      ensures projects == old(projects) + [ClientProject(id, data.name, data.kind, ProjectStore.Creating, 0, [], created)]
      ensures currentProject == Some(projects[|projects| - 1])
    {
      var project := ClientProject(id, data.name, data.kind, ProjectStore.Creating, 0, [], created);
      projects := projects + [project];
      currentProject := Some(project);
    }

    /** `handleCommandResult`: notifies, and on success records the project. */
    method HandleCommandResult(result: Server.Body, id: nat, created: string) returns (n: Notification)
      modifies this
      ensures n == ResultNotification(result)
      ensures result.ExecuteOk? ==>
        var p := ClientProject(id, result.project.name, result.project.kind, ProjectStore.Creating, 0, [], created);
        projects == old(projects) + [p] && currentProject == Some(p)
      ensures !result.ExecuteOk? ==> projects == old(projects) && currentProject == old(currentProject)
    {
      n := ResultNotification(result);
      if result.ExecuteOk? {
        CreateProject(ProjectData(result.project.name, result.project.kind), id, created);
      }
    }

    /** `runProject`: nothing when no project has the id (compared with
        `===`); otherwise the first such project is announced and its page
        opened. */
    method RunProject(projectId: nat) returns (r: Option<Launch>)
      ensures r.None? <==> forall j :: 0 <= j < |projects| ==> projects[j].id != projectId
      ensures r.Some? ==> exists k :: 0 <= k < |projects| && projects[k].id == projectId
                                      && (forall j :: 0 <= j < k ==> projects[j].id != projectId)
                                      && r.value == Launch(Notification("\U{1F680} Ejecutando " + projects[k].name + "...", "info"),
                                                           "/projects/" + NatToString(projectId))
    {
      var found := FindIndex(projects, (p: ClientProject) => p.id == projectId);
      match found
      case None => r := None;
      case Some(k) =>
        r := Some(Launch(Notification("\U{1F680} Ejecutando " + projects[k].name + "...", "info"),
                         "/projects/" + NatToString(projectId)));
    }

    /** `downloadProject`: nothing when no project has the id; otherwise the
        link to the backend's download route for the first such project. */
    method DownloadProject(projectId: nat) returns (r: Option<ZipLink>)
      ensures r.None? <==> forall j :: 0 <= j < |projects| ==> projects[j].id != projectId
      ensures r.Some? ==> exists k :: 0 <= k < |projects| && projects[k].id == projectId
                                      && (forall j :: 0 <= j < k ==> projects[j].id != projectId)
                                      && r.value == ZipLink(DownloadHref(projectId), projects[k].name + ".zip")
    {
      var found := FindIndex(projects, (p: ClientProject) => p.id == projectId);
      match found
      case None => r := None;
      case Some(k) => r := Some(ZipLink(DownloadHref(projects[k].id), projects[k].name + ".zip"));
    }
  }

  function DownloadHref(id: nat): string {
    "/api/download/" + NatToString(id)
  }

  /** The link names the project it was made for: the id can be read back
      from the route, and distinct ids give distinct links. */
  lemma DownloadHrefNamesId(a: nat, b: nat)
    ensures var h := DownloadHref(a); IsDigits(h[14..]) && ParseDecimal(h[14..]) == a
    ensures DownloadHref(a) == DownloadHref(b) ==> a == b
  {
    assert DownloadHref(a)[14..] == NatToString(a);
    assert DownloadHref(b)[14..] == NatToString(b);
    ParseNatToString(a);
    NatToStringInjective(a, b);
  }

  // ---------------------------------------------------------------------------
  // Builders with defaults

  /** The optional fields a caller may pass; `None` is a missing field. */
  datatype WebRequest = WebRequest(name: Option<string>, frontend: Option<string>, backend: Option<string>, database: Option<string>)
  datatype MobileRequest = MobileRequest(name: Option<string>, framework: Option<string>)
  datatype AiRequest = AiRequest(name: Option<string>, model: Option<string>, framework: Option<string>)

  datatype ClientSpec =
    | WebStructure(frontend: string, backend: string, database: string)
    | MobileFramework(framework: string)
    | AiSetup(model: string, framework: string)
    | NoSpec

  /** The project object a builder constructs. */
  datatype ClientDraft = ClientDraft(name: string, kind: string, spec: ClientSpec)

  /** A builder's response; `files` is absent from the custom response. */
  datatype Generated = Generated(success: bool, project: ClientDraft, files: Option<seq<string>>)

  /** `generateWebApp` of the controller: always succeeds, returns the
      project it was given and five fixed file names. */
  function GenerateWebApp(project: ClientDraft): (r: Generated)
    ensures r.success && r.project == project && r.files.Some? && |r.files.value| == 5
    ensures DistinctNames(r.files.value)
  {
    var files := ["package.json", "src/index.js", "src/App.js", "public/index.html", "README.md"];
    assert forall i :: 0 <= i < 5 ==> |files[i]| > 0 && files[i][0] in "psR";
    Generated(true, project, Some(files))
  }

  function GenerateMobileApp(project: ClientDraft): (r: Generated)
    ensures r.success && r.project == project && r.files.Some? && |r.files.value| == 4
    ensures DistinctNames(r.files.value)
  {
    Generated(true, project, Some(["package.json", "App.js", "src/screens/Home.js", "src/components/Header.js"]))
  }

  function GenerateAIModel(project: ClientDraft): (r: Generated)
    ensures r.success && r.project == project && r.files.Some? && |r.files.value| == 4
    ensures DistinctNames(r.files.value)
  {
    Generated(true, project, Some(["model.py", "train.py", "predict.py", "requirements.txt"]))
  }

  /** `createWebApp`: each missing or empty field takes its own default. */
  function CreateWebApp(specs: WebRequest): Generated {
    GenerateWebApp(ClientDraft(OrElse(specs.name, "Web App"), "web-app",
                               WebStructure(OrElse(specs.frontend, "react"), OrElse(specs.backend, "node"),
                                            OrElse(specs.database, "mongodb"))))
  }

  function CreateMobileApp(specs: MobileRequest): Generated {
    GenerateMobileApp(ClientDraft(OrElse(specs.name, "Mobile App"), "mobile-app",
                                  MobileFramework(OrElse(specs.framework, "react-native"))))
  }

  function CreateAIModel(specs: AiRequest): Generated {
    GenerateAIModel(ClientDraft(OrElse(specs.name, "AI Model"), "ai-model",
                                AiSetup(OrElse(specs.model, "neural-network"), OrElse(specs.framework, "tensorflow"))))
  }

  /** A given, non-empty field is kept; a missing or empty one takes the default. */
  predicate Defaulted(given: Option<string>, fallback: string, value: string) {
    if given.Some? && given.value != "" then value == given.value else value == fallback
  }

  /** An empty request gets every default of the web builder, and each field
      of a request is defaulted on its own. */
  lemma WebAppDefaults(specs: WebRequest)
    ensures var d := CreateWebApp(specs).project;
      && d.kind == "web-app" && d.spec.WebStructure?
      && Defaulted(specs.name, "Web App", d.name)
      && Defaulted(specs.frontend, "react", d.spec.frontend)
      && Defaulted(specs.backend, "node", d.spec.backend)
      && Defaulted(specs.database, "mongodb", d.spec.database)
    ensures CreateWebApp(WebRequest(None, None, None, None)).project
            == ClientDraft("Web App", "web-app", WebStructure("react", "node", "mongodb"))
  {
  }

  /** Changing one field of the request changes only the matching field of
      the project. */
  lemma WebAppFieldsIndependent(specs: WebRequest, v: Option<string>)
    ensures var before := CreateWebApp(specs).project;
      && CreateWebApp(specs.(name := v)).project
         == before.(name := OrElse(v, "Web App"))
      && CreateWebApp(specs.(frontend := v)).project
         == before.(spec := before.spec.(frontend := OrElse(v, "react")))
      && CreateWebApp(specs.(backend := v)).project
         == before.(spec := before.spec.(backend := OrElse(v, "node")))
      && CreateWebApp(specs.(database := v)).project
         == before.(spec := before.spec.(database := OrElse(v, "mongodb")))
  {
  }

  lemma MobileAppDefaults(specs: MobileRequest)
    ensures var d := CreateMobileApp(specs).project;
      && d.kind == "mobile-app" && d.spec.MobileFramework?
      && Defaulted(specs.name, "Mobile App", d.name)
      && Defaulted(specs.framework, "react-native", d.spec.framework)
  {
  }

  lemma AIModelDefaults(specs: AiRequest)
    ensures var d := CreateAIModel(specs).project;
      && d.kind == "ai-model" && d.spec.AiSetup?
      && Defaulted(specs.name, "AI Model", d.name)
      && Defaulted(specs.model, "neural-network", d.spec.model)
      && Defaulted(specs.framework, "tensorflow", d.spec.framework)
  {
  }

  // ---------------------------------------------------------------------------
  // BlackboxAPI.executeCommand

  /** `command.toLowerCase().split(' ')[0]`: the lower-cased command up to its
      first space. */
  function CommandKey(command: string): (key: string)
    ensures StartsWith(ToLower(command), key) && ' ' !in key
    ensures |key| == |command| || ToLower(command)[|key|] == ' '
  {
    FirstWord(ToLower(command))
  }

  /** The response for a command with no builder. */
  function CustomResponse(command: string): Generated {
    Generated(true, ClientDraft("Proyecto: " + command, "custom", NoSpec), None)
  }

  /** The dispatch on the command table's own keys: 'web', 'mobile' and 'ai'
      call their builders with the backend's default names, and every other
      first word yields a custom project named after the whole command. */
  function ExecuteCommand(command: string): (r: Generated)
    ensures r.success
    ensures CommandKey(command) == "web" ==> r == CreateWebApp(WebRequest(Some("Mi Web App"), None, None, None))
    ensures CommandKey(command) == "mobile" ==> r == CreateMobileApp(MobileRequest(Some("Mi App M\U{F3}vil"), None))
    ensures CommandKey(command) == "ai" ==> r == CreateAIModel(AiRequest(Some("Mi Modelo IA"), None, None))
    ensures CommandKey(command) !in {"web", "mobile", "ai"} ==>
              r.project == ClientDraft("Proyecto: " + command, "custom", NoSpec) && r.files.None?
  {
    var key := CommandKey(command);
    if key == "web" then CreateWebApp(WebRequest(Some("Mi Web App"), None, None, None))
    else if key == "mobile" then CreateMobileApp(MobileRequest(Some("Mi App M\U{F3}vil"), None))
    else if key == "ai" then CreateAIModel(AiRequest(Some("Mi Modelo IA"), None, None))
    else CustomResponse(command)
  }

  /** A 'web' command builds the web project with the React, Node and
      MongoDB defaults and five files. */
  lemma WebCommandProject(rest: string)
    ensures var r := ExecuteCommand("web " + rest);
      r.project == ClientDraft("Mi Web App", "web-app", WebStructure("react", "node", "mongodb"))
      && r.files.Some? && |r.files.value| == 5
  {
    LowerOfNoUpper("web ");
    ToLowerAppend("web ", rest);
    FirstWordOf("web", ToLower(rest));
    assert "web " + ToLower(rest) == "web" + " " + ToLower(rest);
  }

  /** What Object.prototype contributes to a lookup `commands[key]` on an
      object literal, for a key that is all lower case: `constructor` is the
      `Object` function, `__proto__` the prototype object itself. */
  datatype Inherited = ObjectFunction | PrototypeObject | Nothing

  const ConstructorKey := "constructor"
  const ProtoKey := "__proto__"

  function InheritedMember(key: string): Inherited {
    if key == ConstructorKey then ObjectFunction
    else if key == ProtoKey then PrototypeObject
    else Nothing
  }

  /** What `executeCommand` resolves to as written: the custom response, a
      builder's response, or the empty object `Object()` returns. */
  datatype ApiOutcome = Response(generated: Generated) | EmptyObject

  /** `BlackboxAPI.executeCommand` as written: `commands[key]` also finds
      the members the literal inherits, so the key 'constructor' calls
      `Object()` and resolves to `{}`, and the key '__proto__' finds a truthy
      object that is not callable and throws. */
  function ExecuteCommandAsWritten(command: string): (r: Result<ApiOutcome, JsError>)
    ensures InheritedMember(CommandKey(command)) == Nothing ==> r == Success(Response(ExecuteCommand(command)))
  {
    var key := CommandKey(command);
    if key == "web" || key == "mobile" || key == "ai" then Success(Response(ExecuteCommand(command)))
    else
      match InheritedMember(key)
      case ObjectFunction => Success(EmptyObject)
      case PrototypeObject => Failure(TypeError("commands[key] is not a function"))
      case Nothing => Success(Response(CustomResponse(command)))
  }

  /** A lower-case word without spaces is its own command key. */
  lemma KeyOfWord(w: string)
    requires ' ' !in w
    requires forall i :: 0 <= i < |w| ==> !('A' <= w[i] <= 'Z') && !('\U{C0}' <= w[i] <= '\U{DE}')
    ensures CommandKey(w) == w
  {
    LowerOfNoUpper(w);
    FirstWordOf(w, "");
  }

  /** The code as written departs from the intended fallback exactly on the
      inherited keys: a command whose first word is 'constructor' resolves
      to an empty object and one whose first word is '__proto__' throws,
      where the own-keys dispatch gives a custom project for both. */
  lemma InheritedKeysMisdispatch(command: string)
    requires InheritedMember(CommandKey(command)) != Nothing
    ensures CommandKey(command) == ConstructorKey ==> ExecuteCommandAsWritten(command) == Success(EmptyObject)
    ensures CommandKey(command) == ProtoKey
            ==> ExecuteCommandAsWritten(command) == Failure(TypeError("commands[key] is not a function"))
    ensures ExecuteCommand(command).project == ClientDraft("Proyecto: " + command, "custom", NoSpec)
    ensures ExecuteCommandAsWritten(command) != Success(Response(ExecuteCommand(command)))
  {
  }

  /** The commands 'constructor' and '__proto__' are such commands. */
  lemma PrototypeKeysMisdispatch()
    ensures CommandKey(ConstructorKey) == ConstructorKey && InheritedMember(ConstructorKey) == ObjectFunction
    ensures CommandKey(ProtoKey) == ProtoKey && InheritedMember(ProtoKey) == PrototypeObject
  {
    ConstructorIsKey();
    ProtoIsKey();
  }

  lemma ConstructorIsKey()
    ensures CommandKey(ConstructorKey) == ConstructorKey
  {
    KeyOfWord(ConstructorKey);
  }

  lemma ProtoIsKey()
    ensures CommandKey(ProtoKey) == ProtoKey
  {
    KeyOfWord(ProtoKey);
  }

  // ---------------------------------------------------------------------------
  // Quick commands

  const QuickWebApp := "Crear una aplicaci\U{F3}n web moderna con React y Node.js"
  const QuickMobileApp := "Crear una app m\U{F3}vil con React Native"

  /** The table of `executeQuickCommand`. */
  const QuickCommands: map<string, string> := map[
    "web-app" := QuickWebApp,
    "mobile-app" := QuickMobileApp,
    "ai-model" := "Crear un modelo de IA con TensorFlow.js",
    "ecommerce" := "Crear tienda online con carrito de compras",
    "game" := "Crear un juego 2D con Canvas y JavaScript",
    "api" := "Crear API REST con Express.js",
    "security" := "Crear herramienta de seguridad con Python",
    "automation" := "Crear script de automatizaci\U{F3}n"
  ]

  /** `commands[command]`: the command string of a known key, `undefined` otherwise. */
  function QuickCommand(key: string): (r: Option<string>)
    ensures r.Some? <==> key in QuickCommands
    ensures r.Some? ==> r.value == QuickCommands[key]
  {
    if key in QuickCommands then Some(QuickCommands[key]) else None
  }

  /** An unknown quick key sends a body without a command (`JSON.stringify`
      drops an undefined field, and also a function that an inherited key
      such as 'constructor' finds), so the backend fails reading
      `toLowerCase` and the controller shows that error. The key '__proto__'
      finds `Object.prototype`, an object that is sent, so it is not one of
      these keys. */
  lemma UnknownQuickKeyFails(key: string, capture: Option<string>)
    requires key !in QuickCommands && key != "__proto__"
    ensures Server.Plan(QuickCommand(key), capture) == Failure(Server.UndefinedCommand)
    ensures ResultNotification(Server.ExecuteError(Message(Server.UndefinedCommand)))
            == Notification("\U{274C} Error: " + "Cannot read properties of undefined (reading 'toLowerCase')", "error")
  {
  }

  /** The eight keys of the table, and the commands behind the first two. */
  lemma QuickCommandKeys()
    ensures QuickCommands.Keys == {"web-app", "mobile-app", "ai-model", "ecommerce", "game", "api", "security", "automation"}
    ensures QuickCommand("web-app") == Some(QuickWebApp)
    ensures QuickCommand("mobile-app") == Some(QuickMobileApp)
  {
  }

  /** The 'web-app' quick command reaches the backend's web branch, since
      "web" occurs in it. */
  lemma QuickWebAppIsWeb()
    ensures Classifier.Classify(QuickWebApp) == Classifier.WebApp
  {
    QuickWebAppHasWeb();
    Classifier.WebWhenWebOccurs(QuickWebApp);
  }

  lemma QuickWebAppHasWeb()
    ensures Includes(ToLower(QuickWebApp), "web")
  {
    var before, after := "Crear una aplicaci\U{F3}n ", " moderna con React y Node.js";
    assert QuickWebApp == before + "web" + after;
    LowerOfNoUpper("web");
    LowerInfix(before, "web", after);
  }

  /** The 'mobile-app' quick command reaches the mobile branch: no web
      trigger occurs in it and "app" does. */
  lemma QuickMobileAppIsMobile()
    ensures Classifier.Classify(QuickMobileApp) == Classifier.MobileApp
  {
    QuickMobileAppNotWeb();
    QuickMobileAppHasApp();
    Classifier.MobileWhenAppWithoutWeb(QuickMobileApp);
  }

  lemma QuickMobileAppHasApp()
    ensures Includes(ToLower(QuickMobileApp), "app")
  {
    var before, after := "Crear una ", " m\U{F3}vil con React Native";
    assert QuickMobileApp == before + "app" + after;
    LowerOfNoUpper("app");
    LowerInfix(before, "app", after);
  }

  /** None of "web", "sitio" and "página" occurs in the lower-cased 'mobile-app'
      command, which has no w, s or g in either case. */
  lemma QuickMobileAppNotWeb()
    ensures var lc := ToLower(QuickMobileApp);
      !Includes(lc, "web") && !Includes(lc, "sitio") && !Includes(lc, "p\U{E1}gina")
  {
    QuickMobileAppLacks();
    NoWebTrigger(ToLower(QuickMobileApp));
  }

  lemma QuickMobileAppLacks()
    ensures var lc := ToLower(QuickMobileApp); 'w' !in lc && 's' !in lc && 'g' !in lc
  {
    QuickMobileAppLacksChar('w');
    QuickMobileAppLacksChar('s');
    QuickMobileAppLacksChar('g');
  }

  lemma QuickMobileAppLacksChar(c: char)
    requires c == 'w' || c == 's' || c == 'g'
    ensures c !in ToLower(QuickMobileApp)
  {
    assert c !in QuickMobileApp && (c as int - 32) as char !in QuickMobileApp;
    LowerAbsent(QuickMobileApp, c);
  }

  /** A lower-cased command with no w, s or g has no web trigger. */
  lemma NoWebTrigger(lc: string)
    requires 'w' !in lc && 's' !in lc && 'g' !in lc
    ensures !Includes(lc, "web") && !Includes(lc, "sitio") && !Includes(lc, "p\U{E1}gina")
  {
    AbsentCharNotIncluded(lc, "web", 0);
    AbsentCharNotIncluded(lc, "sitio", 0);
    AbsentCharNotIncluded(lc, "p\U{E1}gina", 2);
  }

  /** A lower-case word in the middle of a command is found in its lower case. */
  lemma LowerInfix(before: string, word: string, after: string)
    requires ToLower(word) == word
    ensures Includes(ToLower(before + word + after), word)
  {
    var lb, la := ToLower(before), ToLower(after);
    ToLowerAppend(before + word, after);
    ToLowerAppend(before, word);
    var lc := lb + word + la;
    assert lc[|lb|..|lb| + |word|] == word;
    IncludesAt(lc, word, |lb|);
  }
}
