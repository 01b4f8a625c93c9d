/**
 * The template renderers of `CodeGenerator`: which files each project kind
 * gets, the package manifests, and the `.env.example` text. A generated file's
 * content is modelled by the template that produced it together with the
 * values that vary in it; the fixed boilerplate text is not modelled.
 */
module Templates {
  import opened Wrappers
  import opened Js

  /** The parameter bags the renderers take. */
  datatype WebSpec = WebSpec(name: string, frontend: string, backend: string, database: string, features: seq<string>)
  datatype MobileSpec = MobileSpec(name: string, framework: string, features: seq<string>)
  datatype AiSpec = AiSpec(name: string, modelType: string, framework: string)

  /** A JSON object with string values, keys in insertion order. */
  type Entries = seq<(string, string)>

  /** `package.json` before `JSON.stringify(manifest, null, 2)`, fields in the order written. */
  datatype Manifest = Manifest(name: string, version: string, description: Option<string>, main: string,
                               scripts: Entries, dependencies: Entries)

  /** The content of a generated file: the template and what varies in it. */
  datatype Content =
    | PackageJson(manifest: Manifest)
    | ServerJs(mongoose: bool, jwt: bool)
    | Readme(title: string, frontend: string, backend: string, database: string, featureList: string)
    | EnvExample(text: string)
    | ReactApp(title: string, auth: bool)
    | ReactHtml(title: string)
    | VanillaHtml(title: string)
    | Css(authStyles: bool)
    | ApiRoutes(authRoutes: bool)
    | MongooseUserModel
    | AuthMiddleware
    | MobileAppJs(title: string)

  /** One property of a file-set object: a relative path and its content, `None` for `null`. */
  datatype Slot = Slot(path: string, content: Option<Content>)

  function Names(entries: Entries): seq<string> {
    seq(|entries|, i requires 0 <= i < |entries| => entries[i].0)
  }

  function Paths(files: seq<Slot>): seq<string> {
    seq(|files|, i requires 0 <= i < |files| => files[i].path)
  }

  predicate DistinctPaths(files: seq<Slot>) {
    forall i, j :: 0 <= i < j < |files| ==> files[i].path != files[j].path
  }

  // ---------------------------------------------------------------------------
  // Package manifests

  /** `name.toLowerCase().replace(/\s+/g, '-')`. */
  function PackageName(name: string): string {
    ReplaceWhitespaceRuns(ToLower(name), "-")
  }

  /** A package name is lower case and has no white space, and a name
      without white space is only lower-cased. */
  lemma PackageNameWellFormed(name: string)
    ensures NoWhitespace(PackageName(name))
    ensures ToLower(PackageName(name)) == PackageName(name)
    ensures NoWhitespace(name) ==> PackageName(name) == ToLower(name)
  {
    var lower := ToLower(name);
    ReplaceLeavesNoWhitespace(lower, "-");
    ReplaceOfLower(name, "-");
    if NoWhitespace(name) {
      forall i | 0 <= i < |lower| ensures !IsWhitespace(lower[i]) {
        LowerKeepsWhitespace(name[i]);
      }
      ReplaceKeepsWord(lower, "-");
    }
  }

  /** Each run of white space between words becomes exactly one '-'. */
  lemma PackageNameJoinsWords(word: string, run: string, rest: string)
    requires NoWhitespace(word) && run != [] && AllWhitespace(run)
    requires rest == [] || !IsWhitespace(rest[0])
    ensures PackageName(word + run + rest) == ToLower(word) + "-" + PackageName(rest)
  {
    ToLowerAppend(word + run, rest);
    ToLowerAppend(word, run);
    var lw, lr, lt := ToLower(word), ToLower(run), ToLower(rest);
    forall i | 0 <= i < |lw| ensures !IsWhitespace(lw[i]) { LowerKeepsWhitespace(word[i]); }
    forall i | 0 <= i < |lr| ensures IsWhitespace(lr[i]) { LowerKeepsWhitespace(run[i]); }
    if rest != [] { LowerKeepsWhitespace(rest[0]); }
    ReplaceRunOnce(lw, lr, lt, "-");
  }

  function WebScripts(frontend: string): Entries {
    [("start", "node server.js"),
     ("dev", "nodemon server.js"),
     ("build", if frontend == "react" then "npm run build:react" else "echo \"Build complete\""),
     ("build:react", "cd client && npm run build")]
  }

  function WebDependencies(database: string, features: seq<string>): Entries {
    [("express", "^4.18.2"), ("cors", "^2.8.5")]
    + (if database == "mongodb" then [("mongoose", "^7.0.0")] else [])
    + (if database == "postgresql" then [("pg", "^8.8.0")] else [])
    + (if "auth" in features then [("jsonwebtoken", "^9.0.0"), ("bcryptjs", "^2.4.3")] else [])
  }

  /** The web manifest's dependencies: express and cors first and always,
      mongoose exactly for MongoDB, pg exactly for PostgreSQL, jsonwebtoken
      and bcryptjs exactly when authentication is requested, nothing else and
      nothing twice. */
  lemma WebDependencyKeys(database: string, features: seq<string>)
    ensures var names := Names(WebDependencies(database, features));
      && |names| >= 2 && names[..2] == ["express", "cors"]
      && ("mongoose" in names <==> database == "mongodb")
      && ("pg" in names <==> database == "postgresql")
      && ("jsonwebtoken" in names <==> "auth" in features)
      && ("bcryptjs" in names <==> "auth" in features)
      && |names| == 2 + (if database in ["mongodb", "postgresql"] then 1 else 0)
                      + (if "auth" in features then 2 else 0)
      && DistinctNames(names)
  {
    var names := Names(WebDependencies(database, features));
    var auth := "auth" in features;
    if database == "mongodb" {
      if auth { assert names == ["express", "cors", "mongoose", "jsonwebtoken", "bcryptjs"]; }
      else { assert names == ["express", "cors", "mongoose"]; }
    } else if database == "postgresql" {
      if auth { assert names == ["express", "cors", "pg", "jsonwebtoken", "bcryptjs"]; }
      else { assert names == ["express", "cors", "pg"]; }
    } else {
      if auth { assert names == ["express", "cors", "jsonwebtoken", "bcryptjs"]; }
      else { assert names == ["express", "cors"]; }
    }
  }

  function WebManifest(spec: WebSpec): Manifest {
    Manifest(PackageName(spec.name), "1.0.0",
             Some("Aplicaci\U{F3}n web generada por BLACKBOX AI"), "server.js",
             WebScripts(spec.frontend), WebDependencies(spec.database, spec.features))
  }

  function MobileDependencies(features: seq<string>): Entries {
    [("expo", "~49.0.0"), ("react", "18.2.0"), ("react-native", "0.72.0"),
     ("@react-navigation/native", "^6.1.0")]
    + (if "auth" in features then [("@react-native-async-storage/async-storage", "^1.19.0")] else [])
  }

  /** The mobile manifest's dependencies: the Expo and React Native packages
      always and first, AsyncStorage exactly when authentication is
      requested, nothing twice. */
  lemma MobileDependencyKeys(features: seq<string>)
    ensures var names := Names(MobileDependencies(features));
      && |names| >= 4 && names[..4] == ["expo", "react", "react-native", "@react-navigation/native"]
      && ("@react-native-async-storage/async-storage" in names <==> "auth" in features)
      && |names| == 4 + (if "auth" in features then 1 else 0)
      && DistinctNames(names)
  {
    var names := Names(MobileDependencies(features));
    if "auth" in features {
      assert names == ["expo", "react", "react-native", "@react-navigation/native",
                       "@react-native-async-storage/async-storage"];
    } else {
      assert names == ["expo", "react", "react-native", "@react-navigation/native"];
    }
  }

  function MobileManifest(spec: MobileSpec): Manifest {
    Manifest(PackageName(spec.name), "1.0.0", None, "App.js",
             [("start", "expo start"), ("android", "expo start --android"),
              ("ios", "expo start --ios"), ("web", "expo start --web")],
             MobileDependencies(spec.features))
  }

  // ---------------------------------------------------------------------------
  // .env.example

  datatype EnvSection = EnvHeader | MongoDbSection | PostgreSqlSection | AuthSection

  /** The text of each section; the database sections interpolate the
      database name, which in each branch is the one the branch tested for. */
  function SectionText(s: EnvSection): string {
    match s
    case EnvHeader => "# Variables de entorno\nPORT=3000\nNODE_ENV=development\n\n"
    case MongoDbSection => "# MongoDB\nMONGODB_URI=mongodb://localhost:27017/mongodb\n\n"
    case PostgreSqlSection => "# PostgreSQL\nDATABASE_URL=postgresql://localhost:5432/postgresql\n\n"
    case AuthSection => "# Autenticaci\U{F3}n\nJWT_SECRET=your_jwt_secret_here\nBCRYPT_ROUNDS=12\n\n"
  }

  /** The sections of `.env.example`, in the order `generateEnvExample`
      appends them. */
  function EnvSections(database: string, features: seq<string>): seq<EnvSection> {
    [EnvHeader] + DatabaseSections(database) + AuthSections(features)
  }

  /** The database section: at most one, chosen by the first matching test. */
  function DatabaseSections(database: string): seq<EnvSection> {
    if database == "mongodb" then [MongoDbSection]
    else if database == "postgresql" then [PostgreSqlSection] else []
  }

  function AuthSections(features: seq<string>): seq<EnvSection> {
    if "auth" in features then [AuthSection] else []
  }

  /** The header comes first and once; at most one database section, MongoDB
      exactly for 'mongodb' and PostgreSQL exactly for 'postgresql'; the JWT
      section exactly for 'auth', and then last; no section twice. */
  lemma EnvSectionsShape(database: string, features: seq<string>)
    ensures var r := EnvSections(database, features);
      && |r| >= 1 && r[0] == EnvHeader && EnvHeader !in r[1..]
      && (MongoDbSection in r <==> database == "mongodb")
      && (PostgreSqlSection in r <==> database == "postgresql")
      && !(MongoDbSection in r && PostgreSqlSection in r)
      && (AuthSection in r <==> "auth" in features)
      && (AuthSection in r ==> r[|r| - 1] == AuthSection)
      && forall i, j :: 0 <= i < j < |r| ==> r[i] != r[j]
  {
  }

  /** The sections' texts, one after the other. */
  function RenderEnv(sections: seq<EnvSection>): string {
    ConcatMap(sections, SectionText)
  }

  /** The concatenation of `f` applied to each element of `xs`, in order. */
  function ConcatMap<T>(xs: seq<T>, f: T -> string): string
    decreases |xs|
  {
    if xs == [] then [] else f(xs[0]) + ConcatMap(xs[1..], f)
  }

  lemma ConcatMapCons<T>(x: T, xs: seq<T>, f: T -> string)
    ensures ConcatMap([x] + xs, f) == f(x) + ConcatMap(xs, f)
  {
    assert ([x] + xs)[1..] == xs;
  }

  /** Concatenation distributes over appending the lists. */
  lemma {:induction false} ConcatMapAppend<T>(xs: seq<T>, ys: seq<T>, f: T -> string)
    ensures ConcatMap(xs + ys, f) == ConcatMap(xs, f) + ConcatMap(ys, f)
    decreases |xs|
  {
    if xs == [] {
      assert xs + ys == ys;
    } else {
      assert (xs + ys)[1..] == xs[1..] + ys;
      ConcatMapAppend(xs[1..], ys, f);
    }
  }

  lemma ConcatMapThree<T>(x: T, ys: seq<T>, zs: seq<T>, f: T -> string)
    ensures ConcatMap([x] + ys + zs, f) == f(x) + ConcatMap(ys, f) + ConcatMap(zs, f)
  {
    ConcatMapAppend([x] + ys, zs, f);
    ConcatMapCons(x, ys, f);
  }

  lemma ConcatMapAtMostOne<T>(xs: seq<T>, f: T -> string)
    requires |xs| <= 1
    ensures ConcatMap(xs, f) == if xs == [] then [] else f(xs[0])
  {
    if xs != [] {
      assert xs[1..] == [];
    }
  }

  /** `generateEnvExample`: appends the sections to the header one by one. */
  method GenerateEnvExample(database: string, features: seq<string>) returns (env: string)
    ensures env == RenderEnv(EnvSections(database, features))
    ensures StartsWith(env, SectionText(EnvHeader))
  {
    env := SectionText(EnvHeader);
    if database == "mongodb" {
      env := env + SectionText(MongoDbSection);
    } else if database == "postgresql" {
      env := env + SectionText(PostgreSqlSection);
    }
    if "auth" in features {
      env := env + SectionText(AuthSection);
    }
    RenderEnvParts(database, features);
  }

  /** The rendering is the header, then the database section's text if any,
      then the JWT section's text if any, and so starts with the header. */
  lemma RenderEnvParts(database: string, features: seq<string>)
    ensures RenderEnv(EnvSections(database, features))
            == SectionText(EnvHeader)
               + (if database == "mongodb" then SectionText(MongoDbSection)
                  else if database == "postgresql" then SectionText(PostgreSqlSection) else [])
               + (if "auth" in features then SectionText(AuthSection) else [])
    ensures StartsWith(RenderEnv(EnvSections(database, features)), SectionText(EnvHeader))
  {
    var db, auth := DatabaseSections(database), AuthSections(features);
    ConcatMapThree(EnvHeader, db, auth, SectionText);
    ConcatMapAtMostOne(db, SectionText);
    ConcatMapAtMostOne(auth, SectionText);
    StartsWithAppend3(SectionText(EnvHeader), ConcatMap(db, SectionText), ConcatMap(auth, SectionText));
  }

  // ---------------------------------------------------------------------------
  // The web application file set

  /** `specs.features?.join(', ') || 'Básicas'` and the other README defaults. */
  function WebReadme(spec: WebSpec): Content {
    Readme(spec.name, OrElse(Some(spec.frontend), "React"), OrElse(Some(spec.backend), "Node.js"),
           OrElse(Some(spec.database), "MongoDB"), OrElse(Some(Join(spec.features, ", ")), "B\U{E1}sicas"))
  }

  /** The object literal of `generateWebApp`, `env` being the `.env.example` text. */
  function WebSlots(spec: WebSpec, env: string): seq<Slot> {
    var react := spec.frontend == "react";
    var mongo := spec.database == "mongodb";
    var auth := "auth" in spec.features;
    [Slot("package.json", Some(PackageJson(WebManifest(spec)))),
     Slot("server.js", Some(ServerJs(mongo, auth))),
     Slot("README.md", Some(WebReadme(spec))),
     Slot(".env.example", Some(EnvExample(env))),
     Slot("client/src/App.js", if react then Some(ReactApp(spec.name, auth)) else None),
     Slot("client/public/index.html", Some(if react then ReactHtml(spec.name) else VanillaHtml(spec.name))),
     Slot("client/src/index.css", Some(Css(auth))),
     Slot("routes/api.js", Some(ApiRoutes(auth))),
     Slot("models/User.js", if mongo then Some(MongooseUserModel) else None),
     Slot("middleware/auth.js", if auth then Some(AuthMiddleware) else None)]
  }

  /** The file set has a property named `p`. */
  predicate HasPath(files: seq<Slot>, p: string) {
    exists i :: 0 <= i < |files| && files[i].path == p
  }

  /** The properties whose value is not `null`, in their original order. */
  function Kept(files: seq<Slot>): (r: seq<Slot>)
    ensures |r| <= |files|
    ensures forall i :: 0 <= i < |r| ==> r[i].content.Some?
  {
    if files == [] then []
    else (if files[0].content.Some? then [files[0]] else []) + Kept(files[1..])
  }

  /** `files[key] === null`: the property is present and holds `null`. */
  predicate IsNullAt(files: seq<Slot>, key: string) {
    files != [] && (if files[0].path == key then files[0].content.None? else IsNullAt(files[1..], key))
  }

  /** `delete files[key]`: removes the first property named `key`, if any. */
  function Delete(files: seq<Slot>, key: string): seq<Slot> {
    if files == [] then []
    else if files[0].path == key then files[1..]
    else [files[0]] + Delete(files[1..], key)
  }

  /** The `forEach` over `Object.keys(files)` of `generateWebApp`: a snapshot
      of the keys is walked and every property holding `null` is deleted.
      With distinct keys this keeps exactly the non-null properties, in order. */
  method DeleteNulls(slots: seq<Slot>) returns (files: seq<Slot>)
    requires DistinctPaths(slots)
    ensures files == Kept(slots)
  {
    files := slots;
    var keys := Paths(slots);
    var i := 0;
    while i < |keys|
      invariant 0 <= i <= |keys| == |slots|
      invariant files == Kept(slots[..i]) + slots[i..]
    {
      var key := keys[i];
      WalkStep(slots, i, files);
      if IsNullAt(files, key) {
        files := Delete(files, key);
      }
      i := i + 1;
    }
    assert slots[..|slots|] == slots;
  }

  /** The file set `generateWebApp` returns. */
  function WebAppFiles(spec: WebSpec): seq<Slot> {
    Kept(WebSlots(spec, RenderEnv(EnvSections(spec.database, spec.features))))
  }

  /** `generateWebApp`: builds the object literal, then deletes its `null` properties. */
  method GenerateWebApp(spec: WebSpec) returns (files: seq<Slot>)
    ensures files == WebAppFiles(spec)
  {
    var env := GenerateEnvExample(spec.database, spec.features);
    var slots := WebSlots(spec, env);
    WebSlotsDistinct(spec, env);
    files := DeleteNulls(slots);
  }

  /** The seven files every web application gets. */
  const WebCorePaths: seq<string> :=
    ["package.json", "server.js", "README.md", ".env.example",
     "client/public/index.html", "client/src/index.css", "routes/api.js"]

  /** The ten keys of the object literal, in order. */
  const WebSlotPaths: seq<string> :=
    ["package.json", "server.js", "README.md", ".env.example", "client/src/App.js",
     "client/public/index.html", "client/src/index.css", "routes/api.js",
     "models/User.js", "middleware/auth.js"]

  /** The keys of the web file set: the seven core files always; the React
      entry point exactly for React; the Mongoose model exactly for MongoDB;
      the auth middleware exactly when 'auth' is a feature; no other key, no
      key twice and no `null` value. */
  lemma WebAppFileSet(spec: WebSpec)
    ensures var files := WebAppFiles(spec);
      && (forall k :: 0 <= k < |files| ==> files[k].content.Some?)
      && DistinctPaths(files)
      && (forall k :: 0 <= k < |files| ==> files[k].path in WebSlotPaths)
      && (forall k :: 0 <= k < |WebCorePaths| ==> HasPath(files, WebCorePaths[k]))
      && (HasPath(files, "client/src/App.js") <==> spec.frontend == "react")
      && (HasPath(files, "models/User.js") <==> spec.database == "mongodb")
      && (HasPath(files, "middleware/auth.js") <==> "auth" in spec.features)
  {
    var env := RenderEnv(EnvSections(spec.database, spec.features));
    WebSlotsShape(spec, env);
    KeptWebShape(WebSlots(spec, env));
  }

  /** The literal's ten keys, its seven core values never `null`, and which
      of the other three are. */
  lemma WebSlotsShape(spec: WebSpec, env: string)
    ensures var slots := WebSlots(spec, env);
      && Paths(slots) == WebSlotPaths
      && (forall k :: 0 <= k < 10 && k != 4 && k != 8 && k != 9 ==> slots[k].content.Some?)
      && (slots[4].content.Some? <==> spec.frontend == "react")
      && (slots[8].content.Some? <==> spec.database == "mongodb")
      && (slots[9].content.Some? <==> "auth" in spec.features)
  {
    assert Paths(WebSlots(spec, env)) == WebSlotPaths;
  }

  /** The filter applied to any object with the ten keys of the literal whose
      seven core properties are not `null`. */
  lemma KeptWebShape(slots: seq<Slot>)
    requires Paths(slots) == WebSlotPaths
    requires forall k :: 0 <= k < 10 && k != 4 && k != 8 && k != 9 ==> slots[k].content.Some?
    ensures var files := Kept(slots);
      && (forall k :: 0 <= k < |files| ==> files[k].content.Some?)
      && DistinctPaths(files)
      && (forall k :: 0 <= k < |files| ==> files[k].path in WebSlotPaths)
      && (forall k :: 0 <= k < |WebCorePaths| ==> HasPath(files, WebCorePaths[k]))
      && (HasPath(files, "client/src/App.js") <==> slots[4].content.Some?)
      && (HasPath(files, "models/User.js") <==> slots[8].content.Some?)
      && (HasPath(files, "middleware/auth.js") <==> slots[9].content.Some?)
  {
    SlotPathsDistinct(slots);
    KeptDistinct(slots);
    KeptPathsAmong(slots);
    KeptCorePaths(slots);
    assert Paths(slots)[4] == slots[4].path && Paths(slots)[8] == slots[8].path && Paths(slots)[9] == slots[9].path;
    KeptSlotAt(slots, 4);
    KeptSlotAt(slots, 8);
    KeptSlotAt(slots, 9);
  }

  /** Filtering adds no key. */
  lemma KeptPathsAmong(files: seq<Slot>)
    ensures forall k :: 0 <= k < |Kept(files)| ==> Kept(files)[k].path in Paths(files)
  {
    var kept := Kept(files);
    forall k | 0 <= k < |kept| ensures kept[k].path in Paths(files) {
      assert HasPath(kept, kept[k].path);
      KeptPaths(files, kept[k].path);
      var i :| 0 <= i < |files| && files[i].path == kept[k].path && files[i].content.Some?;
      assert Paths(files)[i] == files[i].path;
    }
  }

  /** The seven core properties, not being `null`, survive the filter. */
  lemma KeptCorePaths(slots: seq<Slot>)
    requires Paths(slots) == WebSlotPaths
    requires forall k :: 0 <= k < 10 && k != 4 && k != 8 && k != 9 ==> slots[k].content.Some?
    ensures forall k :: 0 <= k < |WebCorePaths| ==> HasPath(Kept(slots), WebCorePaths[k])
  {
    forall k | 0 <= k < |WebCorePaths|
      ensures HasPath(Kept(slots), WebCorePaths[k])
    {
      var i := [0, 1, 2, 3, 5, 6, 7][k];
      assert Paths(slots)[i] == slots[i].path;
      assert slots[i].path == WebCorePaths[k] && slots[i].content.Some?;
      KeptPaths(slots, WebCorePaths[k]);
    }
  }

  /** The ten keys of the literal are distinct. */
  lemma SlotPathsDistinct(slots: seq<Slot>)
    requires Paths(slots) == WebSlotPaths
    ensures DistinctPaths(slots)
  {
    forall i, j | 0 <= i < j < |slots| ensures slots[i].path != slots[j].path {
      assert slots[i].path == WebSlotPaths[i] && slots[j].path == WebSlotPaths[j];
    }
  }

  /** With distinct keys, the property at position `i` survives exactly when it is not `null`. */
  lemma KeptSlotAt(slots: seq<Slot>, i: nat)
    requires DistinctPaths(slots) && i < |slots|
    ensures HasPath(Kept(slots), slots[i].path) <==> slots[i].content.Some?
  {
    KeptPaths(slots, slots[i].path);
  }

  lemma WebSlotsDistinct(spec: WebSpec, env: string)
    ensures DistinctPaths(WebSlots(spec, env))
  {
    WebSlotsShape(spec, env);
    SlotPathsDistinct(WebSlots(spec, env));
  }

  lemma {:induction false} KeptPaths(files: seq<Slot>, p: string)
    ensures HasPath(Kept(files), p) <==> exists i :: 0 <= i < |files| && files[i].path == p && files[i].content.Some?
    decreases |files|
  {
    if files != [] {
      var tail := files[1..];
      KeptPaths(tail, p);
      var head := if files[0].content.Some? then [files[0]] else [];
      var kept := Kept(files);
      assert kept == head + Kept(tail);
      if HasPath(kept, p) {
        var k :| 0 <= k < |kept| && kept[k].path == p;
        if k < |head| {
          assert files[0].path == p && files[0].content.Some?;
        } else {
          assert Kept(tail)[k - |head|] == kept[k];
          var i :| 0 <= i < |tail| && tail[i].path == p && tail[i].content.Some?;
          assert files[i + 1] == tail[i];
        }
      }
      if exists i :: 0 <= i < |files| && files[i].path == p && files[i].content.Some? {
        var i :| 0 <= i < |files| && files[i].path == p && files[i].content.Some?;
        if i == 0 {
          assert kept[0] == files[0];
        } else {
          assert tail[i - 1] == files[i];
          var k :| 0 <= k < |Kept(tail)| && Kept(tail)[k].path == p;
          assert kept[k + |head|] == Kept(tail)[k];
        }
      }
    }
  }

  lemma {:induction false} KeptSnoc(files: seq<Slot>, x: Slot)
    ensures Kept(files + [x]) == Kept(files) + (if x.content.Some? then [x] else [])
    decreases |files|
  {
    if files == [] {
      assert [x][1..] == [];
    } else {
      assert (files + [x])[1..] == files[1..] + [x];
      KeptSnoc(files[1..], x);
    }
  }

  lemma {:induction false} KeptDistinct(files: seq<Slot>)
    requires DistinctPaths(files)
    ensures DistinctPaths(Kept(files))
    decreases |files|
  {
    if files != [] {
      var tail := files[1..];
      KeptDistinct(tail);
      var rest := Kept(tail);
      if files[0].content.Some? {
        KeptPaths(tail, files[0].path);
        assert !HasPath(rest, files[0].path) by {
          forall i | 0 <= i < |tail| ensures tail[i].path != files[0].path {
            assert tail[i] == files[i + 1];
          }
        }
        var kept := Kept(files);
        assert kept == [files[0]] + rest;
        forall i, j | 0 <= i < j < |kept| ensures kept[i].path != kept[j].path {
          if i > 0 { assert kept[i] == rest[i - 1]; }
          assert kept[j] == rest[j - 1];
        }
      }
    }
  }

  /** In a file set with distinct keys, the key at position `i` is not among
      the kept properties before it. */
  lemma KeptPrefixLacks(slots: seq<Slot>, i: nat)
    requires DistinctPaths(slots) && i < |slots|
    ensures !HasPath(Kept(slots[..i]), slots[i].path)
  {
    KeptPaths(slots[..i], slots[i].path);
  }

  /** One step of the walk over the key snapshot: testing and deleting the
      `i`-th key extends the kept prefix by that property when it is not `null`. */
  lemma WalkStep(slots: seq<Slot>, i: nat, files: seq<Slot>)
    requires DistinctPaths(slots) && i < |slots|
    requires files == Kept(slots[..i]) + slots[i..]
    ensures var key := slots[i].path;
      (if IsNullAt(files, key) then Delete(files, key) else files) == Kept(slots[..i + 1]) + slots[i + 1..]
  {
    var prefix, rest := Kept(slots[..i]), slots[i..];
    KeptPrefixLacks(slots, i);
    DeleteStep(prefix, rest, slots[i].path);
    KeptSnoc(slots[..i], slots[i]);
    assert slots[..i + 1] == slots[..i] + [slots[i]];
    assert rest == [slots[i]] + slots[i + 1..];
    if slots[i].content.Some? {
      SeqAssoc(prefix, [slots[i]], slots[i + 1..]);
    }
  }

  lemma SeqAssoc<T>(a: seq<T>, b: seq<T>, c: seq<T>)
    ensures a + (b + c) == (a + b) + c
  {
  }

  /** One step of the walk: the key at the head of `rest` is absent from the
      kept `prefix`, so the test and the deletion act on that property alone. */
  lemma DeleteStep(prefix: seq<Slot>, rest: seq<Slot>, key: string)
    requires rest != [] && rest[0].path == key && !HasPath(prefix, key)
    ensures IsNullAt(prefix + rest, key) <==> rest[0].content.None?
    ensures Delete(prefix + rest, key) == prefix + rest[1..]
  {
    SkipPrefixNull(prefix, rest, key);
    SkipPrefixDelete(prefix, rest, key);
  }

  /** A prefix that lacks `key` has no property named `key` at its head or in its tail. */
  lemma NotInTail(a: seq<Slot>, key: string)
    requires a != [] && !HasPath(a, key)
    ensures a[0].path != key && !HasPath(a[1..], key)
  {
  }

  /** Looking up a key that the prefix does not hold skips the prefix. */
  lemma {:induction false} SkipPrefixNull(a: seq<Slot>, b: seq<Slot>, key: string)
    requires !HasPath(a, key)
    ensures IsNullAt(a + b, key) == IsNullAt(b, key)
    decreases |a|
  {
    if a == [] {
      assert a + b == b;
    } else {
      NotInTail(a, key);
      assert (a + b)[1..] == a[1..] + b;
      SkipPrefixNull(a[1..], b, key);
    }
  }

  /** Deleting a key that the prefix does not hold leaves the prefix alone. */
  lemma {:induction false} SkipPrefixDelete(a: seq<Slot>, b: seq<Slot>, key: string)
    requires !HasPath(a, key)
    ensures Delete(a + b, key) == a + Delete(b, key)
    decreases |a|
  {
    if a == [] {
      assert a + b == b;
    } else {
      NotInTail(a, key);
      assert (a + b)[1..] == a[1..] + b;
      SkipPrefixDelete(a[1..], b, key);
      assert a == [a[0]] + a[1..];
    }
  }

  // ---------------------------------------------------------------------------
  // Mobile and AI file sets

  /** `generateMobileApp`: exactly `package.json` and `App.js`, neither `null`. */
  function GenerateMobileApp(spec: MobileSpec): (files: seq<Slot>)
    ensures Paths(files) == ["package.json", "App.js"]
    ensures forall k :: 0 <= k < |files| ==> files[k].content.Some?
  {
    [Slot("package.json", Some(PackageJson(MobileManifest(spec)))),
     Slot("App.js", Some(MobileAppJs(spec.name)))]
  }

  /** `generateAIModel` evaluates its object literal property by property. The
      template of `train.py` contains `${name.lower().replace(" ", "_")}`
      (server.js:907), and a JavaScript string has no `lower` method: the
      evaluation throws there for every spec, so no file set is ever
      returned. The template's other interpolations of the name (server.js:776,
      833, 855 and 900) use `name.replace`, which does not throw. */
  function GenerateAIModel(spec: AiSpec): (r: Result<seq<Slot>, JsError>)
    ensures r.Failure? && r.error.TypeError? && Message(r.error) == "name.lower is not a function"
  {
    Failure(TypeError("name.lower is not a function"))
  }
}
