/**
 * The keyword classifier of the backend: the category dispatch of
 * `processCommand`, `detectTechnology` and `detectFeatures`.
 */
module Classifier {
  import opened Wrappers
  import opened Js

  /** The project categories, one per branch of the dispatch. */
  datatype Category = WebApp | MobileApp | AiModel | Ecommerce | Game | ApiService | Custom

  /** The trigger substrings that select a category, tested on the lower-cased command. */
  function Triggers(c: Category): seq<string> {
    match c
    case WebApp => ["web", "sitio", "p\U{E1}gina"]
    case MobileApp => ["app", "m\U{F3}vil", "mobile"]
    case AiModel => ["ia", "ai", "inteligencia"]
    case Ecommerce => ["ecommerce", "tienda", "shop"]
    case Game => ["game", "juego"]
    case ApiService => ["api", "servidor"]
    case Custom => []
  }

  /** The order in which the categories are tried; `Custom` is the fallback. */
  const Priority: seq<Category> := [WebApp, MobileApp, AiModel, Ecommerce, Game, ApiService]

  /** Some trigger of `c` occurs in the (lower-cased) command `cmd`. */
  predicate Triggered(cmd: string, c: Category) {
    exists i :: 0 <= i < |Triggers(c)| && Includes(cmd, Triggers(c)[i])
  }

  /** The first category of `cs` whose triggers occur in `cmd`, or `Custom`
      when none does. */
  function FirstTriggered(cmd: string, cs: seq<Category>): (r: Category)
    requires forall j :: 0 <= j < |cs| ==> cs[j] != Custom
    ensures r == Custom <==> forall j :: 0 <= j < |cs| ==> !Triggered(cmd, cs[j])
    ensures r != Custom ==> exists k :: 0 <= k < |cs| && cs[k] == r && Triggered(cmd, r)
                                        && forall j :: 0 <= j < k ==> !Triggered(cmd, cs[j])
    decreases |cs|
  {
    if cs == [] then Custom
    else if Triggered(cmd, cs[0]) then cs[0]
    else
      var r := FirstTriggered(cmd, cs[1..]);
      assert r != Custom ==> exists k :: 0 <= k < |cs[1..]| && cs[1..][k] == r && Triggered(cmd, r)
                                         && forall j :: 0 <= j < k ==> !Triggered(cmd, cs[1..][j]);
      if r != Custom then
        var k :| 0 <= k < |cs[1..]| && cs[1..][k] == r && Triggered(cmd, r)
                 && forall j :: 0 <= j < k ==> !Triggered(cmd, cs[1..][j]);
        assert cs[k + 1] == r;
        assert forall j :: 1 <= j < k + 1 ==> cs[j] == cs[1..][j - 1];
        r
      else r
  }

  /** The dispatch of `processCommand`: the chain of `includes` tests on the
      lower-cased command, tried category by category in `Priority` order,
      the first that succeeds deciding the branch and `Custom` the fallback.
      `TriggersSpelledOut` shows that each link of the chain is the source's
      test. */
  function Classify(command: string): Category {
    FirstTriggered(ToLower(command), Priority)
  }

  /** Each chain of `includes` tests in the dispatch is the test `Triggered`. */
  lemma TriggersSpelledOut(cmd: string)
    ensures Triggered(cmd, WebApp) <==> (Includes(cmd, "web") || Includes(cmd, "sitio") || Includes(cmd, "p\U{E1}gina"))
    ensures Triggered(cmd, MobileApp) <==> (Includes(cmd, "app") || Includes(cmd, "m\U{F3}vil") || Includes(cmd, "mobile"))
    ensures Triggered(cmd, AiModel) <==> (Includes(cmd, "ia") || Includes(cmd, "ai") || Includes(cmd, "inteligencia"))
    ensures Triggered(cmd, Ecommerce) <==> (Includes(cmd, "ecommerce") || Includes(cmd, "tienda") || Includes(cmd, "shop"))
    ensures Triggered(cmd, Game) <==> (Includes(cmd, "game") || Includes(cmd, "juego"))
    ensures Triggered(cmd, ApiService) <==> (Includes(cmd, "api") || Includes(cmd, "servidor"))
  {
    assert Triggers(WebApp)[0] == "web" && Triggers(WebApp)[1] == "sitio" && Triggers(WebApp)[2] == "p\U{E1}gina";
    assert Triggers(MobileApp)[0] == "app" && Triggers(MobileApp)[1] == "m\U{F3}vil" && Triggers(MobileApp)[2] == "mobile";
    assert Triggers(AiModel)[0] == "ia" && Triggers(AiModel)[1] == "ai" && Triggers(AiModel)[2] == "inteligencia";
    assert Triggers(Ecommerce)[0] == "ecommerce" && Triggers(Ecommerce)[1] == "tienda" && Triggers(Ecommerce)[2] == "shop";
    assert Triggers(Game)[0] == "game" && Triggers(Game)[1] == "juego";
    assert Triggers(ApiService)[0] == "api" && Triggers(ApiService)[1] == "servidor";
  }

  /** First match wins: the command is classified as the earliest category in
      `Priority` whose triggers occur in it, and as `Custom` exactly when none
      does. So a command with both "web" and "app" is a web application. */
  lemma ClassifyFirstMatchWins(command: string)
    ensures var c := Classify(command); var cmd := ToLower(command);
      && (c == Custom <==> forall j :: 0 <= j < |Priority| ==> !Triggered(cmd, Priority[j]))
      && (c != Custom ==> exists k :: 0 <= k < |Priority| && Priority[k] == c && Triggered(cmd, c)
                                      && forall j :: 0 <= j < k ==> !Triggered(cmd, Priority[j]))
  {
  }

  /** The category at position `k` of `Priority` is chosen exactly when its
      triggers occur and those of no earlier category do. */
  lemma ClassifyAs(command: string, k: nat)
    requires k < |Priority|
    requires Triggered(ToLower(command), Priority[k])
    requires forall j :: 0 <= j < k ==> !Triggered(ToLower(command), Priority[j])
    ensures Classify(command) == Priority[k]
  {
    var cmd := ToLower(command);
    var c := Classify(command);
    var k' :| 0 <= k' < |Priority| && Priority[k'] == c && Triggered(cmd, c)
              && forall j :: 0 <= j < k' ==> !Triggered(cmd, Priority[j]);
    assert k' == k;
  }

  /** A command whose lower case has "web" is a web application. */
  lemma WebWhenWebOccurs(command: string)
    requires Includes(ToLower(command), "web")
    ensures Classify(command) == WebApp
  {
    TriggersSpelledOut(ToLower(command));
    ClassifyAs(command, 0);
  }

  /** A command whose lower case has "app" and no web trigger is a mobile application. */
  lemma MobileWhenAppWithoutWeb(command: string)
    requires var lc := ToLower(command);
      !Includes(lc, "web") && !Includes(lc, "sitio") && !Includes(lc, "p\U{E1}gina") && Includes(lc, "app")
    ensures Classify(command) == MobileApp
  {
    TriggersSpelledOut(ToLower(command));
    ClassifyAs(command, 1);
  }

  /** An empty command falls through to the custom branch. */
  lemma EmptyCommandIsCustom()
    ensures Classify("") == Custom
  {
    assert ToLower("") == "";
    forall j | 0 <= j < |Priority| ensures !Triggered("", Priority[j]) {
      TriggersNonEmpty(Priority[j]);
    }
  }

  lemma TriggersNonEmpty(c: Category)
    ensures forall i :: 0 <= i < |Triggers(c)| ==> Triggers(c)[i] != ""
  {
  }

  /** `detectTechnology`: the first technology in list order that occurs in
      the lower-cased command, or `undefined`. */
  function DetectTechnology(command: string, technologies: seq<string>): Option<string> {
    Find(technologies, (tech: string) => Includes(ToLower(command), tech))
  }

  /** The technology detected is the first IN LIST ORDER that occurs in the
      lower-cased command, and there is none exactly when none occurs; where
      it occurs in the command does not matter. */
  lemma DetectTechnologyFirst(command: string, technologies: seq<string>)
    ensures var r := DetectTechnology(command, technologies);
      && (r.None? <==> forall j :: 0 <= j < |technologies| ==> !Includes(ToLower(command), technologies[j]))
      && (r.Some? ==> exists k :: 0 <= k < |technologies| && technologies[k] == r.value
                                  && Includes(ToLower(command), r.value)
                                  && forall j :: 0 <= j < k ==> !Includes(ToLower(command), technologies[j]))
  {
    var p := (tech: string) => Includes(ToLower(command), tech);
    var i := FindIndex(technologies, p);
    if i.Some? {
      assert technologies[i.value] == DetectTechnology(command, technologies).value;
    }
  }

  /** The synonyms that turn each feature flag on, tested case-sensitively. */
  predicate WantsAuth(command: string) {
    Includes(command, "auth") || Includes(command, "login") || Includes(command, "usuario")
  }

  predicate WantsChat(command: string) {
    Includes(command, "chat") || Includes(command, "mensaje")
  }

  predicate WantsPayment(command: string) {
    Includes(command, "pago") || Includes(command, "payment")
  }

  /** The flags in the order `detectFeatures` pushes them. */
  const AllFeatures: seq<string> := ["auth", "chat", "payment"]

  /** `a` is obtained from `b` by deleting elements. */
  predicate IsSubsequence(a: seq<string>, b: seq<string>)
    decreases |b|
  {
    a == [] || (b != [] && ((a[0] == b[0] && IsSubsequence(a[1..], b[1..])) || IsSubsequence(a, b[1..])))
  }

  /** `detectFeatures`: the flags whose synonyms occur in the raw command
      (not lower-cased), in the order auth, chat, payment. */
  function DetectFeatures(command: string): seq<string> {
    (if WantsAuth(command) then ["auth"] else [])
    + (if WantsChat(command) then ["chat"] else [])
    + (if WantsPayment(command) then ["payment"] else [])
  }

  /** Each flag is present exactly when one of its synonyms occurs; the flags
      come in the fixed order auth, chat, payment, each at most once. */
  lemma DetectFeaturesFlags(command: string)
    ensures var r := DetectFeatures(command);
      && ("auth" in r <==> WantsAuth(command))
      && ("chat" in r <==> WantsChat(command))
      && ("payment" in r <==> WantsPayment(command))
      && IsSubsequence(r, AllFeatures)
      && forall i, j :: 0 <= i < j < |r| ==> r[i] != r[j]
  {
    var auth := if WantsAuth(command) then ["auth"] else [];
    var chat := if WantsChat(command) then ["chat"] else [];
    var payment := if WantsPayment(command) then ["payment"] else [];
    var r := auth + chat + payment;
    assert r == DetectFeatures(command);
    assert IsSubsequence(payment, ["payment"]);
    assert IsSubsequence(chat + payment, ["chat", "payment"]) by {
      assert ["chat", "payment"][1..] == ["payment"];
      if chat == [] { assert chat + payment == payment; }
    }
    assert IsSubsequence(r, AllFeatures) by {
      assert AllFeatures[1..] == ["chat", "payment"];
      if auth == [] { assert r == chat + payment; }
      else { assert r[1..] == chat + payment; }
    }
  }

  /** `detectFeatures` as written: starts from an empty array and pushes each
      flag whose synonyms occur. */
  method CollectFeatures(command: string) returns (features: seq<string>)
    ensures features == DetectFeatures(command)
  {
    features := [];
    if WantsAuth(command) {
      features := features + ["auth"];
    }
    if WantsChat(command) {
      features := features + ["chat"];
    }
    if WantsPayment(command) {
      features := features + ["payment"];
    }
  }

  /** Feature matching is case-sensitive: a command without lower-case ASCII
      letters (say "CREAR WEB CON LOGIN") turns no flag on. */
  lemma {:induction false} FeaturesAreCaseSensitive(command: string)
    requires forall i :: 0 <= i < |command| ==> !('a' <= command[i] <= 'z')
    ensures DetectFeatures(command) == []
  {
    forall t: string, k: nat | k < |t| && 'a' <= t[k] <= 'z'
      ensures !Includes(command, t)
    {
      AbsentCharNotIncluded(command, t, k);
    }
    assert "auth"[0] == 'a' && "login"[0] == 'l' && "usuario"[0] == 'u';
    assert "chat"[0] == 'c' && "mensaje"[0] == 'm';
    assert "pago"[0] == 'p' && "payment"[0] == 'p';
  }
}
