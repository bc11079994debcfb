/**
 * The requests generator.py sends to the chat service and what it does with the replies:
 * the workflow generation, the clarifying questions and the demo context, plus the
 * language tag of a generated file.
 *
 * The chat service is a `ChatClient` object that records every request it is sent and
 * answers with the next of a scripted list of replies, each of which may be a failure.
 * The documentation text is a parameter: reading it from disk is not modelled.
 */
module Generator {
  import opened Wrappers
  import opened Text
  import opened Prompts
  import opened SystemPrompts
  import opened QuestionPrompts
  import opened DemoPrompts

  /** One chat message. */
  datatype Message = Message(role: string, content: string)

  /**
   * One chat completion request. The temperature is kept in tenths (0.3 is 3) since the
   * model has no floating point.
   */
  datatype Request = Request(model: string, messages: seq<Message>, temperatureTenths: nat, maxTokens: nat)

  /** The chat service as the program sees it. */
  class ChatClient {
    /** The answers still to come, in order; a failure stands for any exception of the call. */
    var replies: seq<Result<string>>
    /** Every request sent so far, in order. */
    var sent: seq<Request>

    constructor(replies: seq<Result<string>>)
      ensures this.replies == replies && sent == []
    {
      this.replies := replies;
      sent := [];
    }

    /** `appeler_groq`: send one request and return the content of the first choice. */
    method Complete(req: Request) returns (r: Result<string>)
      modifies this
      ensures Sent(this, req) && r == NextReply(old(replies))
    {
      sent := sent + [req];
      r := NextReply(replies);
      if replies != [] {
        replies := replies[1..];
      }
    }
  }

  /** The answer the service gives next: the first scripted reply, or a failure when there is none left. */
  function NextReply(replies: seq<Result<string>>): Result<string> {
    if replies == [] then Err("no reply") else replies[0]
  }

  /** `client` was sent `req`, once, and used up one scripted reply. */
  twostate predicate Sent(client: ChatClient, req: Request)
    reads client
  {
    client.sent == old(client.sent) + [req]
    && client.replies == if old(client.replies) == [] then [] else old(client.replies)[1..]
  }

  /** `construire_user_prompt`, which raises `KeyError` without the required keys. */
  function UserPromptOf(ctx: Context): (r: Result<string>)
    ensures r.Ok? <==> HasRequired(ctx)
    ensures r.Ok? ==> r.value == UserPrompt(ctx)
  {
    if HasRequired(ctx) then Ok(UserPrompt(ctx)) else Err("KeyError")
  }

  const MissingDocumentation := "Documentation introuvable (doc.txt)"

  /** The request of `generer_workflow`: system prompt, user prompt, temperature 0.3, 8000 tokens. */
  function WorkflowRequest(model: string, doc: string, userPrompt: string): Request {
    Request(model, [Message("system", SystemPrompt(doc)), Message("user", userPrompt)], 3, 8000)
  }

  /**
   * `generer_workflow`: refuses an empty documentation before anything is sent, then
   * builds both prompts and sends them in one request.
   */
  method GenerateWorkflow(client: ChatClient, model: string, doc: string, ctx: Context) returns (r: Result<string>)
    modifies client
    ensures doc == [] ==> r == Err(MissingDocumentation) && unchanged(client)
    ensures doc != [] && !HasRequired(ctx) ==> r.Err? && unchanged(client)
    ensures doc != [] && HasRequired(ctx) ==>
      Sent(client, WorkflowRequest(model, doc, UserPrompt(ctx))) && r == NextReply(old(client.replies))
  {
    if doc == [] {
      return Err(MissingDocumentation);
    }
    var userPrompt := UserPromptOf(ctx);
    if userPrompt.Err? {
      return Err(userPrompt.error);
    }
    r := client.Complete(WorkflowRequest(model, doc, userPrompt.value));
  }

  const PartialContextIntro := "Voici le contexte partiel :\n\n"

  /** The request of `poser_questions_ia`: temperature 0.4, 2000 tokens. */
  function QuestionsRequest(model: string, doc: string, userPrompt: string): Request {
    Request(model, [Message("system", QuestionsSystemPrompt(doc)), Message("user", PartialContextIntro + userPrompt)], 4, 2000)
  }

  /** `poser_questions_ia`: no guard on the documentation; the user prompt is sent after an introduction line. */
  method AskQuestions(client: ChatClient, model: string, doc: string, ctx: Context) returns (r: Result<string>)
    modifies client
    ensures !HasRequired(ctx) ==> r.Err? && unchanged(client)
    ensures HasRequired(ctx) ==>
      Sent(client, QuestionsRequest(model, doc, UserPrompt(ctx))) && r == NextReply(old(client.replies))
  {
    var userPrompt := UserPromptOf(ctx);
    if userPrompt.Err? {
      return Err(userPrompt.error);
    }
    r := client.Complete(QuestionsRequest(model, doc, userPrompt.value));
  }

  /** The domains the demo draws from. */
  const DemoDomains: seq<string> := [
    "Clients", "Stocks", "Commandes", "RH (Ressources Humaines)",
    "Logistique", "Fournisseurs", "Produits", "Contrats",
    "Sinistres (Assurance)", "Transactions bancaires", "Abonnements",
    "Campagnes marketing", "Tickets SAV", "Véhicules (Flotte)",
    "Patients (Santé)", "Réservations", "Inventaire", "Paie",
    "Livraisons", "Données IoT capteurs"]

  /** The platforms the demo draws from. */
  const DemoPlatforms: seq<string> := ["BQ", "TD"]

  /** The user message of the demo request, naming the imposed domain and platform. */
  function DemoDirective(domaine: string, plateforme: string): string {
    "Domaine imposé : " + domaine + "\nPlateforme imposée : " + plateforme
    + "\n\nGénère un contexte de workflow réaliste."
  }

  /** The request of `generer_contexte_ia`: temperature 0.9, 2000 tokens. */
  function DemoRequest(model: string, doc: string, domaine: string, plateforme: string): Request {
    Request(model, [Message("system", DemoSystemPrompt(doc)), Message("user", DemoDirective(domaine, plateforme))], 9, 2000)
  }

  /** The three backticks of a Markdown code fence. */
  const Fence := "```"

  /**
   * The text `generer_contexte_ia` hands to `json.loads`: the reply stripped; when it
   * opens with a fence, without its first line and from its last fence on, stripped
   * again. A fenced reply with no newline has no second line and raises `IndexError`.
   */
  function JsonText(reponse: string): (r: Result<string>)
    ensures r.Ok? ==> Trimmed(r.value)
  {
    var cleaned := Strip(reponse);
    StripSpec(reponse);
    if !StartsWith(cleaned, Fence) then
      StripSpec(cleaned);
      Ok(Strip(cleaned))
    else if '\n' !in cleaned then
      Err("list index out of range")
    else
      var rest := cleaned[IndexOf(cleaned, '\n') + 1..];
      var body := match LastIndexOf(rest, Fence)
        case Some(k) => rest[..k]
        case None => rest;
      StripSpec(body);
      Ok(Strip(body))
  }

  /** What the demo makes of the service's answer: a failure is passed on, a reply has its JSON text extracted. */
  function DemoOutcome(answer: Result<string>): Result<string> {
    if answer.Err? then Err(answer.error) else JsonText(answer.value)
  }

  /**
   * `generer_contexte_ia` up to the JSON decoding: the random draws are the indices
   * `domainDraw` and `platformDraw`; the result is the text the decoder is given.
   */
  method DemoContext(client: ChatClient, model: string, doc: string, domainDraw: nat, platformDraw: nat)
    returns (r: Result<string>)
    requires domainDraw < |DemoDomains| && platformDraw < |DemoPlatforms|
    modifies client
    ensures Sent(client, DemoRequest(model, doc, DemoDomains[domainDraw], DemoPlatforms[platformDraw]))
    ensures r == DemoOutcome(NextReply(old(client.replies)))
  {
    var domaine := DemoDomains[domainDraw];
    var plateforme := DemoPlatforms[platformDraw];
    var answer := client.Complete(DemoRequest(model, doc, domaine, plateforme));
    if answer.Err? {
      return Err(answer.error);
    }
    r := JsonText(answer.value);
  }

  /** `detecter_langage`: the syntax-colouring tag of a path, from its suffix. */
  function DetectLanguage(chemin: string): (tag: string)
  {
    if EndsWith(chemin, ".yml") || EndsWith(chemin, ".yaml") then "yaml"
    else if EndsWith(chemin, ".gql") || EndsWith(chemin, ".dql") || EndsWith(chemin, ".sql") then "sql"
    else ""
  }

  predicate YamlPath(chemin: string) {
    EndsWith(chemin, ".yml") || EndsWith(chemin, ".yaml")
  }

  predicate SqlPath(chemin: string) {
    EndsWith(chemin, ".gql") || EndsWith(chemin, ".dql") || EndsWith(chemin, ".sql")
  }

  /** No path ends with both a YAML and an SQL suffix. */
  lemma YamlNotSql(chemin: string)
    ensures !(YamlPath(chemin) && SqlPath(chemin))
  {
    var n := |chemin|;
    if SqlPath(chemin) {
      var x := if EndsWith(chemin, ".gql") then ".gql" else if EndsWith(chemin, ".dql") then ".dql" else ".sql";
      OccursAtChar(chemin, x, n - 4, 0);
      OccursAtChar(chemin, x, n - 4, 1);
      if EndsWith(chemin, ".yml") {
        OccursAtChar(chemin, ".yml", n - 4, 1);
      }
      if EndsWith(chemin, ".yaml") {
        OccursAtChar(chemin, ".yaml", n - 5, 1);
      }
    }
  }

  /** The tag is one of three, each exactly for its own suffixes. */
  lemma DetectLanguageSpec(chemin: string)
    ensures DetectLanguage(chemin) == "yaml" <==> YamlPath(chemin)
    ensures DetectLanguage(chemin) == "sql" <==> SqlPath(chemin)
    ensures DetectLanguage(chemin) == "" <==> !YamlPath(chemin) && !SqlPath(chemin)
  {
    YamlNotSql(chemin);
  }

  /** The tag depends only on the extension: any stem followed by a listed extension gets that extension's tag. */
  lemma DetectLanguageOfExtension(stem: string, ext: string)
    requires ext in [".yml", ".yaml", ".gql", ".dql", ".sql"]
    ensures DetectLanguage(stem + ext) == (if ext in [".yml", ".yaml"] then "yaml" else "sql")
  {
    var s := stem + ext;
    assert s[|stem|..] == ext;
    EndsWithSuffix(s, ext);
    YamlNotSql(s);
  }

  /** A reply that, once stripped, does not open with a fence reaches the decoder stripped and otherwise unchanged. */
  lemma UnfencedPassesThrough(reponse: string)
    requires !StartsWith(Strip(reponse), Fence)
    ensures JsonText(reponse).Ok? && JsonText(reponse).value == Strip(reponse)
  {
    StripSpec(reponse);
    StripTrimmed(Strip(reponse));
  }

  /** A fenced reply on a single line makes the extraction raise. */
  lemma FencedSingleLineFails(reponse: string)
    requires StartsWith(Strip(reponse), Fence) && '\n' !in Strip(reponse)
    ensures JsonText(reponse).Err?
  {
  }

  /** A JSON text wrapped in a fenced block, with an optional tag on the opening line. */
  function Fenced(tag: string, json: string): string {
    Fence + tag + "\n" + json + "\n" + Fence
  }

  /** Where the first newline of a fenced block is, and what follows it. */
  lemma FencedShape(tag: string, json: string)
    requires '\n' !in tag
    ensures var s := Fenced(tag, json);
      Trimmed(s) && StartsWith(s, Fence) && '\n' in s
      && IndexOf(s, '\n') == |Fence| + |tag| && s[|Fence| + |tag| + 1..] == json + "\n" + Fence
  {
    var s := Fenced(tag, json);
    assert s[0] == '`' && s[|s| - 1] == '`';
    assert s[..3] == Fence;
    var nl := |Fence| + |tag|;
    assert s[nl] == '\n';
    assert s[..nl] == Fence + tag;
    assert IndexOf(s, '\n') == nl;
    assert s[nl + 1..] == json + "\n" + Fence;
  }

  /** The last fence of a text that ends with a fence is that final one. */
  lemma LastFenceAtEnd(body: string)
    ensures LastIndexOf(body + Fence, Fence).Some? && LastIndexOf(body + Fence, Fence).value == |body|
  {
    var t := body + Fence;
    assert OccursAt(t, Fence, |body|) by { assert t[|body|..] == Fence; }
  }

  /** Round trip: the extraction takes a fenced block back to the trimmed JSON text it wraps. */
  lemma JsonTextOfFenced(tag: string, json: string)
    requires '\n' !in tag && Trimmed(json)
    ensures JsonText(Fenced(tag, json)).Ok? && JsonText(Fenced(tag, json)).value == json
  {
    var s := Fenced(tag, json);
    FencedShape(tag, json);
    StripTrimmed(s);
    var body := json + "\n";
    assert json + "\n" + Fence == body + Fence;
    LastFenceAtEnd(body);
    assert (body + Fence)[..|body|] == body;
    StripOfPadded([], json, "\n");
    assert [] + json + "\n" == body;
  }

  /** Two texts of the frame `head + d + mid + p + tail`, where `mid` opens with a newline and `d` holds none, agree only with the same `d` and `p`. */
  lemma SameFrame(head: string, mid: string, tail: string, d1: string, p1: string, d2: string, p2: string)
    requires '\n' !in d1 && '\n' !in d2 && mid != [] && mid[0] == '\n'
    requires head + d1 + mid + p1 + tail == head + d2 + mid + p2 + tail
    ensures d1 == d2 && p1 == p2
  {
    var m := head + d1 + mid + p1 + tail;
    assert m[|head|..] == d1 + (mid + p1 + tail);
    assert m[|head|..] == d2 + (mid + p2 + tail);
    CutAtFirst(d1, mid + p1 + tail, d2, mid + p2 + tail, '\n');
    assert p1 == (mid + p1 + tail)[|mid|..|mid| + |p1|];
    assert p2 == (mid + p2 + tail)[|mid|..|mid| + |p2|];
  }

  /**
   * The demo's user message names the draw: two messages agree exactly when they impose
   * the same domain and the same platform (none of the domains holds a newline).
   */
  lemma DemoDirectiveDeterminesDraw(d1: string, p1: string, d2: string, p2: string)
    requires '\n' !in d1 && '\n' !in d2
    ensures DemoDirective(d1, p1) == DemoDirective(d2, p2) <==> d1 == d2 && p1 == p2
  {
    if DemoDirective(d1, p1) == DemoDirective(d2, p2) {
      SameFrame("Domaine imposé : ", "\nPlateforme imposée : ", "\n\nGénère un contexte de workflow réaliste.", d1, p1, d2, p2);
    }
  }
}
